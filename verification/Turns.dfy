/**
 What whole cycles come to (observers/contributions.go): the lines listed for an ordinary turn, for one with a
 turn-completion marker, for one held until the user went on, for one with a tool call, and for a greeting.
 */
module Turns {
  import opened Wrappers
  import opened Contributions

  // ---------------------------------------------------------------- merging

  predicate SameName(a: Contribution, b: Contribution) {
    a.stage == b.stage && a.owner == b.owner
  }

  /** Between the stretches i - 1 and i, which have that name and less than half a millisecond between them. */
  predicate InShortGap(cs: seq<Contribution>, i: int, out: Contribution, t: int) {
    0 < i < |cs| && SameName(cs[i - 1], out) && SameName(cs[i], out)
    && End(cs[i - 1]) <= t < cs[i].start && cs[i].start - End(cs[i - 1]) < 500_000
  }

  predicate InNamed(cs: seq<Contribution>, i: int, out: Contribution, t: int) {
    0 <= i < |cs| && SameName(cs[i], out) && cs[i].start <= t < End(cs[i])
  }

  predicate Accounted(cs: seq<Contribution>, i: int, out: Contribution, t: int) {
    InNamed(cs, i, out, t) || InShortGap(cs, i, out, t)
  }

  lemma {:induction false} AccountedInPrefix(cs: seq<Contribution>, n: nat, i: int, a: Contribution, out: Contribution, t: int)
    requires n <= |cs| && Accounted(cs[..n], i, a, t) && SameName(a, out)
    ensures Accounted(cs, i, out, t)
  {
  }

  /** What a stretch of the new list is: one of the old, the last of them joined with c, or c. */
  lemma {:induction false} MergedOnto(earlier: seq<Contribution>, c: Contribution, k: nat)
    requires k < |MergeOnto(earlier, c)|
    ensures var out := MergeOnto(earlier, c)[k];
            if k < |earlier| then
              SameName(earlier[k], out) && out.start == earlier[k].start
              && (out == earlier[k] || (k == |earlier| - 1 && Joins(earlier[k], c) && End(out) == End(c)))
            else out == c
  {
  }

  /** Before the last stretch starts, and past what was merged until then, is the gap that was closed. */
  lemma {:induction false} ClosedGap(earlier: seq<Contribution>, cs: seq<Contribution>, k: nat, t: int)
    requires cs != [] && k < |MergeOnto(earlier, cs[|cs| - 1])|
    requires var last := |earlier| - 1;
             earlier != [] ==> |cs| > 1 && End(earlier[last]) == End(cs[|cs| - 2]) && SameName(earlier[last], cs[|cs| - 2])
    requires var out := MergeOnto(earlier, cs[|cs| - 1])[k];
             out.start <= t < End(out) && t < cs[|cs| - 1].start && (k < |earlier| ==> t >= End(earlier[k]))
    ensures InShortGap(cs, |cs| - 1, MergeOnto(earlier, cs[|cs| - 1])[k], t)
  {
    MergedOnto(earlier, cs[|cs| - 1], k);
  }

  /** Merging invents no time: every instant of a merged stretch lies in a stretch of the same name, or in a gap
      too short to print between two neighbours of that name. */
  lemma {:induction false} MergeInventsNothing(cs: seq<Contribution>, lo: int, hi: int, k: nat, t: int) returns (i: nat)
    requires Chained(cs, lo, hi) && k < |Merge(cs)| && Merge(cs)[k].start <= t < End(Merge(cs)[k])
    ensures InNamed(cs, i, Merge(cs)[k], t) || InShortGap(cs, i, Merge(cs)[k], t)
  {
    var n := |cs| - 1;
    var earlier := Merge(cs[..n]);
    MergedOnto(earlier, cs[n], k);
    if k < |earlier| && t < End(earlier[k]) {
      i := MergeInventsNothing(cs[..n], lo, hi, k, t);
      AccountedInPrefix(cs, n, i, earlier[k], Merge(cs)[k], t);
    } else {
      i := n;
      if t < cs[n].start {
        MergeJoins(cs[..n], lo, hi);
        if n > 0 {
          LastKeepsItsName(cs[..n], lo, hi);
        }
        ClosedGap(earlier, cs, k, t);
      }
    }
  }

  lemma {:induction false} LastKeepsItsName(cs: seq<Contribution>, lo: int, hi: int)
    requires Chained(cs, lo, hi) && cs != []
    ensures Merge(cs) != [] && SameName(Merge(cs)[|Merge(cs)| - 1], cs[|cs| - 1])
  {
  }

  /** Neighbours of the same name are left apart only by a gap that prints. */
  lemma {:induction false} NamesakesAreApart(cs: seq<Contribution>, lo: int, hi: int, i: nat)
    requires Chained(cs, lo, hi) && i + 1 < |Merge(cs)| && SameName(Merge(cs)[i], Merge(cs)[i + 1])
    ensures Merge(cs)[i + 1].start - End(Merge(cs)[i]) >= 500_000
  {
    MergeJoins(cs, lo, hi);
    assert !Joins(Merge(cs)[i], Merge(cs)[i + 1]);
  }

  // ---------------------------------------------------------------- what is listed

  /** The stages that are listed however brief. */
  predicate CoreStage(stage: Stage) {
    stage.EndpointingWait? || stage.FirstRequest? || stage.Transcription? || stage.TurnDetection? || stage.LlmInference?
    || stage.SpeechSynthesis?
  }

  lemma {:induction false} CoreMarks(opener: Moment, closer: Moment, markersSeen: bool)
    ensures var r := ContributionFor(opener, closer, markersSeen); r.Some? ==> (r.value.1 <==> CoreStage(r.value.0.stage))
  {
  }

  lemma {:induction false} CoreMarked(ms: seq<Moment>, markersSeen: bool, i: nat)
    requires i < |NameAll(ms, markersSeen)|
    ensures NameAll(ms, markersSeen)[i].1 <==> CoreStage(NameAll(ms, markersSeen)[i].0.stage)
  {
    var j := NamedFromMoments(ms, markersSeen, i);
    CoreMarks(ms[j], ms[j + 1], markersSeen);
  }

  lemma {:induction false} CoreStages(ms: seq<Moment>, markersSeen: bool, out: Contribution)
    requires out in Merge(Stretches(NameAll(ms, markersSeen)))
    ensures IsCore(NameAll(ms, markersSeen), out.stage) <==> CoreStage(out.stage)
  {
    var named := NameAll(ms, markersSeen);
    var cs := Stretches(named);
    var k :| 0 <= k < |Merge(cs)| && Merge(cs)[k] == out;
    var i := MergedFromStretch(cs, k);
    CoreMarked(ms, markersSeen, i);
    if i' :| 0 <= i' < |named| && named[i'].1 && named[i'].0.stage == out.stage {
      CoreMarked(ms, markersSeen, i');
    }
  }

  /** A merged stretch is listed if and only if it is as long as asked for, or of a core stage and would print. */
  lemma {:induction false} ListedIff(c: Cycle, start: int, out: Contribution)
    requires out in Merge(Stretches(NameAll(Timeline(c, start), c.markersSeen)))
    ensures out in Kept(c, start) <==>
              out.duration >= (if c.minContribution == 0 then 5_000_000 else c.minContribution)
              || (CoreStage(out.stage) && out.duration >= 500_000)
  {
    var ms := Timeline(c, start);
    var named := NameAll(ms, c.markersSeen);
    TimelineHoldsAnchor(c, start);
    NamesAreChained(ms, c.markersSeen);
    MergeJoins(Stretches(named), ms[0].at, ms[|ms| - 1].at);
    FilterKeepsChained(named, MinOf(c), Merge(Stretches(named)), ms[0].at, ms[|ms| - 1].at);
    CoreStages(ms, c.markersSeen, out);
  }

  // ---------------------------------------------------------------- the timeline

  predicate Increasing(ms: seq<Moment>) {
    forall i, j :: 0 <= i < j < |ms| ==> ms[i].at < ms[j].at
  }

  lemma {:induction false} SameWithoutLast(a: seq<Moment>, b: seq<Moment>, m: Moment)
    requires multiset(a + [m]) == multiset(b + [m])
    ensures multiset(a) == multiset(b)
  {
    assert multiset(a + [m]) - multiset{m} == multiset(a);
    assert multiset(b + [m]) - multiset{m} == multiset(b);
  }

  lemma {:induction false} PrefixSorted(a: seq<Moment>, b: seq<Moment>, n: nat)
    requires Sorted(a) && Increasing(b) && n <= |a| && n <= |b|
    ensures Sorted(a[..n]) && Increasing(b[..n])
  {
  }

  lemma {:induction false} SortedIs(a: seq<Moment>, b: seq<Moment>)
    requires Sorted(a) && Increasing(b) && multiset(a) == multiset(b)
    ensures a == b
    decreases |b|
  {
    assert |multiset(a)| == |a| && |multiset(b)| == |b|;
    if b != [] {
      var n, m := |b| - 1, b[|b| - 1];
      LatestIsLast(a, b);
      assert a == a[..n] + [m] && b == b[..n] + [m];
      SameWithoutLast(a[..n], b[..n], m);
      PrefixSorted(a, b, n);
      SortedIs(a[..n], b[..n]);
    }
  }

  lemma {:induction false} LatestIsLast(a: seq<Moment>, b: seq<Moment>)
    requires Sorted(a) && Increasing(b) && multiset(a) == multiset(b) && |a| == |b| > 0
    ensures a[|a| - 1] == b[|b| - 1]
  {
    var n := |b| - 1;
    assert a[n] in multiset(a) && b[n] in multiset(b);
    var k :| 0 <= k < |b| && b[k] == a[n];
    var l :| 0 <= l < |a| && a[l] == b[n];
    assert l < n ==> !Before(a[n], a[l]);
  }

  lemma {:induction false} ObservesAll(ms: seq<Moment>, start: int)
    requires forall i :: 0 <= i < |ms| ==> ms[i].at >= start
    ensures Observed(ms, start) == ms
  {
    if ms != [] {
      var n := |ms| - 1;
      ObservesAll(ms[..n], start);
      assert ms[..n] + [ms[n]] == ms;
    }
  }

  /** Half a millisecond or more from each moment to the next. */
  predicate Spaced(ms: seq<Moment>) {
    forall i :: 0 <= i < |ms| - 1 ==> ms[i + 1].at - ms[i].at >= 500_000
  }

  lemma {:induction false} SpacedIncreases(ms: seq<Moment>, i: nat, j: nat)
    requires Spaced(ms) && i < j < |ms|
    ensures ms[i].at < ms[j].at
  {
    if i < j - 1 {
      SpacedIncreases(ms, i, j - 1);
    }
    assert ms[j - 1 + 1].at - ms[j - 1].at >= 500_000;
  }

  /** ms is the anchor and, in the order of their times, what was recorded and derived, in whatever order. */
  ghost predicate Recorded(c: Cycle, start: int, ms: seq<Moment>, derived: seq<Moment>) {
    ms != [] && Spaced(ms)
    && ms[0] == Moment(start, if c.turnStart.Some? then Silence else Ready, "", false)
    && multiset(ms) == multiset{ms[0]} + multiset(c.moments) + multiset(derived)
  }

  lemma {:induction false} SortsInto(all: seq<Moment>, ms: seq<Moment>)
    requires Spaced(ms) && multiset(all) == multiset(ms)
    ensures Sort(all) == ms
  {
    forall i, j | 0 <= i < j < |ms| ensures ms[i].at < ms[j].at {
      SpacedIncreases(ms, i, j);
    }
    SortSorts(all);
    SortedIs(Sort(all), ms);
  }

  lemma {:induction false} ObservesRecorded(c: Cycle, start: int, ms: seq<Moment>, derived: seq<Moment>)
    requires Recorded(c, start, ms, derived)
    ensures Observed(c.moments, start) == c.moments
  {
    forall i | 0 <= i < |c.moments| ensures c.moments[i].at >= start {
      RecordedIn(c, start, ms, derived, c.moments[i]);
    }
    ObservesAll(c.moments, start);
  }

  lemma {:induction false} RecordedTimeline(c: Cycle, start: int, ms: seq<Moment>, derived: seq<Moment>)
    requires Recorded(c, start, ms, derived) && derived == Derived(c)
    ensures Timeline(c, start) == ms && Interval(c, start) == ms[|ms| - 1].at - start
  {
    ObservesRecorded(c, start, ms, derived);
    SortsInto([ms[0]] + c.moments + derived, ms);
    IntervalIs(c, start);
  }

  lemma {:induction false} RecordedIn(c: Cycle, start: int, ms: seq<Moment>, derived: seq<Moment>, m: Moment)
    requires Recorded(c, start, ms, derived) && m in c.moments
    ensures m in ms && m.at >= start
  {
    assert m in multiset(c.moments);
    assert m in multiset(ms);
    var k :| 0 <= k < |ms| && ms[k] == m;
    if k > 0 {
      SpacedIncreases(ms, 0, k);
    }
  }

  lemma {:induction false} SeenIn(c: Cycle, start: int, ms: seq<Moment>, derived: seq<Moment>, kind: Kind)
    requires Recorded(c, start, ms, derived) && |ms| > 1 && ms[|ms| - 1].kind == kind && !kind.Silence? && !kind.Ready?
    requires forall m :: m in derived ==> m.kind != kind
    ensures Seen(c.moments, kind)
  {
    var m := ms[|ms| - 1];
    assert m in multiset(ms);
    assert m !in multiset(derived) && m != ms[0];
    assert m in multiset(c.moments);
  }

  // ---------------------------------------------------------------- naming and merging, exactly

  ghost predicate AllNamed(ms: seq<Moment>, markersSeen: bool) {
    forall i :: 0 <= i < |ms| - 1 ==> ContributionFor(ms[i], ms[i + 1], markersSeen).Some?
  }

  lemma {:induction false} NameLast(ms: seq<Moment>, markersSeen: bool)
    requires |ms| > 1
    ensures var n := |ms| - 1; var r := ContributionFor(ms[n - 1], ms[n], markersSeen);
            NameAll(ms, markersSeen) == NameAll(ms[..n], markersSeen) + if r.Some? then [r.value] else []
  {
  }

  lemma {:induction false} NamesAre(ms: seq<Moment>, markersSeen: bool)
    requires ms != [] && AllNamed(ms, markersSeen)
    ensures var named := NameAll(ms, markersSeen);
            |named| == |ms| - 1 && forall i :: 0 <= i < |named| ==> Some(named[i]) == ContributionFor(ms[i], ms[i + 1], markersSeen)
  {
    if |ms| > 1 {
      var n := |ms| - 1;
      NamesAre(ms[..n], markersSeen);
      NameLast(ms, markersSeen);
      var before, named := NameAll(ms[..n], markersSeen), NameAll(ms, markersSeen);
      assert ContributionFor(ms[n - 1], ms[n - 1 + 1], markersSeen).Some?;
      forall i | 0 <= i < |named| ensures Some(named[i]) == ContributionFor(ms[i], ms[i + 1], markersSeen) {
        if i < n - 1 {
          assert named[i] == before[i] && ms[..n][i] == ms[i] && ms[..n][i + 1] == ms[i + 1];
        }
      }
    }
  }

  /** Across a gap that has no name. */
  lemma {:induction false} NamesSplit(a: seq<Moment>, b: seq<Moment>, markersSeen: bool)
    requires a != [] && b != [] && ContributionFor(a[|a| - 1], b[0], markersSeen) == None
    ensures NameAll(a + b, markersSeen) == NameAll(a, markersSeen) + NameAll(b, markersSeen)
    decreases |b|
  {
    var ms, n := a + b, |b| - 1;
    NameLast(ms, markersSeen);
    assert ms[..|ms| - 1] == a + b[..n] && ms[|ms| - 1] == b[n];
    if n == 0 {
      assert a + b[..n] == a && ms[|ms| - 2] == a[|a| - 1];
    } else {
      assert ms[|ms| - 2] == b[n - 1];
      NameLast(b, markersSeen);
      NamesSplit(a, b[..n], markersSeen);
    }
  }

  /** The stretches k - 1 and k are one, and no others. */
  predicate JoinedAt(cs: seq<Contribution>, k: nat) {
    0 < k < |cs| && Joins(cs[k - 1], cs[k]) && forall i :: 0 < i < |cs| && i != k ==> !Joins(cs[i - 1], cs[i])
  }

  function Joined(cs: seq<Contribution>, k: nat): seq<Contribution>
    requires 0 < k < |cs|
  {
    cs[..k - 1] + [cs[k - 1].(duration := End(cs[k]) - cs[k - 1].start)] + cs[k + 1..]
  }

  predicate Unjoined(cs: seq<Contribution>) {
    forall i :: 0 < i < |cs| ==> !Joins(cs[i - 1], cs[i])
  }

  lemma {:induction false} NothingMerged(cs: seq<Contribution>)
    requires Unjoined(cs)
    ensures Merge(cs) == cs
  {
    if cs != [] {
      NothingMerged(cs[..|cs| - 1]);
    }
  }

  lemma {:induction false} MergeLast(cs: seq<Contribution>)
    requires cs != []
    ensures Merge(cs) == MergeOnto(Merge(cs[..|cs| - 1]), cs[|cs| - 1])
  {
  }

  /** Where the joined stretch is the last so far, it ends as the later of the two does. */
  lemma {:induction false} NextStaysApart(cs: seq<Contribution>, k: nat)
    requires JoinedAt(cs, k) && k < |cs| - 1
    ensures var n := |cs| - 1;
            MergeOnto(Joined(cs[..n], k), cs[n]) == Joined(cs[..n], k) + [cs[n]] == Joined(cs, k) && JoinedAt(cs[..n], k)
  {
    var n := |cs| - 1;
    var earlier := Joined(cs[..n], k);
    assert !Joins(cs[n - 1], cs[n]);
    assert if k == n - 1 then earlier[|earlier| - 1] == cs[k - 1].(duration := End(cs[k]) - cs[k - 1].start)
           else earlier[|earlier| - 1] == cs[n - 1];
  }

  lemma {:induction false} LastTwoJoin(cs: seq<Contribution>, k: nat)
    requires JoinedAt(cs, k) && k == |cs| - 1
    ensures MergeOnto(cs[..k], cs[k]) == Joined(cs, k) && Unjoined(cs[..k])
  {
    var both := cs[k - 1].(duration := End(cs[k]) - cs[k - 1].start);
    assert cs[..k][k - 1 := both] == cs[..k - 1] + [both] + cs[k + 1..];
  }

  lemma {:induction false} MergedAt(cs: seq<Contribution>, k: nat)
    requires JoinedAt(cs, k)
    ensures Merge(cs) == Joined(cs, k)
    decreases |cs|
  {
    var n := |cs| - 1;
    MergeLast(cs);
    if k == n {
      LastTwoJoin(cs, k);
      NothingMerged(cs[..n]);
    } else {
      NextStaysApart(cs, k);
      MergedAt(cs[..n], k);
    }
  }

  lemma {:induction false} AllKept(named: seq<(Contribution, bool)>, min: int, cs: seq<Contribution>)
    requires forall i :: 0 <= i < |cs| ==> Keeps(named, min, cs[i])
    ensures Filter(named, min, cs) == cs
  {
    if cs != [] {
      AllKept(named, min, cs[..|cs| - 1]);
    }
  }

  lemma {:induction false} TotalAppends(a: seq<Contribution>, b: seq<Contribution>)
    ensures Total(a + b) == Total(a) + Total(b)
  {
    if b == [] {
      assert a + b == a;
    } else {
      var n := |b| - 1;
      assert (a + b)[..|a + b| - 1] == a + b[..n];
      TotalAppends(a, b[..n]);
    }
  }

  lemma {:induction false} TotalOne(c: Contribution)
    ensures Total([c]) == c.duration
  {
    OneMerged([c]);
  }

  lemma {:induction false} TotalAround(a: seq<Contribution>, c: Contribution, b: seq<Contribution>)
    ensures Total(a + [c] + b) == Total(a) + c.duration + Total(b)
  {
    TotalAppends(a + [c], b);
    TotalAppends(a, [c]);
    TotalOne(c);
  }

  lemma {:induction false} TotalJoined(cs: seq<Contribution>, k: nat)
    requires 0 < k < |cs| && End(cs[k - 1]) == cs[k].start
    ensures Total(Joined(cs, k)) == Total(cs)
  {
    var a, b := cs[..k - 1], cs[k + 1..];
    TotalAround(a, cs[k - 1].(duration := End(cs[k]) - cs[k - 1].start), b);
    assert cs[k..] == [cs[k]] + b;
    TotalAppends([cs[k]], b);
    TotalOne(cs[k]);
    assert cs == a + [cs[k - 1]] + cs[k..];
    TotalAround(a, cs[k - 1], cs[k..]);
  }

  lemma {:induction false} Telescopes(ms: seq<Moment>, markersSeen: bool)
    requires ms != [] && AllNamed(ms, markersSeen)
    ensures Total(Stretches(NameAll(ms, markersSeen))) == ms[|ms| - 1].at - ms[0].at
  {
    var n := |ms| - 1;
    if n > 0 {
      Telescopes(ms[..n], markersSeen);
      var before := NameAll(ms[..n], markersSeen);
      var c := ContributionFor(ms[n - 1], ms[n], markersSeen).value;
      assert Stretches(before + [c]) == Stretches(before) + [c.0];
      TotalAppends(Stretches(before), [c.0]);
      OneMerged([c.0]);
    }
  }

  /** Every named stretch is long enough for its stage. */
  predicate LongEnough(named: seq<(Contribution, bool)>, min: int) {
    forall i :: 0 <= i < |named| ==> named[i].0.duration >= if named[i].1 then 500_000 else min
  }

  lemma {:induction false} JoinedIsKept(named: seq<(Contribution, bool)>, min: int, k: nat)
    requires JoinedAt(Stretches(named), k) && End(named[k - 1].0) == named[k].0.start && named[k].0.duration > 0
    requires LongEnough(named, min)
    ensures KeptOf(named, min) == Joined(Stretches(named), k)
  {
    var cs := Stretches(named);
    MergedAt(cs, k);
    var out := Joined(cs, k);
    forall i | 0 <= i < |out| ensures Keeps(named, min, out[i]) {
      var j := if i < k then i else i + 1;
      assert out[i].stage == named[j].0.stage && out[i].duration >= named[j].0.duration;
      assert named[j].1 ==> IsCore(named, out[i].stage);
    }
    AllKept(named, min, out);
  }

  // ---------------------------------------------------------------- what pairs of moments say

  /** What the stretch from one moment to the next is called, whose time it is, and whether its stage is a core one. */
  datatype Row = Row(stage: Stage, owner: Owner, ownerKind: OwnerKind, core: bool)

  predicate Says(a: Moment, b: Moment, markersSeen: bool, r: Row) {
    ContributionFor(a, b, markersSeen) == Some((Contribution(r.stage, r.owner, r.ownerKind, a.at, b.at - a.at), r.core))
  }

  predicate Pair(a: Moment, b: Moment, opener: Kind, closer: Kind) {
    a.kind == opener && b.kind == closer && a.at < b.at
  }

  /** What the user's part of a turn says. */
  lemma {:induction false} UserPairs(a: Moment, b: Moment, seen: bool)
    ensures Pair(a, b, Silence, VadStop) ==> Says(a, b, seen, Row(EndpointingWait, VadStopSecs, Setting, true))
    ensures Pair(a, b, VadStop, Transcript) ==> Says(a, b, seen, Row(Transcription, By(b.source), Service, true))
    ensures Pair(a, b, Transcript, LlmRequest) ==> Says(a, b, seen, Row(TurnDetection, TurnStrategies, Setting, true))
    ensures Pair(a, b, Ready, LlmRequest) ==> Says(a, b, seen, Row(FirstRequest, BotCode, BotKind, true))
  {
  }

  /** What the LLM's part says. */
  lemma {:induction false} LlmPairs(a: Moment, b: Moment, seen: bool)
    ensures Pair(a, b, LlmRequest, LlmChunk) ==> Says(a, b, seen, Row(LlmInference, By(a.source), Service, true))
    ensures Pair(a, b, LlmChunk, FirstText) && !seen ==> Says(a, b, seen, Row(LlmInference, By(a.source), Service, true))
    ensures Pair(a, b, LlmChunk, FirstText) && seen ==> Says(a, b, seen, Row(AwaitingSpeakableText, By(b.source), Service, false))
    ensures Pair(a, b, LlmChunk, HandlersStart) ==> Says(a, b, seen, Row(LlmToolCall, By(a.source), Service, false))
    ensures Pair(a, b, HandlersStart, HandlersEnd) ==> Says(a, b, seen, Row(FunctionHandler, By(b.source), Service, false))
  {
  }

  /** What a marker says. */
  lemma {:induction false} MarkerPairs(a: Moment, b: Moment, seen: bool)
    ensures Pair(a, b, LlmChunk, MarkerComplete) || Pair(a, b, LlmChunk, MarkerIncomplete) || Pair(a, b, MarkerComplete, FirstText) ==>
              Says(a, b, seen, Row(TurnCompletion, FilterIncompleteTurns, Setting, false))
    ensures Pair(a, b, MarkerIncomplete, LlmRequest) ==> Says(a, b, seen, Row(WaitingForUser, FilterIncompleteTurns, Setting, false))
  {
  }

  /** What the speech says. */
  lemma {:induction false} SpeechPairs(a: Moment, b: Moment, seen: bool)
    ensures Pair(a, b, FirstText, Sentence) ==> Says(a, b, seen, Row(SentenceAggregation, TextAggregator, Setting, false))
    ensures Pair(a, b, Sentence, FirstAudio) || Pair(a, b, FirstText, FirstAudio) ==>
              Says(a, b, seen, Row(SpeechSynthesis, By(b.source), Service, true))
    ensures Pair(a, b, FirstAudio, BotSpeaking) ==> Says(a, b, seen, Row(OutputTransport, By(b.source), Service, false))
  {
  }

  /** No other pair says anything: that time is the pipeline's. */
  lemma {:induction false} OtherPairsSayNothing(a: Moment, b: Moment, seen: bool)
    requires !(a.kind.Silence? && b.kind.VadStop?) && !(a.kind.Ready? && b.kind.LlmRequest?)
    requires !(a.kind.VadStop? && b.kind.Transcript?) && !(a.kind.Transcript? && b.kind.LlmRequest?)
    requires !(a.kind.LlmRequest? && b.kind.LlmChunk?) && !(a.kind.MarkerIncomplete? && b.kind.LlmRequest?)
    requires !(a.kind.LlmChunk? && (b.kind.MarkerComplete? || b.kind.MarkerIncomplete? || b.kind.HandlersStart? || b.kind.FirstText?))
    requires !(a.kind.MarkerComplete? && b.kind.FirstText?) && !(a.kind.HandlersStart? && b.kind.HandlersEnd?)
    requires !(a.kind.FirstText? && (b.kind.Sentence? || b.kind.FirstAudio?)) && !(a.kind.Sentence? && b.kind.FirstAudio?)
    requires !(a.kind.FirstAudio? && b.kind.BotSpeaking?)
    ensures ContributionFor(a, b, seen) == None
  {
  }

  /** What the kept stretches leave over of the interval is listed last, as pipeline time, if and only if it would print. */
  lemma {:induction false} PipelineLineIff(c: Cycle, start: int)
    requires Anchor(c) == Some(start) && Seen(c.moments, BotSpeaking)
    ensures var rest := Interval(c, start) - Total(Kept(c, start));
            Build(c) == Kept(c, start) + if rest >= 500_000 then [Contribution(Pipeline, Jargo, PipelineKind, start, rest)] else []
  {
    BuildIs(c, start);
  }

  /** A cycle nobody spoke in, or that has nothing to be measured from, is not reported. */
  lemma {:induction false} NotReportedIff(c: Cycle)
    ensures c.turnStart == None && c.clientConnected == None && c.pipelineStarted == None ==> Build(c) == []
    ensures !(exists i :: 0 <= i < |c.moments| && c.moments[i].kind == BotSpeaking) ==> Build(c) == []
  {
  }

  // ---------------------------------------------------------------- cycles, exactly

  predicate HasKinds(ms: seq<Moment>, kinds: seq<Kind>) {
    |ms| == |kinds| && forall i :: 0 <= i < |ms| ==> ms[i].kind == kinds[i]
  }

  /** ms is the timeline of a cycle that is reported. */
  predicate Reported(c: Cycle, start: int, ms: seq<Moment>) {
    ms != [] && ms[0].at == start && Timeline(c, start) == ms && Interval(c, start) == ms[|ms| - 1].at - start
    && Anchor(c) == Some(start) && Seen(c.moments, BotSpeaking)
  }

  lemma {:induction false} CycleIs(c: Cycle, start: int, ms: seq<Moment>, named: seq<(Contribution, bool)>, kept: seq<Contribution>)
    requires Reported(c, start, ms)
    requires named == NameAll(ms, c.markersSeen) && KeptOf(named, MinOf(c)) == kept
    ensures Build(c) == WithPipeline(kept, start, ms[|ms| - 1].at - start)
  {
    BuildFrom(c, start, ms, named, kept);
  }

  lemma {:induction false} NothingLeft(kept: seq<Contribution>, start: int, interval: int)
    requires Total(kept) == interval
    ensures WithPipeline(kept, start, interval) == kept
  {
  }

  /** Where the kept stretches take up the whole cycle, they are what is listed. */
  lemma {:induction false} CycleListsKept(c: Cycle, start: int, ms: seq<Moment>, named: seq<(Contribution, bool)>, kept: seq<Contribution>)
    requires Reported(c, start, ms) && named == NameAll(ms, c.markersSeen) && KeptOf(named, MinOf(c)) == kept
    requires Total(kept) == ms[|ms| - 1].at - ms[0].at
    ensures Build(c) == kept
  {
    CycleIs(c, start, ms, named, kept);
    NothingLeft(kept, start, ms[|ms| - 1].at - start);
  }

  // ---------------------------------------------------------------- lines

  /** A line that runs from one moment of the cycle to another. */
  datatype Line = Line(stage: Stage, owner: Owner, ownerKind: OwnerKind, from: nat, to: nat)

  predicate Lists(cs: seq<Contribution>, ms: seq<Moment>, lines: seq<Line>) {
    |cs| == |lines| && forall i :: 0 <= i < |lines| ==> IsLine(cs[i], ms, lines[i])
  }

  predicate IsLine(c: Contribution, ms: seq<Moment>, l: Line) {
    l.from < l.to < |ms|
    && c == Contribution(l.stage, l.owner, l.ownerKind, ms[l.from].at, ms[l.to].at - ms[l.from].at)
  }

  /** The rows name the stretches between neighbouring moments, each of them long enough to be listed. */
  predicate Reads(ms: seq<Moment>, markersSeen: bool, rows: seq<Row>, min: int) {
    |rows| + 1 == |ms|
    && forall i :: 0 <= i < |rows| ==>
         Says(ms[i], ms[i + 1], markersSeen, rows[i]) && ms[i + 1].at - ms[i].at >= if rows[i].core then 500_000 else min
  }

  predicate SameRow(a: Row, b: Row) {
    a.stage == b.stage && a.owner == b.owner
  }

  /** The rows k - 1 and k say the same thing, and no other neighbours do. */
  predicate OneRepeat(rows: seq<Row>, k: nat) {
    0 < k < |rows| && SameRow(rows[k - 1], rows[k]) && forall i :: 0 < i < |rows| && i != k ==> !SameRow(rows[i - 1], rows[i])
  }

  /** The lines of such rows: the i-th runs from the i-th moment to the next, the repeated one over both. */
  function LinesOf(rows: seq<Row>, k: nat): seq<Line>
    requires 0 < k < |rows|
  {
    seq(|rows| - 1, i requires 0 <= i < |rows| - 1 =>
      var r := if i < k then rows[i] else rows[i + 1];
      Line(r.stage, r.owner, r.ownerKind, if i < k then i else i + 1, if i < k - 1 then i + 1 else i + 2))
  }

  /** The named stretches, with their core marks, are those of the rows. */
  predicate RowsAre(named: seq<(Contribution, bool)>, ms: seq<Moment>, rows: seq<Row>) {
    |named| == |rows| && |ms| == |rows| + 1 && forall i :: 0 <= i < |named| ==> RowIs(named[i], ms[i], ms[i + 1], rows[i])
  }

  predicate RowIs(n: (Contribution, bool), a: Moment, b: Moment, r: Row) {
    n.0 == Contribution(r.stage, r.owner, r.ownerKind, a.at, b.at - a.at) && n.1 == r.core
  }

  lemma {:induction false} RowsNamed(ms: seq<Moment>, markersSeen: bool, rows: seq<Row>, min: int, named: seq<(Contribution, bool)>)
    requires Reads(ms, markersSeen, rows, min) && named == NameAll(ms, markersSeen)
    ensures AllNamed(ms, markersSeen) && RowsAre(named, ms, rows)
  {
    forall i | 0 <= i < |ms| - 1 ensures ContributionFor(ms[i], ms[i + 1], markersSeen).Some? {
      assert Says(ms[i], ms[i + 1], markersSeen, rows[i]);
    }
    NamesAre(ms, markersSeen);
    forall i | 0 <= i < |named| ensures RowIs(named[i], ms[i], ms[i + 1], rows[i]) {
      assert Says(ms[i], ms[i + 1], markersSeen, rows[i]);
      assert Some(named[i]) == ContributionFor(ms[i], ms[i + 1], markersSeen);
    }
  }

  lemma {:induction false} RowsJoinOnce(named: seq<(Contribution, bool)>, ms: seq<Moment>, rows: seq<Row>, k: nat)
    requires RowsAre(named, ms, rows) && OneRepeat(rows, k)
    ensures JoinedAt(Stretches(named), k)
  {
    var cs := Stretches(named);
    assert RowIs(named[k - 1], ms[k - 1], ms[k], rows[k - 1]);
    assert RowIs(named[k], ms[k], ms[k + 1], rows[k]);
    forall i | 0 < i < |cs| && i != k ensures !Joins(cs[i - 1], cs[i]) {
      assert RowIs(named[i - 1], ms[i - 1], ms[i], rows[i - 1]);
      assert RowIs(named[i], ms[i], ms[i + 1], rows[i]);
      assert !SameRow(rows[i - 1], rows[i]);
    }
  }

  lemma {:induction false} RowsLongEnough(ms: seq<Moment>, seen: bool, rows: seq<Row>, min: int, named: seq<(Contribution, bool)>)
    requires Reads(ms, seen, rows, min) && RowsAre(named, ms, rows)
    ensures LongEnough(named, min)
  {
    forall i | 0 <= i < |named| ensures named[i].0.duration >= if named[i].1 then 500_000 else min {
      assert RowIs(named[i], ms[i], ms[i + 1], rows[i]);
    }
  }

  /** The i-th of the joined stretches. */
  lemma {:induction false} JoinedIs(cs: seq<Contribution>, k: nat, i: nat)
    requires 0 < k < |cs| && i < |cs| - 1
    ensures |Joined(cs, k)| == |cs| - 1
    ensures Joined(cs, k)[i] == if i < k - 1 then cs[i] else if i == k - 1 then cs[i].(duration := End(cs[k]) - cs[i].start) else cs[i + 1]
  {
  }

  lemma {:induction false} LineBefore(named: seq<(Contribution, bool)>, ms: seq<Moment>, rows: seq<Row>, k: nat, i: nat)
    requires RowsAre(named, ms, rows) && i < k - 1 && k < |rows| && Spaced(ms)
    ensures IsLine(Joined(Stretches(named), k)[i], ms, LinesOf(rows, k)[i])
  {
    JoinedIs(Stretches(named), k, i);
    SpacedIncreases(ms, i, i + 1);
    assert RowIs(named[i], ms[i], ms[i + 1], rows[i]);
  }

  lemma {:induction false} LineAcross(named: seq<(Contribution, bool)>, ms: seq<Moment>, rows: seq<Row>, k: nat, i: nat)
    requires RowsAre(named, ms, rows) && i == k - 1 && k < |rows| && Spaced(ms)
    ensures IsLine(Joined(Stretches(named), k)[i], ms, LinesOf(rows, k)[i])
  {
    JoinedIs(Stretches(named), k, i);
    SpacedIncreases(ms, i, k + 1);
    assert RowIs(named[i], ms[i], ms[k], rows[i]);
    assert RowIs(named[k], ms[k], ms[k + 1], rows[k]);
  }

  lemma {:induction false} LineBehind(named: seq<(Contribution, bool)>, ms: seq<Moment>, rows: seq<Row>, k: nat, i: nat)
    requires RowsAre(named, ms, rows) && 0 < k <= i < |rows| - 1 && Spaced(ms)
    ensures IsLine(Joined(Stretches(named), k)[i], ms, LinesOf(rows, k)[i])
  {
    JoinedIs(Stretches(named), k, i);
    SpacedIncreases(ms, i + 1, i + 2);
    assert RowIs(named[i + 1], ms[i + 1], ms[i + 2], rows[i + 1]);
  }

  lemma {:induction false} RowsListed(named: seq<(Contribution, bool)>, ms: seq<Moment>, rows: seq<Row>, k: nat)
    requires RowsAre(named, ms, rows) && 0 < k < |rows| && Spaced(ms)
    ensures Lists(Joined(Stretches(named), k), ms, LinesOf(rows, k))
  {
    var cs, lines := Joined(Stretches(named), k), LinesOf(rows, k);
    assert |cs| == |lines|;
    forall i | 0 <= i < |lines| ensures IsLine(cs[i], ms, lines[i]) {
      if i < k - 1 {
        LineBefore(named, ms, rows, k, i);
      } else if i == k - 1 {
        LineAcross(named, ms, rows, k, i);
      } else {
        LineBehind(named, ms, rows, k, i);
      }
    }
  }

  lemma {:induction false} JoinedKeepsTime(ms: seq<Moment>, seen: bool, named: seq<(Contribution, bool)>, k: nat, min: int)
    requires ms != [] && AllNamed(ms, seen) && named == NameAll(ms, seen) && JoinedAt(Stretches(named), k) && LongEnough(named, min)
    ensures KeptOf(named, min) == Joined(Stretches(named), k)
    ensures Total(Joined(Stretches(named), k)) == ms[|ms| - 1].at - ms[0].at
  {
    NamesMeet(ms, seen, k);
    JoinedIsKept(named, min, k);
    TotalJoined(Stretches(named), k);
    Telescopes(ms, seen);
  }

  lemma {:induction false} NamesMeet(ms: seq<Moment>, markersSeen: bool, k: nat)
    requires ms != [] && AllNamed(ms, markersSeen) && 0 < k < |NameAll(ms, markersSeen)|
    ensures var named := NameAll(ms, markersSeen);
            |named| == |ms| - 1 && End(named[k - 1].0) == named[k].0.start && named[k].0.duration > 0
  {
    NamesAre(ms, markersSeen);
    var named := NameAll(ms, markersSeen);
    assert Some(named[k - 1]) == ContributionFor(ms[k - 1], ms[k], markersSeen);
    assert Some(named[k]) == ContributionFor(ms[k], ms[k + 1], markersSeen);
  }

  lemma {:induction false} RowsKept(ms: seq<Moment>, seen: bool, rows: seq<Row>, min: int, named: seq<(Contribution, bool)>, k: nat)
    requires Reads(ms, seen, rows, min) && named == NameAll(ms, seen) && OneRepeat(rows, k) && Spaced(ms)
    ensures 0 < k < |Stretches(named)| && KeptOf(named, min) == Joined(Stretches(named), k)
    ensures Total(Joined(Stretches(named), k)) == ms[|ms| - 1].at - ms[0].at
    ensures Lists(Joined(Stretches(named), k), ms, LinesOf(rows, k))
  {
    RowsNamed(ms, seen, rows, min, named);
    RowsJoinOnce(named, ms, rows, k);
    RowsLongEnough(ms, seen, rows, min, named);
    RowsListed(named, ms, rows, k);
    JoinedKeepsTime(ms, seen, named, k, min);
  }

  /** A cycle whose neighbouring moments all have names, two of which say the same: its lines, with no time left over. */
  lemma {:induction false} CycleLists(c: Cycle, start: int, ms: seq<Moment>, rows: seq<Row>, k: nat)
    requires Reported(c, start, ms) && Reads(ms, c.markersSeen, rows, MinOf(c)) && OneRepeat(rows, k) && Spaced(ms)
    ensures Lists(Build(c), ms, LinesOf(rows, k))
  {
    var named := NameAll(ms, c.markersSeen);
    RowsKept(ms, c.markersSeen, rows, MinOf(c), named, k);
    var kept := Joined(Stretches(named), k);
    CycleListsKept(c, start, ms, named, kept);
  }

  /** No neighbours say the same thing. */
  predicate NoRepeat(rows: seq<Row>) {
    forall i :: 0 < i < |rows| ==> !SameRow(rows[i - 1], rows[i])
  }

  function PlainLines(rows: seq<Row>): seq<Line> {
    seq(|rows|, i requires 0 <= i < |rows| => Line(rows[i].stage, rows[i].owner, rows[i].ownerKind, i, i + 1))
  }

  lemma {:induction false} RowsNeverJoin(named: seq<(Contribution, bool)>, ms: seq<Moment>, rows: seq<Row>)
    requires RowsAre(named, ms, rows) && NoRepeat(rows)
    ensures Unjoined(Stretches(named))
  {
    var cs := Stretches(named);
    forall i | 0 < i < |cs| ensures !Joins(cs[i - 1], cs[i]) {
      assert RowIs(named[i - 1], ms[i - 1], ms[i], rows[i - 1]);
      assert RowIs(named[i], ms[i], ms[i + 1], rows[i]);
      assert !SameRow(rows[i - 1], rows[i]);
    }
  }

  lemma {:induction false} RowsListedPlainly(named: seq<(Contribution, bool)>, ms: seq<Moment>, rows: seq<Row>)
    requires RowsAre(named, ms, rows)
    ensures Lists(Stretches(named), ms, PlainLines(rows))
  {
    forall i | 0 <= i < |named| ensures IsLine(Stretches(named)[i], ms, PlainLines(rows)[i]) {
      assert RowIs(named[i], ms[i], ms[i + 1], rows[i]);
    }
  }

  lemma {:induction false} UnjoinedIsKept(named: seq<(Contribution, bool)>, min: int)
    requires Unjoined(Stretches(named)) && LongEnough(named, min)
    ensures KeptOf(named, min) == Stretches(named)
  {
    var cs := Stretches(named);
    NothingMerged(cs);
    forall i | 0 <= i < |cs| ensures Keeps(named, min, cs[i]) {
      assert named[i].1 ==> IsCore(named, cs[i].stage);
    }
    AllKept(named, min, cs);
  }

  /** A cycle whose neighbouring moments all have names, none like the one before it: a line for each. */
  lemma {:induction false} CycleListsAll(c: Cycle, start: int, ms: seq<Moment>, rows: seq<Row>)
    requires Reported(c, start, ms) && Reads(ms, c.markersSeen, rows, MinOf(c)) && NoRepeat(rows)
    ensures Lists(Build(c), ms, PlainLines(rows))
  {
    var named, min := NameAll(ms, c.markersSeen), MinOf(c);
    RowsNamed(ms, c.markersSeen, rows, min, named);
    RowsNeverJoin(named, ms, rows);
    RowsLongEnough(ms, c.markersSeen, rows, min, named);
    RowsListedPlainly(named, ms, rows);
    UnjoinedIsKept(named, min);
    Telescopes(ms, c.markersSeen);
    CycleListsKept(c, start, ms, named, Stretches(named));
  }

  // ---------------------------------------------------------------- a stretch without a name

  lemma {:induction false} JoinsBehind(a: seq<Contribution>, b: seq<Contribution>, k: nat)
    requires Unjoined(a) && JoinedAt(b, k) && (a != [] ==> !Joins(a[|a| - 1], b[0]))
    ensures JoinedAt(a + b, |a| + k) && Joined(a + b, |a| + k) == a + Joined(b, k)
  {
    var cs := a + b;
    forall i | 0 < i < |cs| && i != |a| + k ensures !Joins(cs[i - 1], cs[i]) {
      assert i > |a| ==> !Joins(b[i - |a| - 1], b[i - |a|]);
    }
  }

  lemma {:induction false} StretchesAppend(a: seq<(Contribution, bool)>, b: seq<(Contribution, bool)>)
    ensures Stretches(a + b) == Stretches(a) + Stretches(b)
  {
  }

  lemma {:induction false} LongTogether(a: seq<(Contribution, bool)>, b: seq<(Contribution, bool)>, min: int)
    requires LongEnough(a, min) && LongEnough(b, min)
    ensures LongEnough(a + b, min)
  {
  }

  lemma {:induction false} JoinsAroundGap(a: seq<(Contribution, bool)>, b: seq<(Contribution, bool)>, k: nat)
    requires Unjoined(Stretches(a)) && JoinedAt(Stretches(b), k) && (a != [] ==> !Joins(a[|a| - 1].0, b[0].0))
    ensures JoinedAt(Stretches(a + b), |a| + k)
    ensures Joined(Stretches(a + b), |a| + k) == Stretches(a) + Joined(Stretches(b), k)
  {
    StretchesAppend(a, b);
    JoinsBehind(Stretches(a), Stretches(b), k);
  }

  lemma {:induction false} KeptAroundGap(a: seq<(Contribution, bool)>, b: seq<(Contribution, bool)>, min: int, k: nat)
    requires Unjoined(Stretches(a)) && JoinedAt(Stretches(b), k) && LongEnough(a, min) && LongEnough(b, min)
    requires a != [] ==> !Joins(a[|a| - 1].0, b[0].0)
    requires End(b[k - 1].0) == b[k].0.start && b[k].0.duration > 0
    ensures KeptOf(a + b, min) == Stretches(a) + Joined(Stretches(b), k)
  {
    var ab, j := a + b, |a| + k;
    LongTogether(a, b, min);
    JoinsAroundGap(a, b, k);
    assert ab[j - 1] == b[k - 1] && ab[j] == b[k];
    JoinedIsKept(ab, min, j);
  }

  lemma {:induction false} TotalAroundGap(a: seq<Contribution>, b: seq<Contribution>, k: nat)
    requires 0 < k < |b| && End(b[k - 1]) == b[k].start
    ensures Total(a + Joined(b, k)) == Total(a) + Total(b)
  {
    TotalJoined(b, k);
    TotalAppends(a, Joined(b, k));
  }

  /** The moments up to a gap without a name, and those behind it. */
  lemma {:induction false} AroundGap(before: seq<Moment>, after: seq<Moment>, seen: bool, rowsA: seq<Row>, rowsB: seq<Row>, min: int, k: nat)
    returns (a: seq<(Contribution, bool)>, b: seq<(Contribution, bool)>)
    requires Reads(before, seen, rowsA, min) && Reads(after, seen, rowsB, min) && Spaced(after)
    requires NoRepeat(rowsA) && OneRepeat(rowsB, k) && (rowsA != [] ==> !SameRow(rowsA[|rowsA| - 1], rowsB[0]))
    requires ContributionFor(before[|before| - 1], after[0], seen) == None
    ensures NameAll(before + after, seen) == a + b && 0 < k < |Stretches(b)|
    ensures KeptOf(a + b, min) == Stretches(a) + Joined(Stretches(b), k)
    ensures Total(Stretches(a) + Joined(Stretches(b), k)) == before[|before| - 1].at - before[0].at + after[|after| - 1].at - after[0].at
    ensures Lists(Stretches(a), before, PlainLines(rowsA)) && Lists(Joined(Stretches(b), k), after, LinesOf(rowsB, k))
  {
    a, b := NameAll(before, seen), NameAll(after, seen);
    NamesSplit(before, after, seen);
    RowsNamed(before, seen, rowsA, min, a);
    RowsNamed(after, seen, rowsB, min, b);
    RowsNeverJoin(a, before, rowsA);
    RowsJoinOnce(b, after, rowsB, k);
    RowsLongEnough(before, seen, rowsA, min, a);
    RowsLongEnough(after, seen, rowsB, min, b);
    RowsListedPlainly(a, before, rowsA);
    RowsListed(b, after, rowsB, k);
    NamesMeet(after, seen, k);
    RowsApart(a, b, before, after, rowsA, rowsB);
    KeptAroundGap(a, b, min, k);
    TotalAroundGap(Stretches(a), Stretches(b), k);
    Telescopes(before, seen);
    Telescopes(after, seen);
  }

  lemma {:induction false} RowsApart(a: seq<(Contribution, bool)>, b: seq<(Contribution, bool)>, before: seq<Moment>, after: seq<Moment>,
                  rowsA: seq<Row>, rowsB: seq<Row>)
    requires RowsAre(a, before, rowsA) && RowsAre(b, after, rowsB) && rowsB != []
    requires rowsA != [] ==> !SameRow(rowsA[|rowsA| - 1], rowsB[0])
    ensures a != [] ==> !Joins(a[|a| - 1].0, b[0].0)
  {
    if a != [] {
      assert RowIs(a[|a| - 1], before[|a| - 1], before[|a|], rowsA[|a| - 1]);
      assert RowIs(b[0], after[0], after[1], rowsB[0]);
    }
  }

  lemma {:induction false} GapIsLeft(kept: seq<Contribution>, start: int, interval: int, gap: int)
    requires Total(kept) == interval - gap && gap >= 500_000
    ensures WithPipeline(kept, start, interval) == kept + [Contribution(Pipeline, Jargo, PipelineKind, start, gap)]
  {
  }

  /** What is left over of a cycle is its pipeline line. */
  lemma {:induction false} CycleLeaves(c: Cycle, start: int, ms: seq<Moment>, named: seq<(Contribution, bool)>, kept: seq<Contribution>, gap: int)
    requires Reported(c, start, ms) && named == NameAll(ms, c.markersSeen) && KeptOf(named, MinOf(c)) == kept
    requires Total(kept) == ms[|ms| - 1].at - start - gap && gap >= 500_000
    ensures Build(c) == kept + [Contribution(Pipeline, Jargo, PipelineKind, start, gap)]
  {
    CycleIs(c, start, ms, named, kept);
    GapIsLeft(kept, start, ms[|ms| - 1].at - start, gap);
  }

  // ---------------------------------------------------------------- an ordinary turn

  predicate NothingDerived(c: Cycle) {
    c.calls == [] && c.textAggregation == None
  }

  lemma {:induction false} QuietCycle(c: Cycle, start: int, ms: seq<Moment>)
    requires Recorded(c, start, ms, []) && NothingDerived(c) && |ms| > 1 && ms[|ms| - 1].kind.BotSpeaking?
    requires Anchor(c) == Some(start)
    ensures Reported(c, start, ms)
  {
    assert Derived(c) == [];
    SeenIn(c, start, ms, [], BotSpeaking);
    RecordedTimeline(c, start, ms, []);
  }

  predicate Long(ms: seq<Moment>, i: nat, min: int) {
    i + 1 < |ms| && ms[i + 1].at - ms[i].at >= min
  }

  function OrdinaryRows(ms: seq<Moment>): seq<Row>
    requires |ms| == 8
  {
    [Row(EndpointingWait, VadStopSecs, Setting, true), Row(Transcription, By(ms[2].source), Service, true),
     Row(TurnDetection, TurnStrategies, Setting, true), Row(LlmInference, By(ms[3].source), Service, true),
     Row(LlmInference, By(ms[4].source), Service, true), Row(SpeechSynthesis, By(ms[6].source), Service, true),
     Row(OutputTransport, By(ms[7].source), Service, false)]
  }

  lemma {:induction false} OrdinarySays(ms: seq<Moment>, i: nat)
    requires HasKinds(ms, [Silence, VadStop, Transcript, LlmRequest, LlmChunk, FirstText, FirstAudio, BotSpeaking])
    requires Spaced(ms) && i + 1 < |ms|
    ensures Says(ms[i], ms[i + 1], false, OrdinaryRows(ms)[i])
  {
    if i < 3 {
      UserPairs(ms[i], ms[i + 1], false);
    } else if i < 5 {
      LlmPairs(ms[i], ms[i + 1], false);
    } else {
      SpeechPairs(ms[i], ms[i + 1], false);
    }
  }

  lemma {:induction false} OrdinaryReads(ms: seq<Moment>, min: int)
    requires HasKinds(ms, [Silence, VadStop, Transcript, LlmRequest, LlmChunk, FirstText, FirstAudio, BotSpeaking])
    requires Spaced(ms) && Long(ms, 6, min)
    ensures Reads(ms, false, OrdinaryRows(ms), min)
  {
    forall i | 0 <= i < |ms| - 1 ensures Says(ms[i], ms[i + 1], false, OrdinaryRows(ms)[i]) {
      OrdinarySays(ms, i);
    }
  }

  lemma {:induction false} OrdinaryLines(ms: seq<Moment>)
    requires |ms| == 8 && ms[3].source == ms[4].source
    ensures OneRepeat(OrdinaryRows(ms), 4)
    ensures LinesOf(OrdinaryRows(ms), 4) == [
              Line(EndpointingWait, VadStopSecs, Setting, 0, 1),
              Line(Transcription, By(ms[2].source), Service, 1, 2),
              Line(TurnDetection, TurnStrategies, Setting, 2, 3),
              Line(LlmInference, By(ms[3].source), Service, 3, 5),
              Line(SpeechSynthesis, By(ms[6].source), Service, 5, 6),
              Line(OutputTransport, By(ms[7].source), Service, 6, 7)]
  {
  }

  /** An ordinary turn, the text being spoken as it comes: what is listed for it, and that it leaves nothing over. */
  lemma {:induction false} OrdinaryTurn(c: Cycle, start: int, ms: seq<Moment>)
    requires Recorded(c, start, ms, []) && NothingDerived(c) && c.turnStart == Some(start) && !c.markersSeen
    requires HasKinds(ms, [Silence, VadStop, Transcript, LlmRequest, LlmChunk, FirstText, FirstAudio, BotSpeaking])
    requires ms[3].source == ms[4].source && Long(ms, 6, MinOf(c))
    ensures Lists(Build(c), ms, [
              Line(EndpointingWait, VadStopSecs, Setting, 0, 1),
              Line(Transcription, By(ms[2].source), Service, 1, 2),
              Line(TurnDetection, TurnStrategies, Setting, 2, 3),
              Line(LlmInference, By(ms[3].source), Service, 3, 5),
              Line(SpeechSynthesis, By(ms[6].source), Service, 5, 6),
              Line(OutputTransport, By(ms[7].source), Service, 6, 7)])
  {
    QuietCycle(c, start, ms);
    OrdinaryReads(ms, MinOf(c));
    OrdinaryLines(ms);
    CycleLists(c, start, ms, OrdinaryRows(ms), 4);
  }

  // ---------------------------------------------------------------- other turns

  /** The same turn with another LLM behind the first: a line for each. */
  lemma {:induction false} TwoLlmsTurn(c: Cycle, start: int, ms: seq<Moment>)
    requires Recorded(c, start, ms, []) && NothingDerived(c) && c.turnStart == Some(start) && !c.markersSeen
    requires HasKinds(ms, [Silence, VadStop, Transcript, LlmRequest, LlmChunk, FirstText, FirstAudio, BotSpeaking])
    requires ms[3].source != ms[4].source && Long(ms, 6, MinOf(c))
    ensures Lists(Build(c), ms, [
              Line(EndpointingWait, VadStopSecs, Setting, 0, 1),
              Line(Transcription, By(ms[2].source), Service, 1, 2),
              Line(TurnDetection, TurnStrategies, Setting, 2, 3),
              Line(LlmInference, By(ms[3].source), Service, 3, 4),
              Line(LlmInference, By(ms[4].source), Service, 4, 5),
              Line(SpeechSynthesis, By(ms[6].source), Service, 5, 6),
              Line(OutputTransport, By(ms[7].source), Service, 6, 7)])
  {
    QuietCycle(c, start, ms);
    OrdinaryReads(ms, MinOf(c));
    TwoLlmsLines(ms);
    CycleListsAll(c, start, ms, OrdinaryRows(ms));
  }

  lemma {:induction false} TwoLlmsLines(ms: seq<Moment>)
    requires |ms| == 8 && ms[3].source != ms[4].source
    ensures NoRepeat(OrdinaryRows(ms))
    ensures PlainLines(OrdinaryRows(ms)) == [
              Line(EndpointingWait, VadStopSecs, Setting, 0, 1),
              Line(Transcription, By(ms[2].source), Service, 1, 2),
              Line(TurnDetection, TurnStrategies, Setting, 2, 3),
              Line(LlmInference, By(ms[3].source), Service, 3, 4),
              Line(LlmInference, By(ms[4].source), Service, 4, 5),
              Line(SpeechSynthesis, By(ms[6].source), Service, 5, 6),
              Line(OutputTransport, By(ms[7].source), Service, 6, 7)]
  {
  }

  function UnmarkedRows(ms: seq<Moment>): seq<Row>
    requires |ms| == 8
  {
    OrdinaryRows(ms)[4 := Row(AwaitingSpeakableText, By(ms[5].source), Service, false)]
  }

  lemma {:induction false} UnmarkedSays(ms: seq<Moment>, i: nat)
    requires HasKinds(ms, [Silence, VadStop, Transcript, LlmRequest, LlmChunk, FirstText, FirstAudio, BotSpeaking])
    requires Spaced(ms) && i + 1 < |ms|
    ensures Says(ms[i], ms[i + 1], true, UnmarkedRows(ms)[i])
  {
    if i < 3 {
      UserPairs(ms[i], ms[i + 1], true);
    } else if i < 5 {
      LlmPairs(ms[i], ms[i + 1], true);
    } else {
      SpeechPairs(ms[i], ms[i + 1], true);
    }
  }

  lemma {:induction false} UnmarkedReads(ms: seq<Moment>, min: int)
    requires HasKinds(ms, [Silence, VadStop, Transcript, LlmRequest, LlmChunk, FirstText, FirstAudio, BotSpeaking])
    requires Spaced(ms) && Long(ms, 4, min) && Long(ms, 6, min)
    ensures Reads(ms, true, UnmarkedRows(ms), min)
  {
    forall i | 0 <= i < |ms| - 1 ensures Says(ms[i], ms[i + 1], true, UnmarkedRows(ms)[i]) {
      UnmarkedSays(ms, i);
    }
  }

  lemma {:induction false} UnmarkedLines(ms: seq<Moment>)
    requires |ms| == 8
    ensures NoRepeat(UnmarkedRows(ms))
    ensures PlainLines(UnmarkedRows(ms)) == [
              Line(EndpointingWait, VadStopSecs, Setting, 0, 1),
              Line(Transcription, By(ms[2].source), Service, 1, 2),
              Line(TurnDetection, TurnStrategies, Setting, 2, 3),
              Line(LlmInference, By(ms[3].source), Service, 3, 4),
              Line(AwaitingSpeakableText, By(ms[5].source), Service, 4, 5),
              Line(SpeechSynthesis, By(ms[6].source), Service, 5, 6),
              Line(OutputTransport, By(ms[7].source), Service, 6, 7)]
  {
  }

  /** The same turn where turn completion is in use and the response carried no marker: the text is waited for. */
  lemma {:induction false} UnmarkedTurn(c: Cycle, start: int, ms: seq<Moment>)
    requires Recorded(c, start, ms, []) && NothingDerived(c) && c.turnStart == Some(start) && c.markersSeen
    requires HasKinds(ms, [Silence, VadStop, Transcript, LlmRequest, LlmChunk, FirstText, FirstAudio, BotSpeaking])
    requires Long(ms, 4, MinOf(c)) && Long(ms, 6, MinOf(c))
    ensures Lists(Build(c), ms, [
              Line(EndpointingWait, VadStopSecs, Setting, 0, 1),
              Line(Transcription, By(ms[2].source), Service, 1, 2),
              Line(TurnDetection, TurnStrategies, Setting, 2, 3),
              Line(LlmInference, By(ms[3].source), Service, 3, 4),
              Line(AwaitingSpeakableText, By(ms[5].source), Service, 4, 5),
              Line(SpeechSynthesis, By(ms[6].source), Service, 5, 6),
              Line(OutputTransport, By(ms[7].source), Service, 6, 7)])
  {
    QuietCycle(c, start, ms);
    UnmarkedReads(ms, MinOf(c));
    UnmarkedLines(ms);
    CycleListsAll(c, start, ms, UnmarkedRows(ms));
  }

  function MarkerRows(ms: seq<Moment>): seq<Row>
    requires |ms| == 9
  {
    [Row(EndpointingWait, VadStopSecs, Setting, true), Row(Transcription, By(ms[2].source), Service, true),
     Row(TurnDetection, TurnStrategies, Setting, true), Row(LlmInference, By(ms[3].source), Service, true),
     Row(TurnCompletion, FilterIncompleteTurns, Setting, false), Row(TurnCompletion, FilterIncompleteTurns, Setting, false),
     Row(SpeechSynthesis, By(ms[7].source), Service, true), Row(OutputTransport, By(ms[8].source), Service, false)]
  }

  lemma {:induction false} MarkerSays(ms: seq<Moment>, seen: bool, i: nat)
    requires HasKinds(ms, [Silence, VadStop, Transcript, LlmRequest, LlmChunk, MarkerComplete, FirstText, FirstAudio, BotSpeaking])
    requires Spaced(ms) && i + 1 < |ms|
    ensures Says(ms[i], ms[i + 1], seen, MarkerRows(ms)[i])
  {
    if i < 3 {
      UserPairs(ms[i], ms[i + 1], seen);
    } else if i == 3 {
      LlmPairs(ms[i], ms[i + 1], seen);
    } else if i < 6 {
      MarkerPairs(ms[i], ms[i + 1], seen);
    } else {
      SpeechPairs(ms[i], ms[i + 1], seen);
    }
  }

  lemma {:induction false} MarkerReads(ms: seq<Moment>, seen: bool, min: int)
    requires HasKinds(ms, [Silence, VadStop, Transcript, LlmRequest, LlmChunk, MarkerComplete, FirstText, FirstAudio, BotSpeaking])
    requires Spaced(ms) && Long(ms, 4, min) && Long(ms, 5, min) && Long(ms, 7, min)
    ensures Reads(ms, seen, MarkerRows(ms), min)
  {
    forall i | 0 <= i < |ms| - 1 ensures Says(ms[i], ms[i + 1], seen, MarkerRows(ms)[i]) {
      MarkerSays(ms, seen, i);
    }
  }

  lemma {:induction false} MarkerLines(ms: seq<Moment>)
    requires |ms| == 9
    ensures OneRepeat(MarkerRows(ms), 5)
    ensures LinesOf(MarkerRows(ms), 5) == [
              Line(EndpointingWait, VadStopSecs, Setting, 0, 1),
              Line(Transcription, By(ms[2].source), Service, 1, 2),
              Line(TurnDetection, TurnStrategies, Setting, 2, 3),
              Line(LlmInference, By(ms[3].source), Service, 3, 4),
              Line(TurnCompletion, FilterIncompleteTurns, Setting, 4, 6),
              Line(SpeechSynthesis, By(ms[7].source), Service, 6, 7),
              Line(OutputTransport, By(ms[8].source), Service, 7, 8)]
  {
  }

  /** A turn whose response opens with the marker of a finished turn: the marker's two halves are one line. */
  lemma {:induction false} MarkerTurn(c: Cycle, start: int, ms: seq<Moment>)
    requires Recorded(c, start, ms, []) && NothingDerived(c) && c.turnStart == Some(start)
    requires HasKinds(ms, [Silence, VadStop, Transcript, LlmRequest, LlmChunk, MarkerComplete, FirstText, FirstAudio, BotSpeaking])
    requires Long(ms, 4, MinOf(c)) && Long(ms, 5, MinOf(c)) && Long(ms, 7, MinOf(c))
    ensures Lists(Build(c), ms, [
              Line(EndpointingWait, VadStopSecs, Setting, 0, 1),
              Line(Transcription, By(ms[2].source), Service, 1, 2),
              Line(TurnDetection, TurnStrategies, Setting, 2, 3),
              Line(LlmInference, By(ms[3].source), Service, 3, 4),
              Line(TurnCompletion, FilterIncompleteTurns, Setting, 4, 6),
              Line(SpeechSynthesis, By(ms[7].source), Service, 6, 7),
              Line(OutputTransport, By(ms[8].source), Service, 7, 8)])
  {
    QuietCycle(c, start, ms);
    MarkerReads(ms, c.markersSeen, MinOf(c));
    MarkerLines(ms);
    CycleLists(c, start, ms, MarkerRows(ms), 5);
  }

  function HeldRows(ms: seq<Moment>): seq<Row>
    requires |ms| == 12
  {
    [Row(EndpointingWait, VadStopSecs, Setting, true), Row(Transcription, By(ms[2].source), Service, true),
     Row(TurnDetection, TurnStrategies, Setting, true), Row(LlmInference, By(ms[3].source), Service, true),
     Row(TurnCompletion, FilterIncompleteTurns, Setting, false), Row(WaitingForUser, FilterIncompleteTurns, Setting, false),
     Row(LlmInference, By(ms[6].source), Service, true),
     Row(TurnCompletion, FilterIncompleteTurns, Setting, false), Row(TurnCompletion, FilterIncompleteTurns, Setting, false),
     Row(SpeechSynthesis, By(ms[10].source), Service, true), Row(OutputTransport, By(ms[11].source), Service, false)]
  }

  lemma {:induction false} HeldSays(ms: seq<Moment>, seen: bool, i: nat)
    requires HasKinds(ms, [Silence, VadStop, Transcript, LlmRequest, LlmChunk, MarkerIncomplete,
                           LlmRequest, LlmChunk, MarkerComplete, FirstText, FirstAudio, BotSpeaking])
    requires Spaced(ms) && i + 1 < |ms|
    ensures Says(ms[i], ms[i + 1], seen, HeldRows(ms)[i])
  {
    if i < 3 {
      UserPairs(ms[i], ms[i + 1], seen);
    } else if i == 3 || i == 6 {
      LlmPairs(ms[i], ms[i + 1], seen);
    } else if i < 9 {
      MarkerPairs(ms[i], ms[i + 1], seen);
    } else {
      SpeechPairs(ms[i], ms[i + 1], seen);
    }
  }

  lemma {:induction false} HeldReads(ms: seq<Moment>, seen: bool, min: int)
    requires HasKinds(ms, [Silence, VadStop, Transcript, LlmRequest, LlmChunk, MarkerIncomplete,
                           LlmRequest, LlmChunk, MarkerComplete, FirstText, FirstAudio, BotSpeaking])
    requires Spaced(ms) && Long(ms, 4, min) && Long(ms, 5, min) && Long(ms, 7, min) && Long(ms, 8, min) && Long(ms, 10, min)
    ensures Reads(ms, seen, HeldRows(ms), min)
  {
    forall i | 0 <= i < |ms| - 1 ensures Says(ms[i], ms[i + 1], seen, HeldRows(ms)[i]) {
      HeldSays(ms, seen, i);
    }
  }

  lemma {:induction false} HeldLines(ms: seq<Moment>)
    requires |ms| == 12
    ensures OneRepeat(HeldRows(ms), 8)
    ensures LinesOf(HeldRows(ms), 8) == [
              Line(EndpointingWait, VadStopSecs, Setting, 0, 1),
              Line(Transcription, By(ms[2].source), Service, 1, 2),
              Line(TurnDetection, TurnStrategies, Setting, 2, 3),
              Line(LlmInference, By(ms[3].source), Service, 3, 4),
              Line(TurnCompletion, FilterIncompleteTurns, Setting, 4, 5),
              Line(WaitingForUser, FilterIncompleteTurns, Setting, 5, 6),
              Line(LlmInference, By(ms[6].source), Service, 6, 7),
              Line(TurnCompletion, FilterIncompleteTurns, Setting, 7, 9),
              Line(SpeechSynthesis, By(ms[10].source), Service, 9, 10),
              Line(OutputTransport, By(ms[11].source), Service, 10, 11)]
  {
  }

  /** A turn held because the user was not finished, and answered when they were. */
  lemma {:induction false} HeldTurn(c: Cycle, start: int, ms: seq<Moment>)
    requires Recorded(c, start, ms, []) && NothingDerived(c) && c.turnStart == Some(start)
    requires HasKinds(ms, [Silence, VadStop, Transcript, LlmRequest, LlmChunk, MarkerIncomplete,
                           LlmRequest, LlmChunk, MarkerComplete, FirstText, FirstAudio, BotSpeaking])
    requires var min := MinOf(c);
             Long(ms, 4, min) && Long(ms, 5, min) && Long(ms, 7, min) && Long(ms, 8, min) && Long(ms, 10, min)
    ensures Lists(Build(c), ms, [
              Line(EndpointingWait, VadStopSecs, Setting, 0, 1),
              Line(Transcription, By(ms[2].source), Service, 1, 2),
              Line(TurnDetection, TurnStrategies, Setting, 2, 3),
              Line(LlmInference, By(ms[3].source), Service, 3, 4),
              Line(TurnCompletion, FilterIncompleteTurns, Setting, 4, 5),
              Line(WaitingForUser, FilterIncompleteTurns, Setting, 5, 6),
              Line(LlmInference, By(ms[6].source), Service, 6, 7),
              Line(TurnCompletion, FilterIncompleteTurns, Setting, 7, 9),
              Line(SpeechSynthesis, By(ms[10].source), Service, 9, 10),
              Line(OutputTransport, By(ms[11].source), Service, 10, 11)])
  {
    QuietCycle(c, start, ms);
    HeldReads(ms, c.markersSeen, MinOf(c));
    HeldLines(ms);
    CycleLists(c, start, ms, HeldRows(ms), 8);
  }

  function GreetingRows(ms: seq<Moment>): seq<Row>
    requires |ms| == 6
  {
    [Row(FirstRequest, BotCode, BotKind, true), Row(LlmInference, By(ms[1].source), Service, true),
     Row(LlmInference, By(ms[2].source), Service, true), Row(SpeechSynthesis, By(ms[4].source), Service, true),
     Row(OutputTransport, By(ms[5].source), Service, false)]
  }

  lemma {:induction false} GreetingSays(ms: seq<Moment>, i: nat)
    requires HasKinds(ms, [Ready, LlmRequest, LlmChunk, FirstText, FirstAudio, BotSpeaking])
    requires Spaced(ms) && i + 1 < |ms|
    ensures Says(ms[i], ms[i + 1], false, GreetingRows(ms)[i])
  {
    if i == 0 {
      UserPairs(ms[i], ms[i + 1], false);
    } else if i < 3 {
      LlmPairs(ms[i], ms[i + 1], false);
    } else {
      SpeechPairs(ms[i], ms[i + 1], false);
    }
  }

  lemma {:induction false} GreetingReads(ms: seq<Moment>, min: int)
    requires HasKinds(ms, [Ready, LlmRequest, LlmChunk, FirstText, FirstAudio, BotSpeaking])
    requires Spaced(ms) && Long(ms, 4, min)
    ensures Reads(ms, false, GreetingRows(ms), min)
  {
    forall i | 0 <= i < |ms| - 1 ensures Says(ms[i], ms[i + 1], false, GreetingRows(ms)[i]) {
      GreetingSays(ms, i);
    }
  }

  lemma {:induction false} GreetingLines(ms: seq<Moment>)
    requires |ms| == 6 && ms[1].source == ms[2].source
    ensures OneRepeat(GreetingRows(ms), 2)
    ensures LinesOf(GreetingRows(ms), 2) == [
              Line(FirstRequest, BotCode, BotKind, 0, 1),
              Line(LlmInference, By(ms[1].source), Service, 1, 3),
              Line(SpeechSynthesis, By(ms[4].source), Service, 3, 4),
              Line(OutputTransport, By(ms[5].source), Service, 4, 5)]
  {
  }

  /** A greeting, which is measured from when both the client and the pipeline were there. */
  lemma {:induction false} Greeting(c: Cycle, start: int, ms: seq<Moment>, client: int, pipeline: int)
    requires Recorded(c, start, ms, []) && NothingDerived(c) && c.turnStart == None && !c.markersSeen
    requires c.clientConnected == Some(client) && c.pipelineStarted == Some(pipeline)
    requires start == if client < pipeline then pipeline else client
    requires HasKinds(ms, [Ready, LlmRequest, LlmChunk, FirstText, FirstAudio, BotSpeaking])
    requires ms[1].source == ms[2].source && Long(ms, 4, MinOf(c))
    ensures Lists(Build(c), ms, [
              Line(FirstRequest, BotCode, BotKind, 0, 1),
              Line(LlmInference, By(ms[1].source), Service, 1, 3),
              Line(SpeechSynthesis, By(ms[4].source), Service, 3, 4),
              Line(OutputTransport, By(ms[5].source), Service, 4, 5)])
  {
    QuietCycle(c, start, ms);
    GreetingReads(ms, MinOf(c));
    GreetingLines(ms);
    CycleLists(c, start, ms, GreetingRows(ms), 2);
  }

  // ---------------------------------------------------------------- turns with derived moments

  /** One call derives the two ends of its handler. */
  lemma {:induction false} OneCallDerives(c: Cycle)
    requires |c.calls| == 1 && c.textAggregation == None
    ensures Derived(c) == [Moment(c.calls[0].start, HandlersStart, "", true),
                           Moment(c.calls[0].start + c.calls[0].duration, HandlersEnd, c.calls[0].name, true)]
  {
    var gs := Grouped(SortCalls(c.calls));
    OneGroup(c.calls);
    OneWindow(gs);
    assert gs[0] == c.calls;
    assert HandlerOwner(c.calls) == c.calls[0].name;
    assert Derived(c) == HandlerMoments(gs);
  }

  lemma {:induction false} DerivedCycle(c: Cycle, start: int, ms: seq<Moment>, derived: seq<Moment>)
    requires Recorded(c, start, ms, derived) && derived == Derived(c) && |ms| > 1 && ms[|ms| - 1].kind.BotSpeaking?
    requires Anchor(c) == Some(start)
    requires forall i :: 0 <= i < |derived| ==> !derived[i].kind.BotSpeaking?
    ensures Reported(c, start, ms)
  {
    SeenIn(c, start, ms, derived, BotSpeaking);
    RecordedTimeline(c, start, ms, derived);
  }

  function CallRows(ms: seq<Moment>): seq<Row>
    requires |ms| == 7
  {
    [Row(EndpointingWait, VadStopSecs, Setting, true), Row(Transcription, By(ms[2].source), Service, true),
     Row(TurnDetection, TurnStrategies, Setting, true), Row(LlmInference, By(ms[3].source), Service, true),
     Row(LlmToolCall, By(ms[4].source), Service, false), Row(FunctionHandler, By(ms[6].source), Service, false)]
  }

  lemma {:induction false} CallSays(ms: seq<Moment>, i: nat)
    requires HasKinds(ms, [Silence, VadStop, Transcript, LlmRequest, LlmChunk, HandlersStart, HandlersEnd])
    requires Spaced(ms) && i + 1 < |ms|
    ensures Says(ms[i], ms[i + 1], false, CallRows(ms)[i])
  {
    if i < 3 {
      UserPairs(ms[i], ms[i + 1], false);
    } else {
      LlmPairs(ms[i], ms[i + 1], false);
    }
  }

  lemma {:induction false} CallReads(ms: seq<Moment>, min: int)
    requires HasKinds(ms, [Silence, VadStop, Transcript, LlmRequest, LlmChunk, HandlersStart, HandlersEnd])
    requires Spaced(ms) && Long(ms, 4, min) && Long(ms, 5, min)
    ensures Reads(ms, false, CallRows(ms), min)
  {
    forall i | 0 <= i < |ms| - 1 ensures Says(ms[i], ms[i + 1], false, CallRows(ms)[i]) {
      CallSays(ms, i);
    }
  }

  lemma {:induction false} CallLines(ms: seq<Moment>)
    requires |ms| == 7
    ensures NoRepeat(CallRows(ms))
    ensures PlainLines(CallRows(ms)) == [
              Line(EndpointingWait, VadStopSecs, Setting, 0, 1),
              Line(Transcription, By(ms[2].source), Service, 1, 2),
              Line(TurnDetection, TurnStrategies, Setting, 2, 3),
              Line(LlmInference, By(ms[3].source), Service, 3, 4),
              Line(LlmToolCall, By(ms[4].source), Service, 4, 5),
              Line(FunctionHandler, By(ms[6].source), Service, 5, 6)]
  {
  }

  function AnswerRows(ms: seq<Moment>): seq<Row>
    requires |ms| == 5
  {
    [Row(LlmInference, By(ms[0].source), Service, true), Row(LlmInference, By(ms[1].source), Service, true),
     Row(SpeechSynthesis, By(ms[3].source), Service, true), Row(OutputTransport, By(ms[4].source), Service, false)]
  }

  lemma {:induction false} AnswerSays(ms: seq<Moment>, i: nat)
    requires HasKinds(ms, [LlmRequest, LlmChunk, FirstText, FirstAudio, BotSpeaking]) && Spaced(ms) && i + 1 < |ms|
    ensures Says(ms[i], ms[i + 1], false, AnswerRows(ms)[i])
  {
    if i < 2 {
      LlmPairs(ms[i], ms[i + 1], false);
    } else {
      SpeechPairs(ms[i], ms[i + 1], false);
    }
  }

  lemma {:induction false} AnswerReads(ms: seq<Moment>, min: int)
    requires HasKinds(ms, [LlmRequest, LlmChunk, FirstText, FirstAudio, BotSpeaking]) && Spaced(ms) && Long(ms, 3, min)
    ensures Reads(ms, false, AnswerRows(ms), min)
  {
    forall i | 0 <= i < |ms| - 1 ensures Says(ms[i], ms[i + 1], false, AnswerRows(ms)[i]) {
      AnswerSays(ms, i);
    }
  }

  lemma {:induction false} AnswerLines(ms: seq<Moment>)
    requires |ms| == 5 && ms[0].source == ms[1].source
    ensures OneRepeat(AnswerRows(ms), 1)
    ensures LinesOf(AnswerRows(ms), 1) == [
              Line(LlmInference, By(ms[0].source), Service, 0, 2),
              Line(SpeechSynthesis, By(ms[3].source), Service, 2, 3),
              Line(OutputTransport, By(ms[4].source), Service, 3, 4)]
  {
  }

  /** What comes before and behind the time from the handler's end to the next request, which has no name. */
  lemma {:induction false} AroundResult(ms: seq<Moment>, seen: bool, call: seq<Moment>, answer: seq<Moment>, min: int)
    returns (named: seq<(Contribution, bool)>, before: seq<Contribution>, after: seq<Contribution>)
    requires HasKinds(call, [Silence, VadStop, Transcript, LlmRequest, LlmChunk, HandlersStart, HandlersEnd])
    requires HasKinds(answer, [LlmRequest, LlmChunk, FirstText, FirstAudio, BotSpeaking])
    requires ms == call + answer && Spaced(call) && Spaced(answer) && answer[0].source == answer[1].source
    requires Long(call, 4, min) && Long(call, 5, min) && Long(answer, 3, min) && !seen
    ensures named == NameAll(ms, seen) && KeptOf(named, min) == before + after
    ensures Lists(before, call, [
              Line(EndpointingWait, VadStopSecs, Setting, 0, 1),
              Line(Transcription, By(call[2].source), Service, 1, 2),
              Line(TurnDetection, TurnStrategies, Setting, 2, 3),
              Line(LlmInference, By(call[3].source), Service, 3, 4),
              Line(LlmToolCall, By(call[4].source), Service, 4, 5),
              Line(FunctionHandler, By(call[6].source), Service, 5, 6)])
    ensures Lists(after, answer, [
              Line(LlmInference, By(answer[0].source), Service, 0, 2),
              Line(SpeechSynthesis, By(answer[3].source), Service, 2, 3),
              Line(OutputTransport, By(answer[4].source), Service, 3, 4)])
    ensures Total(before + after) == ms[|ms| - 1].at - ms[0].at - (answer[0].at - call[|call| - 1].at)
    ensures answer[|answer| - 1].kind.BotSpeaking?
  {
    CallReads(call, min);
    AnswerReads(answer, min);
    CallLines(call);
    AnswerLines(answer);
    var a, b := AroundGap(call, answer, seen, CallRows(call), AnswerRows(answer), min, 1);
    named, before, after := a + b, Stretches(a), Joined(Stretches(b), 1);
    assert ms[0] == call[0] && ms[|ms| - 1] == answer[4];
  }

  lemma {:induction false} ResultGap(ms: seq<Moment>, call: seq<Moment>, answer: seq<Moment>)
    requires call != [] && answer != [] && ms == call + answer && Spaced(ms)
    ensures |ms| > 1 && ms[|ms| - 1] == answer[|answer| - 1] && answer[0].at - call[|call| - 1].at >= 500_000
  {
    var i := |call| - 1;
    assert ms[i + 1].at - ms[i].at >= 500_000;
  }

  lemma {:induction false} HandlerIs(c: Cycle, handler: seq<Moment>)
    requires |c.calls| == 1 && c.textAggregation == None
    requires handler == [Moment(c.calls[0].start, HandlersStart, "", true),
                         Moment(c.calls[0].start + c.calls[0].duration, HandlersEnd, c.calls[0].name, true)]
    ensures handler == Derived(c) && forall i :: 0 <= i < |handler| ==> !handler[i].kind.BotSpeaking?
  {
    OneCallDerives(c);
  }

  lemma {:induction false} CallReported(c: Cycle, start: int, ms: seq<Moment>, handler: seq<Moment>)
    requires |c.calls| == 1 && c.textAggregation == None && |ms| > 1 && ms[|ms| - 1].kind.BotSpeaking?
    requires handler == [Moment(c.calls[0].start, HandlersStart, "", true),
                         Moment(c.calls[0].start + c.calls[0].duration, HandlersEnd, c.calls[0].name, true)]
    requires Recorded(c, start, ms, handler) && Anchor(c) == Some(start)
    ensures Reported(c, start, ms)
  {
    HandlerIs(c, handler);
    DerivedCycle(c, start, ms, handler);
  }

  lemma {:induction false} CallBuilds(c: Cycle, start: int, ms: seq<Moment>, call: seq<Moment>, answer: seq<Moment>,
                                      handler: seq<Moment>, named: seq<(Contribution, bool)>, kept: seq<Contribution>, gap: int)
    requires |c.calls| == 1 && c.textAggregation == None
    requires handler == [Moment(c.calls[0].start, HandlersStart, "", true),
                         Moment(c.calls[0].start + c.calls[0].duration, HandlersEnd, c.calls[0].name, true)]
    requires call != [] && answer != [] && answer[|answer| - 1].kind.BotSpeaking? && gap == answer[0].at - call[|call| - 1].at
    requires ms == call + answer && Recorded(c, start, ms, handler) && Anchor(c) == Some(start)
    requires named == NameAll(ms, c.markersSeen) && KeptOf(named, MinOf(c)) == kept
    requires Total(kept) == ms[|ms| - 1].at - ms[0].at - gap
    ensures Build(c) == kept + [Contribution(Pipeline, Jargo, PipelineKind, start, gap)]
  {
    ResultGap(ms, call, answer);
    CallReported(c, start, ms, handler);
    CycleLeaves(c, start, ms, named, kept, gap);
  }

  /** A turn that calls a tool: the LLM's call and the tool by name, and the way back to the LLM as pipeline time. */
  lemma {:induction false} ToolCallTurn(c: Cycle, start: int, ms: seq<Moment>, call: seq<Moment>, answer: seq<Moment>,
                                        handler: seq<Moment>, gap: int)
    returns (before: seq<Contribution>, after: seq<Contribution>)
    requires |c.calls| == 1 && c.textAggregation == None && c.turnStart == Some(start) && !c.markersSeen
    requires HasKinds(call, [Silence, VadStop, Transcript, LlmRequest, LlmChunk, HandlersStart, HandlersEnd])
    requires HasKinds(answer, [LlmRequest, LlmChunk, FirstText, FirstAudio, BotSpeaking])
    requires handler == [Moment(c.calls[0].start, HandlersStart, "", true),
                         Moment(c.calls[0].start + c.calls[0].duration, HandlersEnd, c.calls[0].name, true)]
    requires ms == call + answer && call[5..] == handler && Recorded(c, start, ms, handler) && Spaced(call) && Spaced(answer)
    requires answer[0].source == answer[1].source && gap == answer[0].at - call[6].at
    requires var min := MinOf(c); Long(call, 4, min) && Long(call, 5, min) && Long(answer, 3, min)
    ensures Lists(before, call, [
              Line(EndpointingWait, VadStopSecs, Setting, 0, 1),
              Line(Transcription, By(call[2].source), Service, 1, 2),
              Line(TurnDetection, TurnStrategies, Setting, 2, 3),
              Line(LlmInference, By(call[3].source), Service, 3, 4),
              Line(LlmToolCall, By(call[4].source), Service, 4, 5),
              Line(FunctionHandler, By(c.calls[0].name), Service, 5, 6)])
    ensures Lists(after, answer, [
              Line(LlmInference, By(answer[0].source), Service, 0, 2),
              Line(SpeechSynthesis, By(answer[3].source), Service, 2, 3),
              Line(OutputTransport, By(answer[4].source), Service, 3, 4)])
    ensures Build(c) == before + after + [Contribution(Pipeline, Jargo, PipelineKind, start, gap)]
  {
    var named: seq<(Contribution, bool)>;
    named, before, after := AroundResult(ms, c.markersSeen, call, answer, MinOf(c));
    assert call[6] == call[5..][1];
    CallBuilds(c, start, ms, call, answer, handler, named, before + after, gap);
  }

  function SentenceRows(ms: seq<Moment>): seq<Row>
    requires |ms| == 9
  {
    [Row(EndpointingWait, VadStopSecs, Setting, true), Row(Transcription, By(ms[2].source), Service, true),
     Row(TurnDetection, TurnStrategies, Setting, true), Row(LlmInference, By(ms[3].source), Service, true),
     Row(LlmInference, By(ms[4].source), Service, true), Row(SentenceAggregation, TextAggregator, Setting, false),
     Row(SpeechSynthesis, By(ms[7].source), Service, true), Row(OutputTransport, By(ms[8].source), Service, false)]
  }

  lemma {:induction false} SentenceSays(ms: seq<Moment>, i: nat)
    requires HasKinds(ms, [Silence, VadStop, Transcript, LlmRequest, LlmChunk, FirstText, Sentence, FirstAudio, BotSpeaking])
    requires Spaced(ms) && i + 1 < |ms|
    ensures Says(ms[i], ms[i + 1], false, SentenceRows(ms)[i])
  {
    if i < 3 {
      UserPairs(ms[i], ms[i + 1], false);
    } else if i < 5 {
      LlmPairs(ms[i], ms[i + 1], false);
    } else {
      SpeechPairs(ms[i], ms[i + 1], false);
    }
  }

  lemma {:induction false} SentenceReads(ms: seq<Moment>, min: int)
    requires HasKinds(ms, [Silence, VadStop, Transcript, LlmRequest, LlmChunk, FirstText, Sentence, FirstAudio, BotSpeaking])
    requires Spaced(ms) && Long(ms, 5, min) && Long(ms, 7, min)
    ensures Reads(ms, false, SentenceRows(ms), min)
  {
    forall i | 0 <= i < |ms| - 1 ensures Says(ms[i], ms[i + 1], false, SentenceRows(ms)[i]) {
      SentenceSays(ms, i);
    }
  }

  lemma {:induction false} SentenceLines(ms: seq<Moment>)
    requires |ms| == 9 && ms[3].source == ms[4].source
    ensures OneRepeat(SentenceRows(ms), 4)
    ensures LinesOf(SentenceRows(ms), 4) == [
              Line(EndpointingWait, VadStopSecs, Setting, 0, 1),
              Line(Transcription, By(ms[2].source), Service, 1, 2),
              Line(TurnDetection, TurnStrategies, Setting, 2, 3),
              Line(LlmInference, By(ms[3].source), Service, 3, 5),
              Line(SentenceAggregation, TextAggregator, Setting, 5, 6),
              Line(SpeechSynthesis, By(ms[7].source), Service, 6, 7),
              Line(OutputTransport, By(ms[8].source), Service, 7, 8)]
  {
  }

  /** The text aggregation derives the end of the first sentence from the first text. */
  lemma {:induction false} SentenceDerives(c: Cycle, start: int, ms: seq<Moment>, d: int)
    requires c.calls == [] && c.textAggregation == Some(d) && d > 0
    requires HasKinds(ms, [Silence, VadStop, Transcript, LlmRequest, LlmChunk, FirstText, Sentence, FirstAudio, BotSpeaking])
    requires Recorded(c, start, ms, [ms[6]])
    ensures Derived(c) == [Moment(ms[5].at + d, Sentence, "", true)]
  {
    var i := FirstOf(c.moments, FirstText);
    assert ms[5] in multiset(ms);
    assert ms[5] in multiset(c.moments);
    var j :| 0 <= j < |c.moments| && c.moments[j] == ms[5];
    assert i < |c.moments|;
    RecordedIn(c, start, ms, [ms[6]], c.moments[i]);
    assert c.moments[i] == ms[5];
    assert HandlerMoments(Grouped(SortCalls(c.calls))) == [];
  }

  /** A turn whose text is spoken sentence by sentence: waiting for the first of them is a line of its own. */
  lemma {:induction false} SentenceTurn(c: Cycle, start: int, ms: seq<Moment>, d: int)
    requires c.calls == [] && c.textAggregation == Some(d) && d > 0 && c.turnStart == Some(start) && !c.markersSeen
    requires HasKinds(ms, [Silence, VadStop, Transcript, LlmRequest, LlmChunk, FirstText, Sentence, FirstAudio, BotSpeaking])
    requires Recorded(c, start, ms, [ms[6]]) && ms[6] == Moment(ms[5].at + d, Sentence, "", true)
    requires ms[3].source == ms[4].source && Long(ms, 5, MinOf(c)) && Long(ms, 7, MinOf(c))
    ensures Lists(Build(c), ms, [
              Line(EndpointingWait, VadStopSecs, Setting, 0, 1),
              Line(Transcription, By(ms[2].source), Service, 1, 2),
              Line(TurnDetection, TurnStrategies, Setting, 2, 3),
              Line(LlmInference, By(ms[3].source), Service, 3, 5),
              Line(SentenceAggregation, TextAggregator, Setting, 5, 6),
              Line(SpeechSynthesis, By(ms[7].source), Service, 6, 7),
              Line(OutputTransport, By(ms[8].source), Service, 7, 8)])
  {
    SentenceDerives(c, start, ms, d);
    DerivedCycle(c, start, ms, [ms[6]]);
    SentenceReads(ms, MinOf(c));
    SentenceLines(ms);
    CycleLists(c, start, ms, SentenceRows(ms), 4);
  }
}
