/**
 Latency accounting (observers/contributions.go): the moments of a user-to-bot cycle are sorted, the
 stretches between neighbours are named, merged and filtered, and what is left over is reported as
 pipeline time. Times and durations are whole nanoseconds.
 */
module Contributions {
  import opened Wrappers

  const PRINTS_AS_ZERO := 500_000
  const DEFAULT_MIN_CONTRIBUTION := 5_000_000

  datatype Kind =
    | Silence | Ready | VadStop | Transcript | LlmRequest | LlmChunk | MarkerComplete | MarkerIncomplete
    | HandlersStart | HandlersEnd | FirstText | Sentence | FirstAudio | BotSpeaking

  datatype Moment = Moment(at: int, kind: Kind, source: string, derived: bool)

  /** What a stretch of time is called. Each stage has one key and one label in the source. */
  datatype Stage =
    | EndpointingWait | FirstRequest | Transcription | TurnDetection | LlmInference | TurnCompletion | WaitingForUser
    | LlmToolCall | FunctionHandler | SentenceAggregation | SpeechSynthesis | OutputTransport | AwaitingSpeakableText
    | Pipeline

  /** What spent the time: a processor (or tool) by name, a setting, the bot's own code, or the framework. */
  datatype Owner = By(name: string) | FilterIncompleteTurns | VadStopSecs | TurnStrategies | TextAggregator | BotCode | Jargo

  datatype OwnerKind = Service | Setting | BotKind | PipelineKind

  /** Which end of a span supplies its owner, when the table does not name one outright. */
  datatype OwnerSource = Literal(owner: Owner) | Opener | Closer

  datatype Span = Span(stage: Stage, owner: OwnerSource, core: bool)

  datatype Contribution = Contribution(stage: Stage, owner: Owner, ownerKind: OwnerKind, start: int, duration: int)

  /** The table: what the stretch between two adjacent moments is called, if it has a name. */
  function SpanFor(opener: Kind, closer: Kind, markersSeen: bool): Option<Span> {
    match (opener, closer)
    case (Silence, VadStop) => Some(Span(EndpointingWait, Literal(VadStopSecs), true))
    case (Ready, LlmRequest) => Some(Span(FirstRequest, Literal(BotCode), true))
    case (VadStop, Transcript) => Some(Span(Transcription, Closer, true))
    case (Transcript, LlmRequest) => Some(Span(TurnDetection, Literal(TurnStrategies), true))
    case (LlmRequest, LlmChunk) => Some(Span(LlmInference, Opener, true))
    case (LlmChunk, MarkerComplete) => Some(Span(TurnCompletion, Literal(FilterIncompleteTurns), false))
    case (LlmChunk, MarkerIncomplete) => Some(Span(TurnCompletion, Literal(FilterIncompleteTurns), false))
    case (MarkerComplete, FirstText) => Some(Span(TurnCompletion, Literal(FilterIncompleteTurns), false))
    case (MarkerIncomplete, LlmRequest) => Some(Span(WaitingForUser, Literal(FilterIncompleteTurns), false))
    case (LlmChunk, HandlersStart) => Some(Span(LlmToolCall, Opener, false))
    case (HandlersStart, HandlersEnd) => Some(Span(FunctionHandler, Closer, false))
    case (FirstText, Sentence) => Some(Span(SentenceAggregation, Literal(TextAggregator), false))
    case (Sentence, FirstAudio) => Some(Span(SpeechSynthesis, Closer, true))
    case (FirstText, FirstAudio) => Some(Span(SpeechSynthesis, Closer, true))
    case (FirstAudio, BotSpeaking) => Some(Span(OutputTransport, Closer, false))
    case (LlmChunk, FirstText) =>
      if markersSeen then Some(Span(AwaitingSpeakableText, Closer, false)) else Some(Span(LlmInference, Opener, true))
    case _ => None
  }

  /** contributionFor: the named stretch, and whether it is a core stage. */
  function ContributionFor(opener: Moment, closer: Moment, markersSeen: bool): (r: Option<(Contribution, bool)>)
    ensures r.Some? ==> r.value.0.start == opener.at && r.value.0.start + r.value.0.duration == closer.at && r.value.0.duration > 0
  {
    if closer.at <= opener.at then None
    else
      match SpanFor(opener.kind, closer.kind, markersSeen)
      case None => None
      case Some(s) =>
        var (owner, ownerKind) :=
          match s.owner
          case Opener => (By(opener.source), Service)
          case Closer => (By(closer.source), Service)
          case Literal(owner) => (owner, if owner == BotCode then BotKind else Setting);
        Some((Contribution(s.stage, owner, ownerKind, opener.at, closer.at - opener.at), s.core))
  }

  // ---------------------------------------------------------------- sorting the moments

  /** a sorts before b even where b came first. */
  predicate Before(a: Moment, b: Moment) {
    a.at < b.at || (a.at == b.at && a.derived && !b.derived)
  }

  /** The stable sort: each moment goes behind all that do not sort after it. */
  function Insert(sorted: seq<Moment>, m: Moment): seq<Moment> {
    if sorted == [] || !Before(m, sorted[|sorted| - 1]) then sorted + [m]
    else Insert(sorted[..|sorted| - 1], m) + [sorted[|sorted| - 1]]
  }

  function Sort(ms: seq<Moment>): seq<Moment> {
    if ms == [] then [] else Insert(Sort(ms[..|ms| - 1]), ms[|ms| - 1])
  }

  predicate Sorted(ms: seq<Moment>) {
    forall i, j :: 0 <= i < j < |ms| ==> !Before(ms[j], ms[i])
  }

  lemma {:induction false} InsertPermutes(sorted: seq<Moment>, m: Moment)
    ensures multiset(Insert(sorted, m)) == multiset(sorted) + multiset{m}
  {
    if sorted != [] && Before(m, sorted[|sorted| - 1]) {
      var n := |sorted| - 1;
      InsertPermutes(sorted[..n], m);
      assert sorted == sorted[..n] + [sorted[n]];
    }
  }

  lemma {:induction false} InsertSorts(sorted: seq<Moment>, m: Moment)
    requires Sorted(sorted)
    ensures Sorted(Insert(sorted, m))
  {
    if sorted != [] && Before(m, sorted[|sorted| - 1]) {
      var n := |sorted| - 1;
      InsertSorts(sorted[..n], m);
      InsertPermutes(sorted[..n], m);
      var inner := Insert(sorted[..n], m);
      forall i | 0 <= i < |inner| ensures !Before(sorted[n], inner[i]) {
        assert inner[i] in multiset(inner);
        assert inner[i] == m || inner[i] in sorted[..n];
      }
    }
  }

  lemma {:induction false} SortSorts(ms: seq<Moment>)
    ensures Sorted(Sort(ms)) && multiset(Sort(ms)) == multiset(ms)
  {
    if ms != [] {
      var n := |ms| - 1;
      SortSorts(ms[..n]);
      InsertSorts(Sort(ms[..n]), ms[n]);
      InsertPermutes(Sort(ms[..n]), ms[n]);
      assert ms == ms[..n] + [ms[n]];
    }
  }

  // ---------------------------------------------------------------- naming, merging, filtering

  /** The named stretches between neighbours, with their core marks. */
  function NameAll(ms: seq<Moment>, markersSeen: bool): seq<(Contribution, bool)> {
    if |ms| < 2 then []
    else
      var n := |ms| - 1;
      NameAll(ms[..n], markersSeen)
      + match ContributionFor(ms[n - 1], ms[n], markersSeen)
        case None => []
        case Some(c) => [c]
  }

  function Stretches(named: seq<(Contribution, bool)>): seq<Contribution> {
    seq(|named|, i requires 0 <= i < |named| => named[i].0)
  }

  function End(c: Contribution): int {
    c.start + c.duration
  }

  predicate Joins(prev: Contribution, c: Contribution) {
    c.start - End(prev) < PRINTS_AS_ZERO && prev.stage == c.stage && prev.owner == c.owner
  }

  function MergeOnto(merged: seq<Contribution>, c: Contribution): seq<Contribution> {
    var n := |merged| - 1;
    if merged != [] && Joins(merged[n], c) then merged[n := merged[n].(duration := End(c) - merged[n].start)]
    else merged + [c]
  }

  /** mergeAdjacent. */
  function Merge(cs: seq<Contribution>): seq<Contribution> {
    if cs == [] then [] else MergeOnto(Merge(cs[..|cs| - 1]), cs[|cs| - 1])
  }

  predicate IsCore(named: seq<(Contribution, bool)>, stage: Stage) {
    exists i :: 0 <= i < |named| && named[i].1 && named[i].0.stage == stage
  }

  predicate Keeps(named: seq<(Contribution, bool)>, min: int, c: Contribution) {
    c.duration >= min || (IsCore(named, c.stage) && c.duration >= PRINTS_AS_ZERO)
  }

  function Filter(named: seq<(Contribution, bool)>, min: int, cs: seq<Contribution>): seq<Contribution> {
    if cs == [] then []
    else
      var n := |cs| - 1;
      Filter(named, min, cs[..n]) + if Keeps(named, min, cs[n]) then [cs[n]] else []
  }

  function Total(cs: seq<Contribution>): int {
    if cs == [] then 0 else Total(cs[..|cs| - 1]) + cs[|cs| - 1].duration
  }

  /** Disjoint stretches of positive length, in order, within [lo, hi]. */
  ghost predicate Chained(cs: seq<Contribution>, lo: int, hi: int) {
    (forall i :: 0 <= i < |cs| ==> lo <= cs[i].start && cs[i].duration > 0 && End(cs[i]) <= hi)
    && forall i, j :: 0 <= i < j < |cs| ==> End(cs[i]) <= cs[j].start
  }

  lemma {:induction false} NamesAreChained(ms: seq<Moment>, markersSeen: bool)
    requires ms != [] && Sorted(ms)
    ensures Chained(Stretches(NameAll(ms, markersSeen)), ms[0].at, ms[|ms| - 1].at)
  {
    if |ms| > 1 {
      var n := |ms| - 1;
      NamesAreChained(ms[..n], markersSeen);
      var before := Stretches(NameAll(ms[..n], markersSeen));
      match ContributionFor(ms[n - 1], ms[n], markersSeen)
      case None => assert Stretches(NameAll(ms, markersSeen)) == before;
      case Some(c) => assert Stretches(NameAll(ms, markersSeen)) == before + [c.0];
    }
  }

  /** No two neighbours that say the same thing across a gap too short to print. */
  ghost predicate NothingToJoin(cs: seq<Contribution>) {
    forall i :: 0 <= i < |cs| - 1 ==> !Joins(cs[i], cs[i + 1])
  }

  /** out names the same time as c, in the same words. */
  predicate Absorbs(out: Contribution, c: Contribution) {
    out.stage == c.stage && out.owner == c.owner && out.start <= c.start && End(c) <= End(out)
  }

  lemma AbsorbsAll(out: Contribution, between: Contribution, c: Contribution)
    requires Absorbs(out, between) && Absorbs(between, c)
    ensures Absorbs(out, c)
  {
  }

  lemma MergeOntoKeeps(merged: seq<Contribution>, c: Contribution, lo: int, hi: int)
    requires Chained(merged, lo, hi) && NothingToJoin(merged) && c.duration > 0 && lo <= c.start && End(c) <= hi
    requires merged != [] ==> End(merged[|merged| - 1]) <= c.start
    ensures var m := MergeOnto(merged, c);
            Chained(m, lo, hi) && NothingToJoin(m) && m != [] && End(m[|m| - 1]) == End(c)
  {
  }

  lemma MergeOntoAbsorbs(merged: seq<Contribution>, c: Contribution)
    requires c.duration > 0 && (merged != [] ==> End(merged[|merged| - 1]) <= c.start && merged[|merged| - 1].duration > 0)
    ensures var m := MergeOnto(merged, c);
            m != [] && Absorbs(m[|m| - 1], c)
            && |merged| <= |m| && forall k :: 0 <= k < |merged| ==> Absorbs(m[k], merged[k])
  {
  }

  /** Merging keeps the stretches disjoint and in order, and leaves nothing to join. */
  lemma {:induction false} MergeJoins(cs: seq<Contribution>, lo: int, hi: int)
    requires Chained(cs, lo, hi)
    ensures Chained(Merge(cs), lo, hi) && NothingToJoin(Merge(cs))
    ensures cs != [] ==> Merge(cs) != [] && End(Merge(cs)[|Merge(cs)| - 1]) == End(cs[|cs| - 1])
  {
    if cs != [] {
      var n := |cs| - 1;
      MergeJoins(cs[..n], lo, hi);
      MergeOntoKeeps(Merge(cs[..n]), cs[n], lo, hi);
    }
  }

  /** Merging loses no named time: every stretch lies in one that names it the same. */
  lemma {:induction false} MergeAbsorbs(cs: seq<Contribution>, lo: int, hi: int, i: nat) returns (k: nat)
    requires Chained(cs, lo, hi) && i < |cs|
    ensures k < |Merge(cs)| && Absorbs(Merge(cs)[k], cs[i])
  {
    var n := |cs| - 1;
    var earlier := Merge(cs[..n]);
    MergeJoins(cs[..n], lo, hi);
    assert cs[..n] != [] ==> End(cs[n - 1]) <= cs[n].start;
    MergeOntoAbsorbs(earlier, cs[n]);
    assert Merge(cs) == MergeOnto(earlier, cs[n]);
    if i == n {
      k := |Merge(cs)| - 1;
    } else {
      k := MergeAbsorbs(cs[..n], lo, hi, i);
      AbsorbsAll(Merge(cs)[k], earlier[k], cs[i]);
    }
  }

  lemma {:induction false} FilterKeepsChained(named: seq<(Contribution, bool)>, min: int, cs: seq<Contribution>, lo: int, hi: int)
    requires Chained(cs, lo, hi)
    ensures Chained(Filter(named, min, cs), lo, hi)
    ensures forall c :: c in Filter(named, min, cs) <==> c in cs && Keeps(named, min, c)
  {
    if cs != [] {
      var n := |cs| - 1;
      FilterKeepsChained(named, min, cs[..n], lo, hi);
      assert cs == cs[..n] + [cs[n]];
      forall c | c in Filter(named, min, cs[..n]) ensures End(c) <= cs[n].start {
        assert c in cs[..n];
      }
    }
  }

  lemma {:induction false} ChainedFits(cs: seq<Contribution>, lo: int, hi: int)
    requires Chained(cs, lo, hi) && lo <= hi
    ensures 0 <= Total(cs) <= hi - lo
  {
    if cs != [] {
      var n := |cs| - 1;
      assert Chained(cs[..n], lo, cs[n].start);
      ChainedFits(cs[..n], lo, cs[n].start);
    }
  }

  // ---------------------------------------------------------------- function handlers

  datatype Call = Call(name: string, start: int, duration: int)

  function CallEnd(c: Call): int {
    c.start + c.duration
  }

  function InsertCall(sorted: seq<Call>, c: Call): seq<Call> {
    if sorted == [] || sorted[|sorted| - 1].start <= c.start then sorted + [c]
    else InsertCall(sorted[..|sorted| - 1], c) + [sorted[|sorted| - 1]]
  }

  function SortCalls(cs: seq<Call>): seq<Call> {
    if cs == [] then [] else InsertCall(SortCalls(cs[..|cs| - 1]), cs[|cs| - 1])
  }

  predicate StartSorted(cs: seq<Call>) {
    forall i, j :: 0 <= i < j < |cs| ==> cs[i].start <= cs[j].start
  }

  lemma {:induction false} InsertCallPermutes(sorted: seq<Call>, c: Call)
    ensures multiset(InsertCall(sorted, c)) == multiset(sorted) + multiset{c}
  {
    var n := |sorted| - 1;
    if sorted != [] && c.start < sorted[n].start {
      InsertCallPermutes(sorted[..n], c);
      assert sorted == sorted[..n] + [sorted[n]];
    }
  }

  lemma {:induction false} InsertCallSorts(sorted: seq<Call>, c: Call)
    requires StartSorted(sorted)
    ensures StartSorted(InsertCall(sorted, c))
    ensures forall i :: 0 <= i < |InsertCall(sorted, c)| ==> InsertCall(sorted, c)[i] == c || InsertCall(sorted, c)[i] in sorted
  {
    var n := |sorted| - 1;
    if sorted != [] && c.start < sorted[n].start {
      InsertCallSorts(sorted[..n], c);
    }
  }

  lemma {:induction false} SortCallsSorts(cs: seq<Call>)
    ensures StartSorted(SortCalls(cs)) && multiset(SortCalls(cs)) == multiset(cs)
  {
    if cs != [] {
      var n := |cs| - 1;
      SortCallsSorts(cs[..n]);
      InsertCallSorts(SortCalls(cs[..n]), cs[n]);
      InsertCallPermutes(SortCalls(cs[..n]), cs[n]);
      assert cs == cs[..n] + [cs[n]];
    }
  }

  /** When the last of a group's calls is over. */
  function LastEnd(group: seq<Call>): int
    requires group != []
  {
    var n := |group| - 1;
    if n == 0 then CallEnd(group[0])
    else if CallEnd(group[n]) > LastEnd(group[..n]) then CallEnd(group[n]) else LastEnd(group[..n])
  }

  ghost predicate NoEmptyGroup(groups: seq<seq<Call>>) {
    forall i :: 0 <= i < |groups| ==> groups[i] != []
  }

  /** Where the next call goes: with the last group while that still runs, or on its own. */
  function GroupOnto(groups: seq<seq<Call>>, c: Call): seq<seq<Call>>
    requires NoEmptyGroup(groups)
  {
    var n := |groups| - 1;
    if groups != [] && c.start <= LastEnd(groups[n]) then groups[n := groups[n] + [c]] else groups + [[c]]
  }

  function Grouped(byStart: seq<Call>): (groups: seq<seq<Call>>)
    ensures NoEmptyGroup(groups)
  {
    if byStart == [] then [] else GroupOnto(Grouped(byStart[..|byStart| - 1]), byStart[|byStart| - 1])
  }

  function Flatten(groups: seq<seq<Call>>): seq<Call> {
    if groups == [] then [] else Flatten(groups[..|groups| - 1]) + groups[|groups| - 1]
  }

  /** Each later call of a group starts while an earlier one of it runs. */
  ghost predicate Overlapping(group: seq<Call>) {
    group != [] && forall i :: 0 < i < |group| ==> group[i].start <= LastEnd(group[..i])
  }

  /** The groups are apart: every call of one is over before any of a later one starts. */
  ghost predicate Apart(groups: seq<seq<Call>>) {
    NoEmptyGroup(groups)
    && forall i, j :: 0 <= i < j < |groups| ==> LastEnd(groups[i]) < groups[j][0].start
  }

  lemma {:induction false} EndsWithin(group: seq<Call>, k: nat)
    requires k < |group|
    ensures CallEnd(group[k]) <= LastEnd(group)
  {
    var n := |group| - 1;
    if k < n {
      EndsWithin(group[..n], k);
    }
  }

  ghost predicate Runs(groups: seq<seq<Call>>) {
    Apart(groups) && forall i :: 0 <= i < |groups| ==> Overlapping(groups[i])
  }

  lemma {:induction false} HeadInFlatten(groups: seq<seq<Call>>, i: nat)
    requires i < |groups| && groups[i] != []
    ensures groups[i][0] in Flatten(groups)
  {
    var n := |groups| - 1;
    if i < n {
      HeadInFlatten(groups[..n], i);
    } else {
      assert groups[n][0] in groups[n];
    }
  }

  lemma OverlapGrows(group: seq<Call>, c: Call)
    requires Overlapping(group) && c.start <= LastEnd(group)
    ensures Overlapping(group + [c])
  {
    var group' := group + [c];
    forall i | 0 < i < |group'| ensures group'[i].start <= LastEnd(group'[..i]) {
      assert group'[..i] == group[..i];
      assert group[..|group|] == group;
    }
  }

  lemma GroupOntoFlattens(groups: seq<seq<Call>>, c: Call)
    requires NoEmptyGroup(groups)
    ensures Flatten(GroupOnto(groups, c)) == Flatten(groups) + [c]
  {
    var n := |groups| - 1;
    var groups' := GroupOnto(groups, c);
    if groups != [] && c.start <= LastEnd(groups[n]) {
      assert groups'[..n] == groups[..n];
    } else {
      assert groups'[..|groups|] == groups;
    }
  }

  lemma GroupOntoKeepsRuns(groups: seq<seq<Call>>, c: Call)
    requires Runs(groups) && forall i :: 0 <= i < |groups| ==> groups[i][0].start <= c.start
    ensures Runs(GroupOnto(groups, c))
  {
    var n := |groups| - 1;
    var groups' := GroupOnto(groups, c);
    if groups != [] && c.start <= LastEnd(groups[n]) {
      OverlapGrows(groups[n], c);
    } else {
      assert Overlapping([c]);
      forall i | 0 <= i < |groups| ensures LastEnd(groups[i]) < c.start {
        assert i < n ==> LastEnd(groups[i]) < groups[n][0].start;
      }
    }
  }

  lemma HeadsStartBefore(groups: seq<seq<Call>>, byStart: seq<Call>, c: Call)
    requires NoEmptyGroup(groups) && Flatten(groups) == byStart && StartSorted(byStart + [c])
    ensures forall i :: 0 <= i < |groups| ==> groups[i][0].start <= c.start
  {
    forall i | 0 <= i < |groups| ensures groups[i][0].start <= c.start {
      HeadInFlatten(groups, i);
      var k :| 0 <= k < |byStart| && byStart[k] == groups[i][0];
      assert (byStart + [c])[k] == byStart[k] && (byStart + [c])[|byStart|] == c;
    }
  }

  lemma {:induction false} GroupedFlattens(byStart: seq<Call>)
    ensures Flatten(Grouped(byStart)) == byStart
  {
    if byStart != [] {
      var n := |byStart| - 1;
      GroupedFlattens(byStart[..n]);
      GroupOntoFlattens(Grouped(byStart[..n]), byStart[n]);
      assert byStart == byStart[..n] + [byStart[n]];
    }
  }

  /** concurrentHandlers splits the calls, ordered by start, into runs that overlap, apart from each other. */
  lemma {:induction false} GroupsAreRuns(byStart: seq<Call>)
    requires StartSorted(byStart)
    ensures Runs(Grouped(byStart))
  {
    if byStart != [] {
      var before, c := byStart[..|byStart| - 1], byStart[|byStart| - 1];
      assert byStart == before + [c];
      GroupsAreRuns(before);
      GroupedFlattens(before);
      HeadsStartBefore(Grouped(before), before, c);
      GroupOntoKeepsRuns(Grouped(before), c);
      assert Grouped(byStart) == GroupOnto(Grouped(before), c);
    }
  }

  function FirstStart(group: seq<Call>): int
    requires group != []
  {
    var n := |group| - 1;
    if n == 0 then group[0].start
    else if group[n].start < FirstStart(group[..n]) then group[n].start else FirstStart(group[..n])
  }

  lemma {:induction false} FirstStartsFirst(group: seq<Call>)
    requires group != [] && forall k :: 0 <= k < |group| ==> group[0].start <= group[k].start
    ensures FirstStart(group) == group[0].start
  {
    if |group| > 1 {
      FirstStartsFirst(group[..|group| - 1]);
    }
  }

  /** The handler stretch of a group: its first start to its last end. */
  datatype Window = Window(from: int, to: int)

  function WindowOf(group: seq<Call>): Window
    requires group != []
  {
    Window(FirstStart(group), LastEnd(group))
  }

  /** A group's first call starts first. */
  lemma GroupStartsFirst(calls: seq<Call>, g: nat)
    requires g < |Grouped(SortCalls(calls))|
    ensures var group := Grouped(SortCalls(calls))[g];
            FirstStart(group) == group[0].start && forall k :: 0 <= k < |group| ==> group[0].start <= group[k].start
  {
    SortCallsSorts(calls);
    GroupedFlattens(SortCalls(calls));
    var group := Grouped(SortCalls(calls))[g];
    forall k | 0 <= k < |group| ensures group[0].start <= group[k].start {
      GroupSorted(Grouped(SortCalls(calls)), SortCalls(calls), g, k);
    }
    FirstStartsFirst(group);
  }

  /** However the calls overlap, their handler stretches are disjoint and in order, and every call lies in
      one: no moment of wall clock is counted twice, and none of a call's is lost. */
  lemma HandlerWindows(calls: seq<Call>)
    ensures var groups := Grouped(SortCalls(calls));
            Runs(groups) && multiset(Flatten(groups)) == multiset(calls)
            && (forall i, j :: 0 <= i < j < |groups| ==> WindowOf(groups[i]).to < WindowOf(groups[j]).from)
            && (forall i, k :: 0 <= i < |groups| && 0 <= k < |groups[i]| ==>
                  WindowOf(groups[i]).from <= groups[i][k].start && CallEnd(groups[i][k]) <= WindowOf(groups[i]).to)
  {
    SortCallsSorts(calls);
    GroupsAreRuns(SortCalls(calls));
    GroupedFlattens(SortCalls(calls));
    var groups: seq<seq<Call>> := Grouped(SortCalls(calls));
    forall i, k | 0 <= i < |groups| && 0 <= k < |groups[i]|
      ensures WindowOf(groups[i]).from <= groups[i][k].start && CallEnd(groups[i][k]) <= WindowOf(groups[i]).to
    {
      EndsWithin(groups[i], k);
      GroupStartsFirst(calls, i);
    }
    forall i, j | 0 <= i < j < |groups| ensures WindowOf(groups[i]).to < WindowOf(groups[j]).from {
      GroupStartsFirst(calls, j);
    }
  }

  lemma {:induction false} GroupSorted(groups: seq<seq<Call>>, byStart: seq<Call>, i: nat, k: nat)
    requires StartSorted(byStart) && byStart == Flatten(groups)
    requires i < |groups| && k < |groups[i]|
    ensures groups[i][0].start <= groups[i][k].start
  {
    var n := |groups| - 1;
    var before := Flatten(groups[..n]);
    if i < n {
      assert before == byStart[..|before|];
      GroupSorted(groups[..n], before, i, k);
    } else {
      assert byStart[|before|] == groups[n][0] && byStart[|before| + k] == groups[n][k];
    }
  }

  // ---------------------------------------------------------------- a cycle

  /** What the observer has collected for one cycle; None stands for Go's zero time. */
  datatype Cycle = Cycle(turnStart: Option<int>, clientConnected: Option<int>, pipelineStarted: Option<int>,
                         moments: seq<Moment>, textAggregation: Option<int>, calls: seq<Call>,
                         markersSeen: bool, minContribution: int)

  function Later(a: Option<int>, b: Option<int>): Option<int> {
    if a.None? then b else if b.Some? && b.value > a.value then b else a
  }

  /** When the interval starts: with the user's silence, or for a greeting once both sides are there. */
  function Anchor(c: Cycle): Option<int> {
    if c.turnStart.Some? then c.turnStart else Later(c.clientConnected, c.pipelineStarted)
  }

  predicate Seen(ms: seq<Moment>, kind: Kind) {
    exists i :: 0 <= i < |ms| && ms[i].kind == kind
  }

  function Observed(ms: seq<Moment>, start: int): seq<Moment> {
    if ms == [] then []
    else
      var n := |ms| - 1;
      Observed(ms[..n], start) + if ms[n].at >= start then [ms[n]] else []
  }

  function FirstOf(ms: seq<Moment>, kind: Kind): (i: nat)
    ensures i <= |ms| && (i < |ms| ==> ms[i].kind == kind) && forall j :: 0 <= j < i ==> ms[j].kind != kind
  {
    if ms == [] || ms[0].kind == kind then 0 else 1 + FirstOf(ms[1..], kind)
  }

  function Decimal(n: nat): string {
    (if n < 10 then "" else Decimal(n / 10)) + [(n % 10 + 48) as char]
  }

  function Slowest(group: seq<Call>): Call
    requires group != []
  {
    var n := |group| - 1;
    if n == 0 then group[0]
    else if group[n].duration > Slowest(group[..n]).duration then group[n] else Slowest(group[..n])
  }

  function HandlerOwner(group: seq<Call>): string
    requires group != []
  {
    Slowest(group).name + if |group| > 1 then " +" + Decimal(|group| - 1) else ""
  }

  function HandlerMoments(groups: seq<seq<Call>>): seq<Moment>
    requires NoEmptyGroup(groups)
  {
    if groups == [] then []
    else
      var n := |groups| - 1;
      var w := WindowOf(groups[n]);
      HandlerMoments(groups[..n])
      + [Moment(w.from, HandlersStart, "", true), Moment(w.to, HandlersEnd, HandlerOwner(groups[n]), true)]
  }

  function SentenceMoments(ms: seq<Moment>, textAggregation: Option<int>): seq<Moment> {
    var i := FirstOf(ms, FirstText);
    if textAggregation.Some? && textAggregation.value > 0 && i < |ms|
    then [Moment(ms[i].at + textAggregation.value, Sentence, "", true)] else []
  }

  function Derived(c: Cycle): seq<Moment> {
    SentenceMoments(c.moments, c.textAggregation) + HandlerMoments(Grouped(SortCalls(c.calls)))
  }

  function Timeline(c: Cycle, start: int): seq<Moment> {
    Sort([Moment(start, if c.turnStart.Some? then Silence else Ready, "", false)] + Observed(c.moments, start) + Derived(c))
  }

  function MinOf(c: Cycle): int {
    if c.minContribution == 0 then DEFAULT_MIN_CONTRIBUTION else c.minContribution
  }

  /** Of the named stretches, merged, those that are listed. */
  function KeptOf(named: seq<(Contribution, bool)>, min: int): seq<Contribution> {
    Filter(named, min, Merge(Stretches(named)))
  }

  function Kept(c: Cycle, start: int): seq<Contribution> {
    KeptOf(NameAll(Timeline(c, start), c.markersSeen), MinOf(c))
  }

  function PipelineLine(start: int, duration: int): Contribution {
    Contribution(Pipeline, Jargo, PipelineKind, start, duration)
  }

  function WithPipeline(kept: seq<Contribution>, start: int, interval: int): seq<Contribution> {
    var rest := interval - Total(kept);
    kept + if rest >= PRINTS_AS_ZERO then [PipelineLine(start, rest)] else []
  }

  lemma SortNotEmpty(ms: seq<Moment>)
    requires ms != []
    ensures Sort(ms) != []
  {
    SortSorts(ms);
    assert ms[0] in multiset(ms);
    assert ms[0] in multiset(Sort(ms));
  }

  /** The interval a cycle is measured over: from its anchor to its last moment. */
  function Interval(c: Cycle, start: int): int {
    SortNotEmpty([Moment(start, if c.turnStart.Some? then Silence else Ready, "", false)] + Observed(c.moments, start) + Derived(c));
    var ms := Timeline(c, start);
    ms[|ms| - 1].at - start
  }

  function Build(c: Cycle): seq<Contribution> {
    var anchor := Anchor(c);
    if anchor.None? || !Seen(c.moments, BotSpeaking) then []
    else WithPipeline(Kept(c, anchor.value), anchor.value, Interval(c, anchor.value))
  }

  lemma {:induction false} ObservedAfter(ms: seq<Moment>, start: int)
    ensures forall m :: m in Observed(ms, start) <==> m in ms && m.at >= start
  {
    if ms != [] {
      var n := |ms| - 1;
      ObservedAfter(ms[..n], start);
      assert ms == ms[..n] + [ms[n]];
    }
  }

  lemma TimelineHoldsAnchor(c: Cycle, start: int)
    ensures var ms := Timeline(c, start); ms != [] && Sorted(ms) && ms[0].at <= start <= ms[|ms| - 1].at
  {
    var anchor := Moment(start, if c.turnStart.Some? then Silence else Ready, "", false);
    var all := [anchor] + Observed(c.moments, start) + Derived(c);
    SortSorts(all);
    var ms := Sort(all);
    assert all[0] == anchor && anchor in multiset(all);
    assert anchor in multiset(ms);
    var k :| 0 <= k < |ms| && ms[k] == anchor;
    assert k > 0 ==> !Before(ms[k], ms[0]);
    assert k < |ms| - 1 ==> !Before(ms[|ms| - 1], ms[k]);
  }

  lemma TimelineStartsAtAnchor(c: Cycle, start: int)
    requires forall m :: m in Derived(c) ==> m.at >= start
    ensures var ms := Timeline(c, start); ms != [] && ms[0].at == start
  {
    var anchor := Moment(start, if c.turnStart.Some? then Silence else Ready, "", false);
    var all := [anchor] + Observed(c.moments, start) + Derived(c);
    TimelineHoldsAnchor(c, start);
    SortSorts(all);
    ObservedAfter(c.moments, start);
    var ms := Sort(all);
    assert ms[0] in multiset(ms);
    assert ms[0] in multiset(all);
    assert ms[0] in all;
  }

  /** The kept stretches are disjoint and in order between the first and the last moment. */
  lemma KeptIsChained(c: Cycle, start: int) returns (from: int)
    ensures Timeline(c, start) != [] && from == Timeline(c, start)[0].at && Interval(c, start) >= 0
    ensures Chained(Kept(c, start), from, start + Interval(c, start))
  {
    TimelineHoldsAnchor(c, start);
    var named := NameAll(Timeline(c, start), c.markersSeen);
    from := Timeline(c, start)[0].at;
    var end := start + Interval(c, start);
    NamesAreChained(Timeline(c, start), c.markersSeen);
    MergeJoins(Stretches(named), from, end);
    FilterKeepsChained(named, MinOf(c), Merge(Stretches(named)), from, end);
  }

  /** Every kept stretch starts within the cycle. */
  ghost predicate StartsInside(cs: seq<Contribution>, start: int) {
    forall i :: 0 <= i < |cs| ==> start <= cs[i].start
  }

  lemma RemainderSums(kept: seq<Contribution>, start: int, interval: int)
    ensures var cs := WithPipeline(kept, start, interval);
            kept <= cs
            && (if |cs| > |kept| then Total(cs) == interval else Total(cs) == Total(kept) && interval < Total(cs) + PRINTS_AS_ZERO)
  {
    var cs := WithPipeline(kept, start, interval);
    if |cs| > |kept| {
      assert cs[..|kept|] == kept;
    } else {
      assert cs == kept;
    }
  }

  /** Contributions account for the cycle. The named stretches are disjoint, in order and inside the interval
      if and only if none of them starts before it, which no stretch does when no derived moment precedes it.
      Then, with the pipeline line, they sum to at most the interval, and fall short of it by less than what
      would print; and when the pipeline line is there, they sum to it exactly. */
  lemma ContributionsTileTheCycle(c: Cycle, start: int)
    requires Anchor(c) == Some(start) && Seen(c.moments, BotSpeaking)
    ensures Chained(Kept(c, start), start, start + Interval(c, start)) <==> StartsInside(Kept(c, start), start)
    ensures (forall m :: m in Derived(c) ==> m.at >= start) ==> StartsInside(Kept(c, start), start)
    ensures Kept(c, start) <= Build(c)
    ensures |Build(c)| > |Kept(c, start)| ==> Total(Build(c)) == Interval(c, start)
    ensures StartsInside(Kept(c, start), start) ==> Total(Build(c)) <= Interval(c, start) < Total(Build(c)) + PRINTS_AS_ZERO
  {
    var kept := Kept(c, start);
    var _ := KeptIsChained(c, start);
    BuildIs(c, start);
    RemainderSums(kept, start, Interval(c, start));
    if forall m :: m in Derived(c) ==> m.at >= start {
      TimelineStartsAtAnchor(c, start);
    }
    if StartsInside(kept, start) {
      ChainedFits(kept, start, start + Interval(c, start));
    }
  }

  // ---------------------------------------------------------------- stretches that start before the cycle

  lemma {:induction false} MergedFromStretch(cs: seq<Contribution>, k: nat) returns (i: nat)
    requires k < |Merge(cs)|
    ensures i < |cs| && cs[i].start == Merge(cs)[k].start && cs[i].stage == Merge(cs)[k].stage
  {
    var n := |cs| - 1;
    var earlier := Merge(cs[..n]);
    assert Merge(cs) == MergeOnto(earlier, cs[n]);
    if k < |earlier| {
      i := MergedFromStretch(cs[..n], k);
    } else {
      i := n;
    }
  }

  lemma {:induction false} NamedFromMoments(ms: seq<Moment>, markersSeen: bool, i: nat) returns (j: nat)
    requires i < |NameAll(ms, markersSeen)|
    ensures j + 1 < |ms| && ContributionFor(ms[j], ms[j + 1], markersSeen) == Some(NameAll(ms, markersSeen)[i])
  {
    var n := |ms| - 1;
    if i < |NameAll(ms[..n], markersSeen)| {
      j := NamedFromMoments(ms[..n], markersSeen, i);
    } else {
      j := n - 1;
    }
  }

  lemma {:induction false} MomentsAreNamed(ms: seq<Moment>, markersSeen: bool, j: nat) returns (i: nat)
    requires j + 1 < |ms| && ContributionFor(ms[j], ms[j + 1], markersSeen).Some?
    ensures i < |NameAll(ms, markersSeen)| && Some(NameAll(ms, markersSeen)[i]) == ContributionFor(ms[j], ms[j + 1], markersSeen)
  {
    var n := |ms| - 1;
    if j + 1 < n {
      i := MomentsAreNamed(ms[..n], markersSeen, j);
    } else {
      i := |NameAll(ms[..n], markersSeen)|;
    }
  }

  lemma {:induction false} HandlerMomentsAre(groups: seq<seq<Call>>, m: Moment)
    requires NoEmptyGroup(groups) && m in HandlerMoments(groups)
    ensures m.kind.HandlersEnd? || (m.kind.HandlersStart? && exists g :: 0 <= g < |groups| && WindowOf(groups[g]).from == m.at)
  {
    var n := |groups| - 1;
    if m in HandlerMoments(groups[..n]) {
      HandlerMomentsAre(groups[..n], m);
      if m.kind.HandlersStart? {
        var g :| 0 <= g < n && WindowOf(groups[..n][g]).from == m.at;
        assert WindowOf(groups[g]).from == m.at;
      }
    } else {
      assert m.at == WindowOf(groups[n]).from || m.kind.HandlersEnd?;
    }
  }

  lemma TimelineIs(c: Cycle, start: int, m: Moment)
    ensures m in Timeline(c, start)
            <==> m == Moment(start, if c.turnStart.Some? then Silence else Ready, "", false)
                 || (m in c.moments && m.at >= start) || m in Derived(c)
  {
    var anchor := Moment(start, if c.turnStart.Some? then Silence else Ready, "", false);
    var all := [anchor] + Observed(c.moments, start) + Derived(c);
    SortSorts(all);
    ObservedAfter(c.moments, start);
    assert m in Sort(all) <==> m in multiset(Sort(all));
    assert m in all <==> m in multiset(all);
  }

  /** The handler stretch of some group opens at this time. */
  ghost predicate OpensAt(calls: seq<Call>, at: int) {
    exists g :: 0 <= g < |Grouped(SortCalls(calls))| && WindowOf(Grouped(SortCalls(calls))[g]).from == at
  }

  lemma KeptIsMerged(c: Cycle, start: int, kept: Contribution)
    requires kept in Kept(c, start)
    ensures kept in Merge(Stretches(NameAll(Timeline(c, start), c.markersSeen)))
  {
    TimelineHoldsAnchor(c, start);
    var ms := Timeline(c, start);
    var named := NameAll(ms, c.markersSeen);
    NamesAreChained(ms, c.markersSeen);
    MergeJoins(Stretches(named), ms[0].at, ms[|ms| - 1].at);
    FilterKeepsChained(named, MinOf(c), Merge(Stretches(named)), ms[0].at, ms[|ms| - 1].at);
  }

  /** A merged stretch starts where two neighbouring moments say what it says. */
  lemma MergedOpens(ms: seq<Moment>, markersSeen: bool, out: Contribution) returns (j: nat)
    requires out in Merge(Stretches(NameAll(ms, markersSeen)))
    ensures j + 1 < |ms| && ms[j].at == out.start
    ensures ContributionFor(ms[j], ms[j + 1], markersSeen).Some?
    ensures ContributionFor(ms[j], ms[j + 1], markersSeen).value.0.stage == out.stage
  {
    var cs := Stretches(NameAll(ms, markersSeen));
    var p :| 0 <= p < |Merge(cs)| && Merge(cs)[p] == out;
    var i := MergedFromStretch(cs, p);
    j := NamedFromMoments(ms, markersSeen, i);
  }

  /** What a derived moment can open. */
  lemma OpenedStage(opener: Moment, closer: Moment, markersSeen: bool)
    requires ContributionFor(opener, closer, markersSeen).Some?
    ensures var stage := ContributionFor(opener, closer, markersSeen).value.0.stage;
            !opener.kind.HandlersEnd?
            && (opener.kind.HandlersStart? ==> stage == FunctionHandler) && (opener.kind.Sentence? ==> stage == SpeechSynthesis)
  {
  }

  lemma DerivedIs(c: Cycle, m: Moment)
    requires m in Derived(c)
    ensures m.kind.HandlersEnd? || (m.kind.HandlersStart? && OpensAt(c.calls, m.at))
            || (m.kind.Sentence? && m in SentenceMoments(c.moments, c.textAggregation))
  {
    if m in HandlerMoments(Grouped(SortCalls(c.calls))) {
      HandlerMomentsAre(Grouped(SortCalls(c.calls)), m);
    }
  }

  lemma DerivedOpens(c: Cycle, opener: Moment, closer: Moment)
    requires opener in Derived(c) && ContributionFor(opener, closer, c.markersSeen).Some?
    ensures var stage := ContributionFor(opener, closer, c.markersSeen).value.0.stage;
            (stage == FunctionHandler && OpensAt(c.calls, opener.at))
            || (stage == SpeechSynthesis && exists m :: m in SentenceMoments(c.moments, c.textAggregation) && m.at == opener.at)
  {
    DerivedIs(c, opener);
    OpenedStage(opener, closer, c.markersSeen);
  }

  /** Which stretches start before the interval: those of handlers that had started by then, and the synthesis
      of a sentence whose moment is derived that early. */
  lemma EarlyStretchesAreDerived(c: Cycle, start: int, early: Contribution)
    requires early in Kept(c, start) && early.start < start
    ensures (early.stage == FunctionHandler && OpensAt(c.calls, early.start))
            || (early.stage == SpeechSynthesis && exists m :: m in SentenceMoments(c.moments, c.textAggregation) && m.at == early.start)
  {
    var ms := Timeline(c, start);
    KeptIsMerged(c, start, early);
    var j := MergedOpens(ms, c.markersSeen, early);
    TimelineIs(c, start, ms[j]);
    DerivedOpens(c, ms[j], ms[j + 1]);
  }

  /** A handler's moments, with nothing else derived between them, before the interval began. */
  ghost predicate RanBefore(c: Cycle, start: int, opener: Moment, closer: Moment) {
    opener in Derived(c) && closer in Derived(c) && opener.kind.HandlersStart? && closer.kind.HandlersEnd?
    && opener.at < closer.at < start
    && forall m :: m in Derived(c) && opener.at <= m.at <= closer.at ==> m == opener || m == closer
  }

  lemma {:induction false} LastOf(ms: seq<Moment>, m: Moment) returns (k: nat)
    requires m in ms
    ensures k < |ms| && ms[k] == m && forall j :: k < j < |ms| ==> ms[j] != m
  {
    k := |ms| - 1;
    if ms[k] != m {
      k := LastOf(ms[..k], m);
    }
  }

  lemma TheyAreNeighbours(c: Cycle, start: int, opener: Moment, closer: Moment) returns (k: nat)
    requires RanBefore(c, start, opener, closer)
    ensures k + 1 < |Timeline(c, start)| && Timeline(c, start)[k] == opener && Timeline(c, start)[k + 1] == closer
  {
    var ms := Timeline(c, start);
    TimelineHoldsAnchor(c, start);
    TimelineIs(c, start, opener);
    TimelineIs(c, start, closer);
    k := LastOf(ms, opener);
    var l :| 0 <= l < |ms| && ms[l] == closer;
    assert k < l by {
      assert l < k ==> !Before(ms[k], ms[l]);
    }
    assert !Before(ms[k + 1], ms[k]) && (k + 1 < l ==> !Before(ms[l], ms[k + 1]));
    TimelineIs(c, start, ms[k + 1]);
  }

  /** A named stretch long enough to list is within a listed one. */
  lemma LongStretchIsKept(c: Cycle, start: int, j: nat) returns (q: nat)
    requires j + 1 < |Timeline(c, start)|
    requires var r := ContributionFor(Timeline(c, start)[j], Timeline(c, start)[j + 1], c.markersSeen);
             r.Some? && r.value.0.duration >= MinOf(c)
    ensures q < |Kept(c, start)| && Kept(c, start)[q].start <= Timeline(c, start)[j].at
  {
    var ms := Timeline(c, start);
    var cs := Stretches(NameAll(ms, c.markersSeen));
    var i := MomentsAreNamed(ms, c.markersSeen, j);
    TimelineHoldsAnchor(c, start);
    NamesAreChained(ms, c.markersSeen);
    var p := MergeAbsorbs(cs, ms[0].at, ms[|ms| - 1].at, i);
    LongIsKept(c, start, Merge(cs)[p]);
    q :| 0 <= q < |Kept(c, start)| && Kept(c, start)[q] == Merge(cs)[p];
  }

  /** So whenever a handler was over before the interval began, and its stretch is long enough to list, some
      stretch starts before it: the claim above fails for the cycle, however short the interval. */
  lemma EarlyHandlerIsCharged(c: Cycle, start: int, opener: Moment, closer: Moment)
    requires RanBefore(c, start, opener, closer) && closer.at - opener.at >= MinOf(c)
    ensures !StartsInside(Kept(c, start), start)
  {
    var k := TheyAreNeighbours(c, start, opener, closer);
    HandlerIsCharged(c, start, k);
  }

  lemma HandlerIsCharged(c: Cycle, start: int, j: nat)
    requires OverBefore(c, start, j) && Timeline(c, start)[j + 1].at - Timeline(c, start)[j].at >= MinOf(c)
    ensures !StartsInside(Kept(c, start), start)
  {
    assert ContributionFor(Timeline(c, start)[j], Timeline(c, start)[j + 1], c.markersSeen).Some?;
    var q := LongStretchIsKept(c, start, j);
    assert Kept(c, start)[q].start < start;
  }

  /** A handler's stretch, unbroken by anything the cycle knows of, was over when the interval began. */
  ghost predicate OverBefore(c: Cycle, start: int, j: nat) {
    var ms := Timeline(c, start);
    j + 1 < |ms| && ms[j].kind.HandlersStart? && ms[j + 1].kind.HandlersEnd? && ms[j].at < ms[j + 1].at <= start && ms[j].at < start
  }

  lemma HandlerCloses(opener: Moment, closer: Moment, markersSeen: bool)
    requires opener.kind.HandlersStart? && ContributionFor(opener, closer, markersSeen).Some?
    ensures closer.kind.HandlersEnd? && opener.at < closer.at
  {
  }

  /** What comes before another moment than the anchor, and starts before it, is over by then. */
  lemma BeforeAnchor(ms: seq<Moment>, anchor: Moment, j: nat)
    requires Sorted(ms) && anchor in ms && j + 1 < |ms| && ms[j].at < anchor.at && ms[j + 1] != anchor
    ensures ms[j + 1].at <= anchor.at
  {
    var a :| 0 <= a < |ms| && ms[a] == anchor;
    assert Before(ms[j], ms[a]);
    assert j + 1 < a ==> !Before(ms[a], ms[j + 1]);
  }

  lemma EarlyNeighbours(c: Cycle, start: int, j: nat)
    requires SentenceMoments(c.moments, c.textAggregation) == []
    requires j + 1 < |Timeline(c, start)| && Timeline(c, start)[j].at < start
    requires ContributionFor(Timeline(c, start)[j], Timeline(c, start)[j + 1], c.markersSeen).Some?
    ensures OverBefore(c, start, j)
  {
    var ms := Timeline(c, start);
    var anchor := Moment(start, if c.turnStart.Some? then Silence else Ready, "", false);
    TimelineIs(c, start, ms[j]);
    TimelineIs(c, start, anchor);
    DerivedIs(c, ms[j]);
    OpenedStage(ms[j], ms[j + 1], c.markersSeen);
    HandlerCloses(ms[j], ms[j + 1], c.markersSeen);
    TimelineHoldsAnchor(c, start);
    BeforeAnchor(ms, anchor, j);
  }

  /** Where nothing is derived but handlers, and each that was over before the interval ran for long enough to
      be listed, a stretch starts before the interval if and only if there is such a handler. */
  lemma StartsInsideIff(c: Cycle, start: int)
    requires SentenceMoments(c.moments, c.textAggregation) == []
    requires forall j: nat :: OverBefore(c, start, j) ==> Timeline(c, start)[j + 1].at - Timeline(c, start)[j].at >= MinOf(c)
    ensures StartsInside(Kept(c, start), start) <==> forall j: nat :: !OverBefore(c, start, j)
  {
    var kept, ms := Kept(c, start), Timeline(c, start);
    if i :| 0 <= i < |kept| && kept[i].start < start {
      KeptIsMerged(c, start, kept[i]);
      var j := MergedOpens(ms, c.markersSeen, kept[i]);
      EarlyNeighbours(c, start, j);
    } else if j: nat :| OverBefore(c, start, j) {
      HandlerIsCharged(c, start, j);
    }
  }

  lemma LongIsKept(c: Cycle, start: int, out: Contribution)
    requires out in Merge(Stretches(NameAll(Timeline(c, start), c.markersSeen))) && out.duration >= MinOf(c)
    ensures out in Kept(c, start)
  {
    TimelineHoldsAnchor(c, start);
    var ms := Timeline(c, start);
    var named := NameAll(ms, c.markersSeen);
    NamesAreChained(ms, c.markersSeen);
    MergeJoins(Stretches(named), ms[0].at, ms[|ms| - 1].at);
    FilterKeepsChained(named, MinOf(c), Merge(Stretches(named)), ms[0].at, ms[|ms| - 1].at);
  }

  /** A turn with nothing observed but the bot's answer, and one call that was over before it began. */
  ghost predicate Early(c: Cycle, start: int) {
    c.turnStart == Some(start) && c.textAggregation == None
    && |c.moments| == 1 && c.moments[0].kind.BotSpeaking? && !c.moments[0].derived && start < c.moments[0].at
    && |c.calls| == 1 && c.calls[0].duration > 0 && CallEnd(c.calls[0]) < start
  }

  lemma OneGroup(g: seq<Call>)
    requires |g| == 1
    ensures Grouped(SortCalls(g)) == [g]
  {
    var none: seq<seq<Call>> := [];
    assert g[..0] == [] && SortCalls(g) == g;
    assert Grouped(g[..0]) == none;
    assert GroupOnto(none, g[0]) == none + [[g[0]]] == [g];
  }

  lemma OneWindow(gs: seq<seq<Call>>)
    requires |gs| == 1 && NoEmptyGroup(gs)
    ensures var ms := HandlerMoments(gs);
            |ms| == 2 && ms[0] == Moment(WindowOf(gs[0]).from, HandlersStart, "", true)
            && ms[1] == Moment(WindowOf(gs[0]).to, HandlersEnd, HandlerOwner(gs[0]), true)
  {
    assert gs[..0] == [];
  }

  lemma EarlyDerived(c: Cycle, start: int)
    requires Early(c, start)
    ensures var ms := Derived(c);
            |ms| == 2 && ms[0] == Moment(c.calls[0].start, HandlersStart, "", true)
            && ms[1] == Moment(CallEnd(c.calls[0]), HandlersEnd, HandlerOwner(c.calls), true)
  {
    var gs := Grouped(SortCalls(c.calls));
    OneGroup(c.calls);
    OneWindow(gs);
    assert gs[0] == c.calls;
    assert Derived(c) == HandlerMoments(gs);
  }

  lemma AllObserved(ms: seq<Moment>, start: int)
    requires |ms| == 1 && ms[0].at >= start
    ensures Observed(ms, start) == ms
  {
    assert ms[..0] == [] && Observed(ms[..0], start) == [];
  }

  lemma InFront(a: Moment, b: seq<Moment>, ms: seq<Moment>)
    requires |b| == 1
    ensures var all := [a] + b + ms;
            |all| == |ms| + 2 && all[0] == a && all[1] == b[0] && forall i :: 0 <= i < |ms| ==> all[i + 2] == ms[i]
  {
  }

  lemma EarlySorts(c: Cycle, start: int)
    requires Early(c, start)
    ensures Timeline(c, start) == Sort([Moment(start, Silence, "", false)] + c.moments + Derived(c))
  {
    AllObserved(c.moments, start);
  }

  lemma EarlyTimeline(c: Cycle, start: int)
    requires Early(c, start)
    ensures var ms := Timeline(c, start);
            |ms| == 4 && ms[0] == Moment(c.calls[0].start, HandlersStart, "", true)
            && ms[1] == Moment(CallEnd(c.calls[0]), HandlersEnd, HandlerOwner(c.calls), true)
            && ms[2] == Moment(start, Silence, "", false) && ms[3] == c.moments[0]
  {
    var silent := Moment(start, Silence, "", false);
    var ms := [silent] + c.moments + Derived(c);
    EarlyDerived(c, start);
    InFront(silent, c.moments, Derived(c));
    EarlySorts(c, start);
    assert ms[2] == Derived(c)[0] && ms[3] == Derived(c)[1];
    FourSorted(ms);
  }

  lemma FourSorted(ms: seq<Moment>)
    requires |ms| == 4 && ms[2].at < ms[3].at < ms[0].at < ms[1].at
    ensures Sort(ms) == [ms[2], ms[3], ms[0], ms[1]]
  {
    var three, two, one := ms[..3], ms[..2], ms[..1];
    assert three[..2] == two == [ms[0], ms[1]] && two[..1] == one == [ms[0]] && one[..0] == [];
    assert Sort(one) == one;
    assert Sort(two) == two;
    InsertsFirst(ms[0], ms[1], ms[2]);
    InsertsSecond(ms[2], ms[0], ms[1], ms[3]);
  }

  lemma InsertsFirst(a: Moment, b: Moment, m: Moment)
    requires m.at < a.at < b.at
    ensures Insert([a, b], m) == [m, a, b]
  {
    assert [a, b][..1] == [a] && [a][..0] == [];
    assert Insert([a], m) == [m, a];
  }

  lemma InsertsSecond(a: Moment, b: Moment, c: Moment, m: Moment)
    requires a.at < m.at < b.at < c.at
    ensures Insert([a, b, c], m) == [a, m, b, c]
  {
    assert [a, b, c][..2] == [a, b] && [a, b][..1] == [a];
    assert Insert([a], m) == [a, m];
    assert Insert([a, b], m) == [a, m, b];
  }

  /** Of the four moments only the handler's two say anything together. */
  lemma EarlyNamed(ms: seq<Moment>, markersSeen: bool)
    requires |ms| == 4 && ms[0].kind.HandlersStart? && ms[1].kind.HandlersEnd?
    requires ms[2].kind.Silence? && ms[3].kind.BotSpeaking? && ms[0].at < ms[1].at
    ensures var named := NameAll(ms, markersSeen);
            |named| == 1 && !named[0].1 && named[0].0.duration == ms[1].at - ms[0].at
  {
    var three, two, one := ms[..3], ms[..2], ms[..1];
    assert three[..2] == two && two[..1] == one;
    assert NameAll(one, markersSeen) == [];
    assert ContributionFor(ms[0], ms[1], markersSeen).Some?;
    assert ContributionFor(ms[1], ms[2], markersSeen) == None;
    assert ContributionFor(ms[2], ms[3], markersSeen) == None;
    assert |NameAll(two, markersSeen)| == 1;
    assert NameAll(three, markersSeen) == NameAll(two, markersSeen);
  }

  lemma OneMerged(cs: seq<Contribution>)
    requires |cs| == 1
    ensures Merge(cs) == cs && Total(cs) == cs[0].duration
  {
    assert cs[..0] == [] && Merge(cs[..0]) == [] && Total(cs[..0]) == 0;
  }

  lemma OneFiltered(named: seq<(Contribution, bool)>, min: int, cs: seq<Contribution>)
    requires |cs| == 1 && cs[0].duration >= min
    ensures Filter(named, min, cs) == cs
  {
    assert cs[..0] == [] && Filter(named, min, cs[..0]) == [];
  }

  lemma OneKept(c: Cycle, start: int)
    requires var named := NameAll(Timeline(c, start), c.markersSeen); |named| == 1 && named[0].0.duration >= MinOf(c)
    ensures |Kept(c, start)| == 1
    ensures Total(Kept(c, start)) == NameAll(Timeline(c, start), c.markersSeen)[0].0.duration
  {
    var named := NameAll(Timeline(c, start), c.markersSeen);
    var cs := Stretches(named);
    OneMerged(cs);
    OneFiltered(named, MinOf(c), cs);
    KeptIs(c, start);
  }

  lemma EarlyKept(c: Cycle, start: int)
    requires Early(c, start) && c.calls[0].duration >= MinOf(c)
    ensures |Kept(c, start)| == 1 && Total(Kept(c, start)) == c.calls[0].duration
  {
    EarlyTimeline(c, start);
    EarlyNamed(Timeline(c, start), c.markersSeen);
    OneKept(c, start);
  }

  lemma EarlyInterval(c: Cycle, start: int)
    requires Early(c, start)
    ensures Interval(c, start) == c.moments[0].at - start
  {
    EarlyTimeline(c, start);
    IntervalIs(c, start);
  }

  /** A handler that ran before the anchor breaks that: calls are timed while no cycle is open, and one that
      was over before the user fell silent is charged to the cycle in full, however short the cycle. */
  lemma CallBeforeAnchorOverflows(c: Cycle, start: int)
    requires Early(c, start) && c.calls[0].duration >= MinOf(c) && c.calls[0].duration > c.moments[0].at - start
    ensures Anchor(c) == Some(start) && Interval(c, start) == c.moments[0].at - start
    ensures Total(Build(c)) == c.calls[0].duration > Interval(c, start)
  {
    EarlyKept(c, start);
    EarlyInterval(c, start);
    assert c.moments[0].kind == BotSpeaking;
    BuildIs(c, start);
  }

  // ---------------------------------------------------------------- the observer

  function Dropping(ms: seq<Moment>, kind: Kind): seq<Moment> {
    if ms == [] then []
    else
      var n := |ms| - 1;
      Dropping(ms[..n], kind) + if ms[n].kind == kind then [] else [ms[n]]
  }

  /** Dropping a kind leaves the other moments in order: at says where each was. */
  lemma {:induction false} DroppingKeepsOrder(ms: seq<Moment>, kind: Kind) returns (at: seq<nat>)
    ensures |at| == |Dropping(ms, kind)| && forall i, j :: 0 <= i < j < |at| ==> at[i] < at[j]
    ensures forall i :: 0 <= i < |at| ==> at[i] < |ms| && Dropping(ms, kind)[i] == ms[at[i]] && ms[at[i]].kind != kind
  {
    if ms == [] {
      at := [];
    } else {
      var n := |ms| - 1;
      at := DroppingKeepsOrder(ms[..n], kind);
      if ms[n].kind != kind {
        at := at + [n];
      }
    }
  }

  /** And leaves all of them. */
  lemma {:induction false} DroppingKeepsRest(ms: seq<Moment>, kind: Kind, m: Moment)
    ensures multiset(Dropping(ms, kind))[m] == if m.kind == kind then 0 else multiset(ms)[m]
  {
    if ms != [] {
      var n := |ms| - 1;
      DroppingKeepsRest(ms[..n], kind, m);
      assert ms == ms[..n] + [ms[n]];
    }
  }

  /** The slowest call of a group is as slow as any and slower than those before it, and the group's stretch runs
      from the start of one of its calls to the end of one, around all of them. */
  lemma {:induction false} GroupExtremes(group: seq<Call>) returns (slowest: nat, first: nat, last: nat)
    requires group != []
    ensures slowest < |group| && Slowest(group) == group[slowest]
    ensures forall k :: 0 <= k < |group| ==> group[k].duration <= group[slowest].duration
    ensures forall k :: 0 <= k < slowest ==> group[k].duration < group[slowest].duration
    ensures first < |group| && last < |group| && WindowOf(group) == Window(group[first].start, CallEnd(group[last]))
    ensures forall k :: 0 <= k < |group| ==> group[first].start <= group[k].start && CallEnd(group[k]) <= CallEnd(group[last])
  {
    var n := |group| - 1;
    if n == 0 {
      slowest, first, last := 0, 0, 0;
    } else {
      slowest, first, last := GroupExtremes(group[..n]);
      var before := group[..n];
      assert forall k :: 0 <= k < n ==> before[k] == group[k];
      slowest := if group[n].duration > before[slowest].duration then n else slowest;
      first := if group[n].start < before[first].start then n else first;
      last := if CallEnd(group[n]) > CallEnd(before[last]) then n else last;
    }
  }

  function Value(digits: string): int {
    if digits == "" then 0 else 10 * Value(digits[..|digits| - 1]) + digits[|digits| - 1] as int - 48
  }

  /** The count in a handler's owner reads as the number it is. */
  lemma {:induction false} DecimalReads(n: nat)
    ensures Value(Decimal(n)) == n && Decimal(n) != ""
  {
    var d := Decimal(n);
    if n >= 10 {
      DecimalReads(n / 10);
      assert d[..|d| - 1] == Decimal(n / 10);
    } else {
      assert d[..|d| - 1] == "";
    }
  }

  method MergeAdjacent(cs: seq<Contribution>) returns (merged: seq<Contribution>)
    ensures merged == Merge(cs)
  {
    merged := [];
    for i := 0 to |cs|
      invariant merged == Merge(cs[..i])
    {
      var c := cs[i];
      assert cs[..i + 1][..i] == cs[..i];
      if |merged| > 0 {
        var n := |merged| - 1;
        var gap := c.start - (merged[n].start + merged[n].duration);
        if gap < PRINTS_AS_ZERO && merged[n].stage == c.stage && merged[n].owner == c.owner {
          merged := merged[n := merged[n].(duration := c.start + c.duration - merged[n].start)];
          continue;
        }
      }
      merged := merged + [c];
    }
    assert cs[..|cs|] == cs;
  }

  method LatestEnd(group: seq<Call>) returns (end: int)
    requires group != []
    ensures end == LastEnd(group)
  {
    end := CallEnd(group[0]);
    for k := 1 to |group|
      invariant end == LastEnd(group[..k])
    {
      assert group[..k + 1][..k] == group[..k];
      if CallEnd(group[k]) > end {
        end := CallEnd(group[k]);
      }
    }
    assert group[..|group|] == group;
  }

  lemma GroupedNext(byStart: seq<Call>, i: nat)
    requires i < |byStart|
    ensures Grouped(byStart[..i + 1]) == GroupOnto(Grouped(byStart[..i]), byStart[i])
  {
    assert byStart[..i + 1][..i] == byStart[..i];
  }

  /** One turn of the loop in concurrentHandlers. */
  method AddCall(groups: seq<seq<Call>>, call: Call) returns (grown: seq<seq<Call>>)
    requires NoEmptyGroup(groups)
    ensures grown == GroupOnto(groups, call)
  {
    if |groups| > 0 {
      var last := groups[|groups| - 1];
      var end := LatestEnd(last);
      if call.start <= end {
        return groups[|groups| - 1 := last + [call]];
      }
    }
    return groups + [[call]];
  }

  lemma HandlerMomentsNext(groups: seq<seq<Call>>, g: nat)
    requires NoEmptyGroup(groups) && g < |groups|
    ensures HandlerMoments(groups[..g + 1])
            == HandlerMoments(groups[..g]) + [Moment(FirstStart(groups[g]), HandlersStart, "", true),
                                              Moment(LastEnd(groups[g]), HandlersEnd, HandlerOwner(groups[g]), true)]
  {
    assert groups[..g + 1][..g] == groups[..g];
  }

  lemma IntervalIs(c: Cycle, start: int)
    ensures Timeline(c, start) != [] && Interval(c, start) == Timeline(c, start)[|Timeline(c, start)| - 1].at - start
  {
    SortNotEmpty([Moment(start, if c.turnStart.Some? then Silence else Ready, "", false)] + Observed(c.moments, start) + Derived(c));
  }

  lemma BuildIs(c: Cycle, start: int)
    requires Anchor(c) == Some(start) && Seen(c.moments, BotSpeaking)
    ensures Build(c) == WithPipeline(Kept(c, start), start, Interval(c, start))
  {
  }

  lemma KeptIs(c: Cycle, start: int)
    ensures var named := NameAll(Timeline(c, start), c.markersSeen);
            Kept(c, start) == Filter(named, MinOf(c), Merge(Stretches(named)))
  {
  }

  lemma KeptOfIs(spans: seq<(Contribution, bool)>, min: int, named: seq<Contribution>, merged: seq<Contribution>, kept: seq<Contribution>)
    requires named == Stretches(spans) && merged == Merge(named) && kept == Filter(spans, min, merged)
    ensures kept == KeptOf(spans, min)
  {
  }

  lemma KeptFrom(c: Cycle, start: int, ms: seq<Moment>, spans: seq<(Contribution, bool)>)
    requires Timeline(c, start) == ms && NameAll(ms, c.markersSeen) == spans
    ensures Kept(c, start) == KeptOf(spans, MinOf(c))
  {
  }

  lemma BuildFrom(c: Cycle, start: int, ms: seq<Moment>, spans: seq<(Contribution, bool)>, kept: seq<Contribution>)
    requires Anchor(c) == Some(start) && Seen(c.moments, BotSpeaking)
    requires Timeline(c, start) == ms && NameAll(ms, c.markersSeen) == spans && KeptOf(spans, MinOf(c)) == kept
    ensures ms != [] && Build(c) == WithPipeline(kept, start, ms[|ms| - 1].at - start)
  {
    IntervalIs(c, start);
    KeptFrom(c, start, ms, spans);
    BuildIs(c, start);
  }

  class UserBotLatency {
    var stopped: Option<int>
    var turnStart: Option<int>
    var clientConnected: Option<int>
    var firstSpeechDone: bool
    var pipelineStarted: Option<int>
    var moments: seq<Moment>
    var markersSeen: bool
    var textAggregation: Option<int>
    var calls: seq<Call>
    var minContribution: int

    constructor (minContribution: int)
      ensures moments == [] && calls == [] && textAggregation == None && turnStart == None
      ensures !markersSeen && !firstSpeechDone && this.minContribution == minContribution
      ensures stopped == None && clientConnected == None && pipelineStarted == None
    {
      stopped, turnStart, clientConnected, pipelineStarted, textAggregation := None, None, None, None, None;
      moments, calls, markersSeen, firstSpeechDone := [], [], false, false;
      this.minContribution := minContribution;
    }

    function View(): Cycle
      reads this
    {
      Cycle(turnStart, clientConnected, pipelineStarted, moments, textAggregation, calls, markersSeen, minContribution)
    }

    predicate Measuring()
      reads this
    {
      stopped.Some? || (clientConnected.Some? && !firstSpeechDone)
    }

    method HasSeen(kind: Kind) returns (found: bool)
      ensures found <==> Seen(moments, kind)
    {
      for i := 0 to |moments|
        invariant forall j :: 0 <= j < i ==> moments[j].kind != kind
      {
        if moments[i].kind == kind {
          return true;
        }
      }
      return false;
    }

    /** at None is the zero time, for which the clock is read. */
    method Mark(at: Option<int>, kind: Kind, source: string, derived: bool, once: bool, now: int) returns (recorded: Option<Moment>)
      modifies this`moments
      ensures recorded.Some? <==> Measuring() && !(once && Seen(old(moments), kind))
      ensures recorded.Some? ==> recorded.value == Moment(if at.Some? then at.value else now, kind, source, derived)
      ensures moments == old(moments) + if recorded.Some? then [recorded.value] else []
    {
      if !Measuring() {
        return None;
      }
      if once {
        var found := HasSeen(kind);
        if found {
          return None;
        }
      }
      var m := Moment(if at.Some? then at.value else now, kind, source, derived);
      moments := moments + [m];
      return Some(m);
    }

    method Forget(kind: Kind)
      modifies this`moments
      ensures moments == Dropping(old(moments), kind)
    {
      var kept := [];
      for i := 0 to |moments|
        invariant moments == old(moments) && kept == Dropping(moments[..i], kind)
      {
        assert moments[..i + 1][..i] == moments[..i];
        if moments[i].kind != kind {
          kept := kept + [moments[i]];
        }
      }
      assert moments[..|moments|] == moments;
      moments := kept;
    }

    method ConcurrentHandlers() returns (groups: seq<seq<Call>>)
      ensures NoEmptyGroup(groups) && groups == Grouped(SortCalls(calls))
    {
      var byStart := SortCalls(calls);
      groups := [];
      for i := 0 to |byStart|
        invariant groups == Grouped(byStart[..i])
      {
        GroupedNext(byStart, i);
        groups := AddCall(groups, byStart[i]);
      }
      assert byStart[..|byStart|] == byStart;
    }

    method SentenceMoment() returns (out: seq<Moment>)
      ensures out == SentenceMoments(moments, textAggregation)
    {
      if textAggregation.None? || textAggregation.value <= 0 {
        return [];
      }
      for i := 0 to |moments|
        invariant forall j :: 0 <= j < i ==> moments[j].kind != FirstText
      {
        if moments[i].kind == FirstText {
          return [Moment(moments[i].at + textAggregation.value, Sentence, "", true)];
        }
      }
      return [];
    }

    method DerivedMoments() returns (out: seq<Moment>)
      ensures out == Derived(View())
    {
      out := SentenceMoment();
      ghost var sentence := out;
      var groups := ConcurrentHandlers();
      for g := 0 to |groups|
        invariant NoEmptyGroup(groups[..g]) && out == sentence + HandlerMoments(groups[..g])
      {
        HandlerMomentsNext(groups, g);
        var slowest, first, last := Slowness(groups[g]);
        var owner := slowest.name + if |groups[g]| > 1 then " +" + Decimal(|groups[g]| - 1) else "";
        assert owner == HandlerOwner(groups[g]);
        out := out + [Moment(first, HandlersStart, "", true), Moment(last, HandlersEnd, owner, true)];
      }
      assert groups[..|groups|] == groups;
    }

    method TimelineFrom(start: int) returns (ms: seq<Moment>)
      ensures ms == Timeline(View(), start)
    {
      ms := [Moment(start, if turnStart.Some? then Silence else Ready, "", false)];
      ghost var anchor := ms;
      for i := 0 to |moments|
        invariant ms == anchor + Observed(moments[..i], start)
      {
        assert moments[..i + 1][..i] == moments[..i];
        if moments[i].at >= start {
          ms := ms + [moments[i]];
        }
      }
      assert moments[..|moments|] == moments;
      var derived := DerivedMoments();
      ms := Sort(ms + derived);
    }

    method BuildContributions() returns (kept: seq<Contribution>)
      ensures kept == Build(View())
    {
      var start := turnStart;
      if start.None? {
        start := Later(clientConnected, pipelineStarted);
      }
      var spoken := HasSeen(BotSpeaking);
      if start.None? || !spoken {
        return [];
      }
      ghost var view := View();
      var ms := TimelineFrom(start.value);
      var named, core := NameStretches(ms, markersSeen);
      var merged := MergeAdjacent(named);
      ghost var spans := NameAll(ms, markersSeen);
      kept := KeepLong(merged, spans, core, if minContribution == 0 then DEFAULT_MIN_CONTRIBUTION else minContribution);
      KeptOfIs(spans, MinOf(view), named, merged, kept);
      BuildFrom(view, start.value, ms, spans, kept);
      kept := AddPipeline(kept, start.value, ms[|ms| - 1].at - start.value);
    }
  }

  method KeepLong(merged: seq<Contribution>, ghost named: seq<(Contribution, bool)>, core: set<Stage>, min: int)
    returns (kept: seq<Contribution>)
    requires forall stage :: stage in core <==> IsCore(named, stage)
    ensures kept == Filter(named, min, merged)
  {
    kept := [];
    for i := 0 to |merged|
      invariant kept == Filter(named, min, merged[..i])
    {
      var c := merged[i];
      assert merged[..i + 1][..i] == merged[..i];
      if c.duration >= min || (c.stage in core && c.duration >= PRINTS_AS_ZERO) {
        kept := kept + [c];
      }
    }
    assert merged[..|merged|] == merged;
  }

  method AddPipeline(kept: seq<Contribution>, start: int, interval: int) returns (all: seq<Contribution>)
    ensures all == WithPipeline(kept, start, interval)
  {
    var pipeline := interval;
    for i := 0 to |kept|
      invariant pipeline == interval - Total(kept[..i])
    {
      assert kept[..i + 1][..i] == kept[..i];
      pipeline := pipeline - kept[i].duration;
    }
    assert kept[..|kept|] == kept;
    all := kept;
    if pipeline >= PRINTS_AS_ZERO {
      all := all + [PipelineLine(start, pipeline)];
    }
  }

  /** The slowest call of a group (the first of them), its earliest start and its latest end. */
  method Slowness(group: seq<Call>) returns (slowest: Call, first: int, last: int)
    requires group != []
    ensures slowest == Slowest(group) && first == FirstStart(group) && last == LastEnd(group)
  {
    slowest, first, last := group[0], group[0].start, CallEnd(group[0]);
    for k := 1 to |group|
      invariant slowest == Slowest(group[..k]) && last == LastEnd(group[..k]) && first == FirstStart(group[..k])
    {
      assert group[..k + 1][..k] == group[..k];
      if group[k].duration > slowest.duration {
        slowest := group[k];
      }
      if group[k].start < first {
        first := group[k].start;
      }
      if CallEnd(group[k]) > last {
        last := CallEnd(group[k]);
      }
    }
    assert group[..|group|] == group;
  }

  method NameStretches(ms: seq<Moment>, markersSeen: bool) returns (named: seq<Contribution>, core: set<Stage>)
    ensures named == Stretches(NameAll(ms, markersSeen))
    ensures forall stage :: stage in core <==> IsCore(NameAll(ms, markersSeen), stage)
  {
    named, core := [], {};
    if ms == [] {
      return;
    }
    for i := 0 to |ms| - 1
      invariant named == Stretches(NameAll(ms[..i + 1], markersSeen))
      invariant forall stage :: stage in core <==> IsCore(NameAll(ms[..i + 1], markersSeen), stage)
    {
      assert ms[..i + 2][..i + 1] == ms[..i + 1];
      ghost var before, after := NameAll(ms[..i + 1], markersSeen), NameAll(ms[..i + 2], markersSeen);
      var c := ContributionFor(ms[i], ms[i + 1], markersSeen);
      if c.None? {
        assert after == before;
        continue;
      }
      assert after == before + [c.value];
      forall stage ensures IsCore(after, stage) <==> IsCore(before, stage) || (c.value.1 && c.value.0.stage == stage) {
        if j :| 0 <= j < |before| && before[j].1 && before[j].0.stage == stage {
          assert after[j] == before[j];
        }
        assert after[|before|] == c.value;
      }
      if c.value.1 {
        core := core + {c.value.0.stage};
      }
      named := named + [c.value.0];
    }
    assert ms[..|ms|] == ms;
  }
}
