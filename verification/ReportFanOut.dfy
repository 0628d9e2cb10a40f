/**
 The observer proxy's fan-out (pipeline/observerproxy.go): OnPushFrame settles under the mutex whether a push
 is the first of its frame, and hands the report to each observer's queue after it, so that pushes made at
 once reach a queue in any order. One step for the check and one for each queue, of any number of pushers.
 */
module ReportFanOut {
  import opened ReportQueue

  /** A report, by the place its push has in the order of the checks. */
  datatype Entry = Entry(ticket: nat, report: Report)

  /** A goroutine pushing a frame: its check is done, and it goes on to the next observer's queue. */
  datatype Pusher = Resting | Pushing(ticket: nat, next: nat)

  /** every says which observers want every push; history holds the keys in the order of the checks; queues
      what each queue was ever given. overtaken and jumped are kept for the statements: the queues given a
      report ahead of an earlier check's, and those given a repeat ahead of the first push, with its key. */
  datatype FanOut = FanOut(every: seq<bool>, history: seq<nat>, pushers: seq<Pusher>, queues: seq<seq<Entry>>,
                           overtaken: set<nat>, jumped: set<(nat, nat)>)

  datatype Act = Check(t: nat, key: nat) | Hand(t: nat)

  ghost function Start(every: seq<bool>, pushers: nat): (s: FanOut)
    ensures Pushers(s) && s.every == every
  {
    FanOut(every, [], seq(pushers, _ => Resting), seq(|every|, _ => []), {}, {})
  }

  predicate Can(s: FanOut, a: Act) {
    a.t < |s.pushers| && match a case Check(t, _) => s.pushers[t].Resting? && s.every != [] case Hand(t) => s.pushers[t].Pushing?
  }

  function ReportOf(history: seq<nat>, k: nat): Report
    requires k < |history|
  {
    Report(history[k], FirstAt(history, k))
  }

  /** Whether the observer is told of the k-th push. */
  predicate Wants(s: FanOut, w: nat, k: nat)
    requires w < |s.every| && k < |s.history|
  {
    FirstAt(s.history, k) || s.every[w]
  }

  /** The k-th push has yet to get to the queue of observer w. */
  ghost predicate Pending(s: FanOut, w: nat, k: nat) {
    exists t: nat :: t < |s.pushers| && s.pushers[t].Pushing? && s.pushers[t].ticket == k && s.pushers[t].next <= w
  }

  ghost predicate Given(s: FanOut, w: nat, k: nat)
    requires w < |s.queues|
  {
    Holds(s.queues[w], k)
  }

  ghost predicate Holds(q: seq<Entry>, k: nat) {
    exists i :: 0 <= i < |q| && q[i].ticket == k
  }

  /** The checks are settled: each pusher has a push of its own, and a queue to go to. */
  ghost predicate Pushers(s: FanOut) {
    |s.queues| == |s.every|
    && (forall t :: 0 <= t < |s.pushers| && s.pushers[t].Pushing? ==>
          s.pushers[t].ticket < |s.history| && s.pushers[t].next < |s.every|)
    && forall t, u :: 0 <= t < u < |s.pushers| && s.pushers[t].Pushing? && s.pushers[u].Pushing? ==>
         s.pushers[t].ticket != s.pushers[u].ticket
  }

  /** An earlier check's report that the observer wants is still on its way to the queue. */
  ghost predicate EarlierPending(s: FanOut, w: nat, k: nat)
    requires w < |s.every| && k <= |s.history|
  {
    exists l: nat :: l < k && Wants(s, w, l) && Pending(s, w, l)
  }

  /** The first push of a frame is still on its way to the queue. */
  ghost predicate FirstPending(s: FanOut, w: nat, key: nat) {
    exists l: nat :: l < |s.history| && s.history[l] == key && FirstAt(s.history, l) && Pending(s, w, l)
  }

  ghost function Do(s: FanOut, a: Act): (r: FanOut)
    requires Pushers(s) && Can(s, a)
    ensures Pushers(r) && r.every == s.every && |r.pushers| == |s.pushers|
  {
    match a
    case Check(t, key) => s.(history := s.history + [key], pushers := s.pushers[t := Pushing(|s.history|, 0)])
    case Hand(t) =>
      var k, w := s.pushers[t].ticket, s.pushers[t].next;
      var passed := s.(pushers := s.pushers[t := if w + 1 < |s.every| then Pushing(k, w + 1) else Resting]);
      if !Wants(s, w, k) then passed
      else
        passed.(queues := s.queues[w := s.queues[w] + [Entry(k, ReportOf(s.history, k))]],
                overtaken := s.overtaken + if EarlierPending(s, w, k) then {w} else {},
                jumped := s.jumped + if !FirstAt(s.history, k) && FirstPending(s, w, s.history[k]) then {(w, s.history[k])} else {})
  }

  ghost predicate Possible(s: FanOut, acts: seq<Act>)
    requires Pushers(s)
    decreases |acts|
  {
    acts == [] || (Can(s, acts[0]) && Possible(Do(s, acts[0]), acts[1..]))
  }

  ghost function After(s: FanOut, acts: seq<Act>): (r: FanOut)
    requires Pushers(s) && Possible(s, acts)
    ensures Pushers(r) && r.every == s.every
    decreases |acts|
  {
    if acts == [] then s else After(Do(s, acts[0]), acts[1..])
  }

  // ---------------------------------------------------------------- every report once

  /** Each queue has been given, once, each report its observer wants that is not still on its way to it. */
  ghost predicate Delivers(s: FanOut, w: nat)
    requires Pushers(s) && w < |s.every|
  {
    (forall i :: 0 <= i < |s.queues[w]| ==>
       var e := s.queues[w][i];
       e.ticket < |s.history| && e.report == ReportOf(s.history, e.ticket) && Wants(s, w, e.ticket) && !Pending(s, w, e.ticket))
    && (forall i, j :: 0 <= i < j < |s.queues[w]| ==> s.queues[w][i].ticket != s.queues[w][j].ticket)
    && forall k :: 0 <= k < |s.history| && Wants(s, w, k) ==> Given(s, w, k) || Pending(s, w, k)
  }

  lemma EarlierFirsts(history: seq<nat>, key: nat)
    ensures forall k :: 0 <= k < |history| ==> ReportOf(history + [key], k) == ReportOf(history, k)
  {
    var more := history + [key];
    forall k | 0 <= k < |history| ensures ReportOf(more, k) == ReportOf(history, k) {
      assert more[..|history|] == history;
      FirstInPrefix(more, |history|, k);
    }
  }

  lemma CheckPends(s: FanOut, t: nat, key: nat, w: nat, k: nat)
    requires Pushers(s) && Can(s, Check(t, key))
    ensures Pending(Do(s, Check(t, key)), w, k) <==> Pending(s, w, k) || k == |s.history|
  {
    var s' := Do(s, Check(t, key));
    if Pending(s, w, k) {
      var u: nat :| u < |s.pushers| && s.pushers[u].Pushing? && s.pushers[u].ticket == k && s.pushers[u].next <= w;
      assert s'.pushers[u] == s.pushers[u];
    }
    if k == |s.history| {
      assert s'.pushers[t] == Pushing(k, 0);
    }
  }

  /** Handing a report on takes it from one queue's pending ones, and from no other's. */
  lemma HandPends(s: FanOut, t: nat, w: nat, k: nat)
    requires Pushers(s) && Can(s, Hand(t)) && w < |s.every|
    ensures Pending(Do(s, Hand(t)), w, k)
            <==> Pending(s, w, k) && !(k == s.pushers[t].ticket && w == s.pushers[t].next)
  {
    var s' := Do(s, Hand(t));
    if Pending(s, w, k) && !(k == s.pushers[t].ticket && w == s.pushers[t].next) {
      var u: nat :| u < |s.pushers| && s.pushers[u].Pushing? && s.pushers[u].ticket == k && s.pushers[u].next <= w;
      assert u == t ==> s'.pushers[t] == Pushing(k, s.pushers[t].next + 1);
      assert u != t ==> s'.pushers[u] == s.pushers[u];
    }
  }

  lemma CheckKeepsDelivers(s: FanOut, t: nat, key: nat, w: nat)
    requires Pushers(s) && Can(s, Check(t, key)) && w < |s.every| && Delivers(s, w)
    ensures Delivers(Do(s, Check(t, key)), w)
  {
    var s' := Do(s, Check(t, key));
    EarlierFirsts(s.history, key);
    forall k: nat ensures Pending(s', w, k) <==> Pending(s, w, k) || k == |s.history| {
      CheckPends(s, t, key, w, k);
    }
    forall k | 0 <= k < |s'.history| && Wants(s', w, k) ensures Given(s', w, k) || Pending(s', w, k) {
      if k < |s.history| {
        assert ReportOf(s'.history, k) == ReportOf(s.history, k);
        assert Wants(s, w, k);
        assert Given(s, w, k) ==> Given(s', w, k);
      }
    }
    forall i | 0 <= i < |s'.queues[w]|
      ensures var e := s'.queues[w][i];
              e.report == ReportOf(s'.history, e.ticket) && Wants(s', w, e.ticket) && !Pending(s', w, e.ticket)
    {
      var e := s.queues[w][i];
      assert ReportOf(s'.history, e.ticket) == ReportOf(s.history, e.ticket);
    }
  }

  lemma HandKeepsDelivers(s: FanOut, t: nat, w: nat)
    requires Pushers(s) && Can(s, Hand(t)) && w < |s.every| && Delivers(s, w)
    ensures Delivers(Do(s, Hand(t)), w)
  {
    var s' := Do(s, Hand(t));
    forall k: nat ensures Pending(s', w, k) <==> Pending(s, w, k) && !(k == s.pushers[t].ticket && w == s.pushers[t].next) {
      HandPends(s, t, w, k);
    }
    var k0, q, q' := s.pushers[t].ticket, s.queues[w], s'.queues[w];
    assert Pending(s, s.pushers[t].next, k0);
    assert q' == q || (w == s.pushers[t].next && Wants(s, w, k0) && q' == q + [Entry(k0, ReportOf(s.history, k0))]);
    forall k | 0 <= k < |s'.history| && Wants(s', w, k) ensures Given(s', w, k) || Pending(s', w, k) {
      if Given(s, w, k) {
        var i :| 0 <= i < |q| && q[i].ticket == k;
        assert q'[i].ticket == k;
      } else if k == k0 && w == s.pushers[t].next {
        assert q'[|q|].ticket == k;
      }
    }
  }

  // ---------------------------------------------------------------- in the order of the checks

  predicate Ascending(q: seq<Entry>) {
    forall i, j :: 0 <= i < j < |q| ==> q[i].ticket < q[j].ticket
  }

  /** The queue is in the order of the checks, and will be when the reports on their way to it are in. */
  ghost predicate InOrder(s: FanOut, w: nat)
    requires Pushers(s) && w < |s.every|
  {
    Ascending(s.queues[w])
    && forall i, k :: 0 <= i < |s.queues[w]| && 0 <= k < |s.history| && Wants(s, w, k) && Pending(s, w, k) ==>
         s.queues[w][i].ticket < k
  }

  ghost predicate OrderKept(s: FanOut, w: nat)
    requires Pushers(s) && w < |s.every|
  {
    InOrder(s, w) <==> w !in s.overtaken
  }

  lemma CheckKeepsOrder(s: FanOut, t: nat, key: nat, w: nat)
    requires Pushers(s) && Can(s, Check(t, key)) && w < |s.every| && Delivers(s, w) && OrderKept(s, w)
    ensures OrderKept(Do(s, Check(t, key)), w)
  {
    var s' := Do(s, Check(t, key));
    EarlierFirsts(s.history, key);
    forall k | 0 <= k < |s.history|
      ensures (Wants(s', w, k) <==> Wants(s, w, k)) && (Pending(s', w, k) <==> Pending(s, w, k))
    {
      assert ReportOf(s'.history, k) == ReportOf(s.history, k);
      CheckPends(s, t, key, w, k);
    }
    if !InOrder(s, w) && Ascending(s.queues[w]) {
      var i, k :| 0 <= i < |s.queues[w]| && 0 <= k < |s.history| && Wants(s, w, k) && Pending(s, w, k) && s.queues[w][i].ticket >= k;
      assert Wants(s', w, k) && Pending(s', w, k) && s'.queues[w][i].ticket >= k;
    }
  }

  lemma HandKeepsOrder(s: FanOut, t: nat, w: nat)
    requires Pushers(s) && Can(s, Hand(t)) && w < |s.every| && Delivers(s, w) && OrderKept(s, w)
    ensures OrderKept(Do(s, Hand(t)), w)
  {
    var s' := Do(s, Hand(t));
    var k0, w0, q, q' := s.pushers[t].ticket, s.pushers[t].next, s.queues[w], s'.queues[w];
    forall k: nat ensures Pending(s', w, k) <==> Pending(s, w, k) && !(k == k0 && w == w0) {
      HandPends(s, t, w, k);
    }
    assert Pending(s, w0, k0);
    if w == w0 && Wants(s, w, k0) {
      assert q' == q + [Entry(k0, ReportOf(s.history, k0))];
      if EarlierPending(s, w, k0) {
        var l: nat :| l < k0 && Wants(s, w, l) && Pending(s, w, l);
        assert Wants(s', w, l) && Pending(s', w, l) && q'[|q|].ticket == k0;
      } else {
        HandedLast(s, s', w, k0);
      }
    } else {
      assert q' == q;
      SameOrder(s, s', w);
    }
  }

  /** A report handed to a queue that no earlier one is on its way to. */
  lemma HandedLast(s: FanOut, s': FanOut, w: nat, k0: nat)
    requires Pushers(s) && Pushers(s') && w < |s.every| == |s'.every| && s'.every == s.every && s'.history == s.history
    requires Delivers(s, w) && k0 < |s.history| && Wants(s, w, k0) && Pending(s, w, k0) && !EarlierPending(s, w, k0)
    requires s'.queues[w] == s.queues[w] + [Entry(k0, ReportOf(s.history, k0))]
    requires forall k: nat :: Pending(s', w, k) <==> Pending(s, w, k) && k != k0
    ensures InOrder(s', w) <==> InOrder(s, w)
  {
    var q, q' := s.queues[w], s'.queues[w];
    assert forall k :: 0 <= k < |s.history| ==> (Wants(s', w, k) <==> Wants(s, w, k));
    if InOrder(s, w) {
      HandedInOrder(s, s', w, k0);
    } else if Ascending(q) {
      var i, k :| 0 <= i < |q| && 0 <= k < |s.history| && Wants(s, w, k) && Pending(s, w, k) && q[i].ticket >= k;
      assert q'[i] == q[i] && q'[|q|].ticket == k0;
      assert k != k0 ==> Pending(s', w, k) && Wants(s', w, k);
    } else {
      var i, j :| 0 <= i < j < |q| && q[i].ticket >= q[j].ticket;
      assert q'[i] == q[i] && q'[j] == q[j];
    }
  }

  lemma HandedInOrder(s: FanOut, s': FanOut, w: nat, k0: nat)
    requires Pushers(s) && Pushers(s') && w < |s.every| && s'.every == s.every && s'.history == s.history
    requires InOrder(s, w) && k0 < |s.history| && Wants(s, w, k0) && Pending(s, w, k0) && !EarlierPending(s, w, k0)
    requires s'.queues[w] == s.queues[w] + [Entry(k0, ReportOf(s.history, k0))]
    requires forall k: nat :: Pending(s', w, k) <==> Pending(s, w, k) && k != k0
    ensures InOrder(s', w)
  {
    var q, q' := s.queues[w], s'.queues[w];
    assert forall i :: 0 <= i < |q| ==> q'[i] == q[i] && q[i].ticket < k0;
    forall i, k | 0 <= i < |q'| && 0 <= k < |s.history| && Wants(s', w, k) && Pending(s', w, k) ensures q'[i].ticket < k {
      assert Wants(s, w, k) && Pending(s, w, k) && k != k0;
    }
  }

  lemma SameOrder(s: FanOut, s': FanOut, w: nat)
    requires Pushers(s) && Pushers(s') && w < |s.every| && s'.every == s.every && s'.history == s.history
    requires s'.queues[w] == s.queues[w]
    requires forall k :: 0 <= k < |s.history| && Wants(s, w, k) ==> (Pending(s', w, k) <==> Pending(s, w, k))
    ensures InOrder(s', w) <==> InOrder(s, w)
  {
    assert forall k :: 0 <= k < |s.history| ==> (Wants(s', w, k) <==> Wants(s, w, k));
    if !InOrder(s, w) && Ascending(s.queues[w]) {
      var i, k :| 0 <= i < |s.queues[w]| && 0 <= k < |s.history| && Wants(s, w, k) && Pending(s, w, k) && s.queues[w][i].ticket >= k;
      assert Wants(s', w, k) && Pending(s', w, k) && s'.queues[w][i].ticket >= k;
    }
    if InOrder(s, w) {
      forall i, k | 0 <= i < |s'.queues[w]| && 0 <= k < |s'.history| && Wants(s', w, k) && Pending(s', w, k)
        ensures s'.queues[w][i].ticket < k
      {
        assert Wants(s, w, k) && Pending(s, w, k);
      }
    }
  }

  // ---------------------------------------------------------------- a repeat ahead of the first push

  /** The observer is told of a repeated push of the frame before it is told of the first. */
  ghost predicate RepeatAhead(q: seq<Entry>, key: nat) {
    exists i :: 0 <= i < |q| && q[i].report == Report(key, false) && forall j :: 0 <= j < i ==> q[j].report != Report(key, true)
  }

  ghost predicate JumpsKept(s: FanOut, w: nat)
    requires Pushers(s) && w < |s.every|
  {
    forall key: nat :: RepeatAhead(s.queues[w], key) <==> (w, key) in s.jumped
  }

  /** The observer has been told of the frame's first push. */
  ghost predicate Introduced(q: seq<Entry>, key: nat) {
    exists i :: 0 <= i < |q| && q[i].report == Report(key, true)
  }

  lemma OneMoreAhead(q: seq<Entry>, e: Entry, key: nat)
    ensures RepeatAhead(q + [e], key) <==> RepeatAhead(q, key) || (e.report == Report(key, false) && !Introduced(q, key))
  {
    var q' := q + [e];
    if RepeatAhead(q, key) {
      var i :| 0 <= i < |q| && q[i].report == Report(key, false) && forall j :: 0 <= j < i ==> q[j].report != Report(key, true);
      assert q'[i] == q[i] && forall j :: 0 <= j < i ==> q'[j] == q[j];
    } else if e.report == Report(key, false) && !Introduced(q, key) {
      assert q'[|q|] == e && forall j :: 0 <= j < |q| ==> q'[j] == q[j];
    } else {
      assert forall j :: 0 <= j < |q| ==> q'[j] == q[j];
      forall i | 0 <= i < |q'| && q'[i].report == Report(key, false)
        ensures exists j :: 0 <= j < i && q'[j].report == Report(key, true)
      {
        if i == |q| {
          var j :| 0 <= j < |q| && q[j].report == Report(key, true);
          assert q'[j] == q[j];
        } else {
          assert q[i].report == Report(key, false);
          var j :| 0 <= j < i && q[j].report == Report(key, true);
          assert q'[j] == q[j];
        }
      }
    }
  }

  lemma {:induction false} FirstExists(history: seq<nat>, k: nat) returns (f: nat)
    requires k < |history|
    ensures f <= k && history[f] == history[k] && FirstAt(history, f)
  {
    if FirstAt(history, k) {
      f := k;
    } else {
      var j :| 0 <= j < |history[..k]| && history[..k][j] == history[k];
      f := FirstExists(history, j);
    }
  }

  /** A frame's first report has not been given to the queue exactly while it is on its way to it. */
  lemma FirstOnItsWay(s: FanOut, w: nat, k: nat)
    requires Pushers(s) && w < |s.every| && k < |s.history| && Delivers(s, w)
    ensures Introduced(s.queues[w], s.history[k]) <==> !FirstPending(s, w, s.history[k])
  {
    var key, q := s.history[k], s.queues[w];
    var f := FirstExists(s.history, k);
    assert Wants(s, w, f);
    if Given(s, w, f) {
      var i :| 0 <= i < |q| && q[i].ticket == f;
      assert q[i].report == Report(key, true) && !Pending(s, w, f);
    } else {
      assert Pending(s, w, f);
    }
    forall l: nat | l < |s.history| && s.history[l] == key && FirstAt(s.history, l) ensures l == f {
      OneFirst(s.history, l, f);
    }
    if Introduced(q, key) {
      var i :| 0 <= i < |q| && q[i].report == Report(key, true);
      assert q[i].ticket == f;
    }
  }

  lemma OneFirst(history: seq<nat>, l: nat, f: nat)
    requires l < |history| && f < |history| && history[l] == history[f] && FirstAt(history, l) && FirstAt(history, f)
    ensures l == f
  {
  }

  lemma HandKeepsJumps(s: FanOut, t: nat, w: nat)
    requires Pushers(s) && Can(s, Hand(t)) && w < |s.every| && Delivers(s, w) && JumpsKept(s, w)
    ensures JumpsKept(Do(s, Hand(t)), w)
  {
    var s' := Do(s, Hand(t));
    var k0, q := s.pushers[t].ticket, s.queues[w];
    if w == s.pushers[t].next && Wants(s, w, k0) {
      var e := Entry(k0, ReportOf(s.history, k0));
      assert s'.queues[w] == q + [e];
      FirstOnItsWay(s, w, k0);
      forall key: nat ensures RepeatAhead(s'.queues[w], key) <==> (w, key) in s'.jumped {
        OneMoreAhead(q, e, key);
      }
    } else {
      assert s'.queues[w] == q;
    }
  }

  // ---------------------------------------------------------------- every run

  ghost predicate Kept(s: FanOut, w: nat)
    requires Pushers(s) && w < |s.every|
  {
    Delivers(s, w) && OrderKept(s, w) && JumpsKept(s, w)
  }

  lemma DoKeeps(s: FanOut, a: Act, w: nat)
    requires Pushers(s) && Can(s, a) && w < |s.every| && Kept(s, w)
    ensures Kept(Do(s, a), w)
  {
    match a
    case Check(t, key) =>
      CheckKeepsDelivers(s, t, key, w);
      CheckKeepsOrder(s, t, key, w);
    case Hand(t) =>
      HandKeepsDelivers(s, t, w);
      HandKeepsOrder(s, t, w);
      HandKeepsJumps(s, t, w);
  }

  lemma {:induction false} RunKeeps(s: FanOut, acts: seq<Act>, w: nat)
    requires Pushers(s) && Possible(s, acts) && w < |s.every| && Kept(s, w)
    ensures Kept(After(s, acts), w)
    decreases |acts|
  {
    if acts != [] {
      DoKeeps(s, acts[0], w);
      RunKeeps(Do(s, acts[0]), acts[1..], w);
    }
  }

  lemma StartKept(every: seq<bool>, pushers: nat, w: nat)
    requires w < |every|
    ensures Kept(Start(every, pushers), w)
  {
    var s := Start(every, pushers);
    assert s.queues[w] == [] && forall k :: !Pending(s, w, k);
  }

  predicate AtRest(s: FanOut) {
    forall t :: 0 <= t < |s.pushers| ==> s.pushers[t].Resting?
  }

  function Reports(q: seq<Entry>): seq<Report> {
    seq(|q|, i requires 0 <= i < |q| => q[i].report)
  }

  lemma ReportsConcat(p: seq<Entry>, q: seq<Entry>)
    ensures Reports(p + q) == Reports(p) + Reports(q)
  {
  }

  /** q holds the report of each push that the observer is told of, and of no other. */
  ghost predicate Fills(history: seq<nat>, every: bool, q: seq<Entry>) {
    (forall i :: 0 <= i < |q| ==>
       q[i].ticket < |history| && q[i].report == ReportOf(history, q[i].ticket) && (FirstAt(history, q[i].ticket) || every))
    && forall k :: 0 <= k < |history| && (FirstAt(history, k) || every) ==> Holds(q, k)
  }

  ghost predicate Distinct(q: seq<Entry>) {
    forall i, j :: 0 <= i < j < |q| ==> q[i].ticket != q[j].ticket
  }

  lemma FillsWithoutLast(history: seq<nat>, every: bool, q: seq<Entry>, rest: seq<Entry>)
    requires history != [] && Fills(history, every, q)
    requires forall i :: 0 <= i < |rest| ==> rest[i].ticket != |history| - 1 && rest[i] in q
    requires forall i :: 0 <= i < |q| && q[i].ticket != |history| - 1 ==> q[i] in rest
    ensures Fills(history[..|history| - 1], every, rest)
  {
    var n := |history| - 1;
    AllInPrefix(history, n);
    var before := history[..n];
    assert forall k :: 0 <= k < n ==> ReportOf(before, k) == ReportOf(history, k);
    forall i | 0 <= i < |rest|
      ensures rest[i].ticket < n && rest[i].report == ReportOf(before, rest[i].ticket) && (FirstAt(before, rest[i].ticket) || every)
    {
      var j :| 0 <= j < |q| && q[j] == rest[i];
    }
    forall k | 0 <= k < n && (FirstAt(before, k) || every) ensures Holds(rest, k) {
      assert FirstAt(history, k) || every;
      assert Holds(q, k);
      var i :| 0 <= i < |q| && q[i].ticket == k;
      var m :| 0 <= m < |rest| && rest[m] == q[i];
      assert rest[m].ticket == k;
    }
  }

  lemma LastIsLast(history: seq<nat>, every: bool, q: seq<Entry>)
    requires history != [] && Fills(history, every, q) && Ascending(q) && (FirstAt(history, |history| - 1) || every)
    ensures q != [] && q[|q| - 1] == Entry(|history| - 1, ReportOf(history, |history| - 1))
    ensures Fills(history[..|history| - 1], every, q[..|q| - 1])
  {
    var n := |history| - 1;
    assert Holds(q, n);
    var i :| 0 <= i < |q| && q[i].ticket == n;
    assert q[i].ticket <= q[|q| - 1].ticket <= n;
    var rest := q[..|q| - 1];
    assert forall j :: 0 <= j < |rest| ==> rest[j] == q[j] && q[j].ticket < n;
    FillsWithoutLast(history, every, q, rest);
  }

  lemma ToldLast(history: seq<nat>, every: bool)
    requires history != []
    ensures var n := |history| - 1;
            Told(history, every) == Told(history[..n], every) + if FirstAt(history, n) || every then [ReportOf(history, n)] else []
  {
  }

  /** In the order of the checks, the observer is told what it would be of the pushes one after the other. */
  lemma {:induction false} InOrderIsTold(history: seq<nat>, every: bool, q: seq<Entry>)
    requires Fills(history, every, q) && Ascending(q)
    ensures Reports(q) == Told(history, every)
  {
    if history == [] {
      assert q == [];
    } else if FirstAt(history, |history| - 1) || every {
      LastIsLast(history, every, q);
      var n, rest := |q| - 1, q[..|q| - 1];
      InOrderIsTold(history[..|history| - 1], every, rest);
      assert q == rest + [q[n]];
      ReportsConcat(rest, [q[n]]);
      assert Reports([q[n]]) == [q[n].report];
      ToldLast(history, every);
    } else {
      FillsWithoutLast(history, every, q, q);
      ToldLast(history, every);
      InOrderIsTold(history[..|history| - 1], every, q);
    }
  }

  lemma WithoutOne(front: seq<Entry>, e: Entry, back: seq<Entry>)
    ensures multiset(Reports(front + [e] + back)) == multiset(Reports(front + back)) + multiset{e.report}
  {
    ReportsConcat(front, [e]);
    ReportsConcat(front + [e], back);
    ReportsConcat(front, back);
    assert Reports([e]) == [e.report];
  }

  lemma Removed(q: seq<Entry>, i: nat)
    requires i < |q| && Distinct(q)
    ensures var rest := q[..i] + q[i + 1..];
            Distinct(rest) && (forall j :: 0 <= j < |rest| ==> rest[j].ticket != q[i].ticket && rest[j] in q)
            && forall j :: 0 <= j < |q| && q[j].ticket != q[i].ticket ==> q[j] in rest
  {
    var rest := q[..i] + q[i + 1..];
    assert forall j :: 0 <= j < i ==> rest[j] == q[j];
    assert forall j :: i <= j < |rest| ==> rest[j] == q[j + 1];
    forall j | 0 <= j < |q| && q[j].ticket != q[i].ticket ensures q[j] in rest {
      assert j < i ==> rest[j] == q[j];
      assert j > i ==> rest[j - 1] == q[j];
    }
  }

  lemma TakeLast(history: seq<nat>, every: bool, q: seq<Entry>) returns (rest: seq<Entry>)
    requires history != [] && Fills(history, every, q) && Distinct(q) && (FirstAt(history, |history| - 1) || every)
    ensures Fills(history[..|history| - 1], every, rest) && Distinct(rest)
    ensures multiset(Reports(q)) == multiset(Reports(rest)) + multiset{ReportOf(history, |history| - 1)}
  {
    var n := |history| - 1;
    assert Holds(q, n);
    var i :| 0 <= i < |q| && q[i].ticket == n;
    rest := q[..i] + q[i + 1..];
    assert q == q[..i] + [q[i]] + q[i + 1..];
    WithoutOne(q[..i], q[i], q[i + 1..]);
    Removed(q, i);
    FillsWithoutLast(history, every, q, rest);
  }

  /** In whatever order, it is told the same. */
  lemma {:induction false} PermutedIsTold(history: seq<nat>, every: bool, q: seq<Entry>)
    requires Fills(history, every, q) && Distinct(q)
    ensures multiset(Reports(q)) == multiset(Told(history, every))
  {
    if history == [] {
      assert q != [] ==> q[0].ticket < |history|;
    } else if FirstAt(history, |history| - 1) || every {
      var rest := TakeLast(history, every, q);
      PermutedIsTold(history[..|history| - 1], every, rest);
    } else {
      FillsWithoutLast(history, every, q, q);
      PermutedIsTold(history[..|history| - 1], every, q);
    }
  }

  lemma RestFills(s: FanOut, w: nat)
    requires Pushers(s) && w < |s.every| && Delivers(s, w) && AtRest(s)
    ensures Fills(s.history, s.every[w], s.queues[w]) && Distinct(s.queues[w])
  {
    forall k | 0 <= k < |s.history| && (FirstAt(s.history, k) || s.every[w]) ensures Holds(s.queues[w], k) {
      assert Wants(s, w, k) && !Pending(s, w, k);
    }
  }

  /** However pushes overlap, no report is lost or made twice: at any time an observer's queue has been given,
      once, each report it is to be told that is not still on its way; and with every push done, exactly the
      reports it would have been told of the pushes one after the other. */
  lemma EachReportOnce(every: seq<bool>, pushers: nat, acts: seq<Act>, w: nat)
    requires w < |every| && Possible(Start(every, pushers), acts)
    ensures var s := After(Start(every, pushers), acts);
            Delivers(s, w)
            && (AtRest(s) ==> multiset(Reports(s.queues[w])) == multiset(Told(s.history, every[w])))
  {
    StartKept(every, pushers, w);
    RunKeeps(Start(every, pushers), acts, w);
    var s := After(Start(every, pushers), acts);
    if AtRest(s) {
      RestFills(s, w);
      PermutedIsTold(s.history, every[w], s.queues[w]);
    }
  }

  /** A queue is in the order of the checks if and only if no report was ever handed to it while an earlier
      one was on its way; the observer is then told just what it would be of pushes one after the other. */
  lemma InCheckOrderIff(every: seq<bool>, pushers: nat, acts: seq<Act>, w: nat)
    requires w < |every| && Possible(Start(every, pushers), acts)
    ensures var s := After(Start(every, pushers), acts);
            (InOrder(s, w) <==> w !in s.overtaken)
            && (AtRest(s) && w !in s.overtaken ==> Reports(s.queues[w]) == Told(s.history, every[w]))
  {
    StartKept(every, pushers, w);
    RunKeeps(Start(every, pushers), acts, w);
    var s := After(Start(every, pushers), acts);
    if AtRest(s) && w !in s.overtaken {
      RestFills(s, w);
      InOrderIsTold(s.history, every[w], s.queues[w]);
    }
  }

  /** An observer is told of a repeat before the first push of a frame if and only if the repeat was handed to
      its queue while the first was on its way. */
  lemma RepeatAheadIff(every: seq<bool>, pushers: nat, acts: seq<Act>, w: nat, key: nat)
    requires w < |every| && Possible(Start(every, pushers), acts)
    ensures var s := After(Start(every, pushers), acts);
            (RepeatAhead(s.queues[w], key) <==> (w, key) in s.jumped)
  {
    StartKept(every, pushers, w);
    RunKeeps(Start(every, pushers), acts, w);
  }

  /** Which happens with two pushes of one frame at once. */
  lemma RepeatCanJumpAhead(key: nat)
    ensures var acts := [Check(0, key), Check(1, key), Hand(1), Hand(0)];
            Possible(Start([true], 2), acts)
            && Reports(After(Start([true], 2), acts).queues[0]) == [Report(key, false), Report(key, true)]
  {
    var s0 := Start([true], 2);
    var s1 := Do(s0, Check(0, key));
    var s2 := Do(s1, Check(1, key));
    assert s2.pushers == [Pushing(0, 0), Pushing(1, 0)] && s2.queues == [[]];
    SecondHandsFirst(s2, key);
    OneStep(s1, Check(1, key), [Hand(1), Hand(0)]);
    OneStep(s0, Check(0, key), [Check(1, key), Hand(1), Hand(0)]);
  }

  lemma SecondHandsFirst(s: FanOut, key: nat)
    requires s.every == [true] && s.history == [key, key] && s.pushers == [Pushing(0, 0), Pushing(1, 0)] && s.queues == [[]]
    ensures Possible(s, [Hand(1), Hand(0)])
    ensures Reports(After(s, [Hand(1), Hand(0)]).queues[0]) == [Report(key, false), Report(key, true)]
  {
    assert s.history[..1] == [key] && s.history[..0] == [];
    var s1 := Do(s, Hand(1));
    assert s1.queues[0] == [Entry(1, Report(key, false))];
    OneStep(s1, Hand(0), []);
    OneStep(s, Hand(1), [Hand(0)]);
  }

  lemma OneStep(s: FanOut, a: Act, rest: seq<Act>)
    requires Pushers(s) && Can(s, a) && Possible(Do(s, a), rest)
    ensures Possible(s, [a] + rest) && After(s, [a] + rest) == After(Do(s, a), rest)
  {
    assert ([a] + rest)[1..] == rest;
  }
}
