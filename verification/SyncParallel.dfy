/**
 The sync parallel pipeline (pipeline/syncparallel.go): the output of one input frame is collected from
 every branch, up to a sentinel, and released together once each branch has produced its sentinel.
 */
module SyncParallel {
  import opened Frames

  predicate NoSync(q: seq<Frame>) {
    forall i :: 0 <= i < |q| ==> !q[i].kind.Sync?
  }

  function Ids(q: seq<Frame>): set<nat> {
    set i | 0 <= i < |q| :: q[i].id
  }

  /** q without the frames whose id came before. */
  function Dedup(q: seq<Frame>): seq<Frame> {
    if q == [] then []
    else
      var n := |q| - 1;
      Dedup(q[..n]) + if q[n].id in Ids(q[..n]) then [] else [q[n]]
  }

  lemma DedupSnoc(q: seq<Frame>, f: Frame)
    ensures Dedup(q + [f]) == Dedup(q) + if f.id in Ids(q) then [] else [f]
  {
    assert (q + [f])[..|q|] == q;
  }

  /** What of q is new after before. */
  function News(before: seq<Frame>, q: seq<Frame>): seq<Frame> {
    if q == [] then []
    else
      var n := |q| - 1;
      News(before, q[..n]) + if q[n].id in Ids(before + q[..n]) then [] else [q[n]]
  }

  lemma {:induction false} DedupAppend(before: seq<Frame>, q: seq<Frame>)
    ensures Dedup(before + q) == Dedup(before) + News(before, q)
  {
    if q == [] {
      assert before + q == before;
    } else {
      var n := |q| - 1;
      DedupAppend(before, q[..n]);
      DedupSnoc(before + q[..n], q[n]);
      assert before + q == before + q[..n] + [q[n]];
    }
  }

  predicate DistinctIds(q: seq<Frame>) {
    forall i, j :: 0 <= i < j < |q| ==> q[i].id != q[j].id
  }

  lemma IdsSnoc(q: seq<Frame>, f: Frame)
    ensures Ids(q + [f]) == Ids(q) + {f.id}
  {
    var r := q + [f];
    forall id | id in Ids(q) + {f.id} ensures id in Ids(r) {
      if id == f.id {
        assert r[|q|].id == id;
      } else {
        var i :| 0 <= i < |q| && q[i].id == id;
        assert r[i].id == id;
      }
    }
  }

  /** Dedup releases every id of q once, and what it releases is q's. */
  lemma {:induction false} DedupReleasesOnce(q: seq<Frame>)
    ensures DistinctIds(Dedup(q)) && Ids(Dedup(q)) == Ids(q)
    ensures forall f :: f in Dedup(q) ==> f in q
  {
    if q != [] {
      var n := |q| - 1;
      DedupReleasesOnce(q[..n]);
      assert q == q[..n] + [q[n]];
      IdsSnoc(q[..n], q[n]);
      var before := Dedup(q[..n]);
      if q[n].id !in Ids(q[..n]) {
        IdsSnoc(before, q[n]);
        forall i | 0 <= i < |before| ensures before[i].id != q[n].id {
          assert before[i].id in Ids(before);
        }
      } else {
        assert Ids(q[..n]) + {q[n].id} == Ids(q[..n]);
        assert Dedup(q) == before;
      }
    }
  }

  /** And releases it in the order of q: at says where each was, the first with its id. */
  lemma {:induction false} DedupKeepsOrder(q: seq<Frame>) returns (at: seq<nat>)
    ensures |at| == |Dedup(q)| && forall i, j :: 0 <= i < j < |at| ==> at[i] < at[j]
    ensures forall i :: 0 <= i < |at| ==> at[i] < |q| && Dedup(q)[i] == q[at[i]] && forall k :: 0 <= k < at[i] ==> q[k].id != q[at[i]].id
  {
    if q == [] {
      at := [];
    } else {
      var n := |q| - 1;
      at := DedupKeepsOrder(q[..n]);
      assert forall k :: 0 <= k < n ==> q[..n][k] == q[k];
      if q[n].id !in Ids(q[..n]) {
        forall k | 0 <= k < n ensures q[k].id != q[n].id {
          assert q[..n][k].id in Ids(q[..n]);
        }
        at := at + [n];
      }
    }
  }

  // ---------------------------------------------------------------- the machine

  /** What branch i still has to put out, the queue its end collects in, whether its sentinel was read, and
      everything collected so far with the branch it came from, in arrival order. */
  datatype State = State(todo: seq<seq<Frame>>, queues: seq<seq<Frame>>, done: seq<bool>, collected: seq<(nat, Frame)>)

  datatype Action = Arrive(i: nat) | Collect(i: nat)

  ghost predicate WellFormed(s: State) {
    |s.todo| == |s.queues| == |s.done|
  }

  ghost predicate Enabled(s: State, a: Action) {
    WellFormed(s) && a.i < |s.queues|
    && if a.Arrive? then s.todo[a.i] != [] else !s.done[a.i] && s.queues[a.i] != []
  }

  ghost function Step(s: State, a: Action): State
    requires Enabled(s, a)
  {
    var i := a.i;
    if a.Arrive? then s.(todo := s.todo[i := s.todo[i][1..]], queues := s.queues[i := s.queues[i] + [s.todo[i][0]]])
    else
      var next := s.queues[i][0];
      s.(queues := s.queues[i := s.queues[i][1..]],
         done := if next.kind.Sync? then s.done[i := true] else s.done,
         collected := if next.kind.Sync? then s.collected else s.collected + [(i, next)])
  }

  ghost predicate Legal(s: State, acts: seq<Action>)
    decreases |acts|
  {
    acts == [] || (Enabled(s, acts[0]) && Legal(Step(s, acts[0]), acts[1..]))
  }

  ghost function Exec(s: State, acts: seq<Action>): State
    requires Legal(s, acts)
    decreases |acts|
  {
    if acts == [] then s else Exec(Step(s, acts[0]), acts[1..])
  }

  /** The frames collected from branch i, in order: in branch order, what waitForSync returns. */
  function FromBranch(collected: seq<(nat, Frame)>, i: nat): seq<Frame> {
    if collected == [] then []
    else
      var n := |collected| - 1;
      FromBranch(collected[..n], i) + if collected[n].0 == i then [collected[n].1] else []
  }

  /** All frames collected, in arrival order: what the shared queue holds. */
  function Arrived(collected: seq<(nat, Frame)>): seq<Frame> {
    seq(|collected|, k requires 0 <= k < |collected| => collected[k].1)
  }

  /** waiting[i] is in branch i's queue already, made[i] is what the branch makes of the frame; then comes
      the sentinel. */
  ghost function Start(waiting: seq<seq<Frame>>, made: seq<seq<Frame>>, sync: Frame): State
    requires |waiting| == |made|
  {
    State(seq(|made|, i requires 0 <= i < |made| => made[i] + [sync]), waiting, seq(|made|, i => false), [])
  }

  function Expected(waiting: seq<seq<Frame>>, made: seq<seq<Frame>>, i: nat): seq<Frame>
    requires i < |waiting| == |made|
  {
    waiting[i] + made[i]
  }

  /** Nothing is lost or reordered within a branch, and its sentinel is the last thing read from it. */
  ghost predicate BranchInv(s: State, waiting: seq<seq<Frame>>, made: seq<seq<Frame>>, sync: Frame, i: nat)
    requires WellFormed(s) && i < |s.queues| == |waiting| == |made|
  {
    var got := FromBranch(s.collected, i);
    if s.done[i] then got == Expected(waiting, made, i) && s.queues[i] == [] && s.todo[i] == []
    else got + s.queues[i] + s.todo[i] == Expected(waiting, made, i) + [sync]
  }

  ghost predicate Inv(s: State, waiting: seq<seq<Frame>>, made: seq<seq<Frame>>, sync: Frame) {
    WellFormed(s) && |s.queues| == |waiting| == |made|
    && (forall i :: 0 <= i < |s.queues| ==> BranchInv(s, waiting, made, sync, i))
    && forall k :: 0 <= k < |s.collected| ==> s.collected[k].0 < |s.queues| && !s.collected[k].1.kind.Sync?
  }

  ghost predicate Synchronous(waiting: seq<seq<Frame>>, made: seq<seq<Frame>>, sync: Frame) {
    |waiting| == |made| && sync.kind.Sync? && forall i :: 0 <= i < |made| ==> NoSync(waiting[i]) && NoSync(made[i])
  }

  lemma StepKeepsBranch(s: State, a: Action, waiting: seq<seq<Frame>>, made: seq<seq<Frame>>, sync: Frame, i: nat)
    requires Synchronous(waiting, made, sync) && Inv(s, waiting, made, sync) && Enabled(s, a) && i < |s.queues|
    ensures BranchInv(Step(s, a), waiting, made, sync, i)
  {
    var s' := Step(s, a);
    assert BranchInv(s, waiting, made, sync, i);
    var got := FromBranch(s.collected, i);
    if s'.collected != s.collected {
      assert s'.collected[..|s.collected|] == s.collected;
    }
    if a.i == i {
      if a.Arrive? {
        assert got + s'.queues[i] + s'.todo[i] == got + s.queues[i] + s.todo[i];
      } else {
        var next := s.queues[i][0];
        var all := Expected(waiting, made, i) + [sync];
        assert (got + s.queues[i] + s.todo[i])[|got|] == next;
        if next.kind.Sync? {
          assert all[|got|] == next;
          assert |got| == |all| - 1;
          assert |got + s.queues[i] + s.todo[i]| == |got| + 1;
          assert got == all[..|got|];
        } else {
          assert (got + [next]) + s'.queues[i] + s'.todo[i] == got + s.queues[i] + s.todo[i];
        }
      }
    }
  }

  lemma {:induction false} RunKeepsInv(s: State, acts: seq<Action>, waiting: seq<seq<Frame>>, made: seq<seq<Frame>>, sync: Frame)
    requires Synchronous(waiting, made, sync) && Inv(s, waiting, made, sync) && Legal(s, acts)
    ensures Inv(Exec(s, acts), waiting, made, sync)
    decreases |acts|
  {
    if acts != [] {
      var s' := Step(s, acts[0]);
      forall i | 0 <= i < |s'.queues| ensures BranchInv(s', waiting, made, sync, i) {
        StepKeepsBranch(s, acts[0], waiting, made, sync, i);
      }
      RunKeepsInv(s', acts[1..], waiting, made, sync);
    }
  }

  // ---------------------------------------------------------------- every run ends, with everything collected

  function Total(qs: seq<seq<Frame>>): nat {
    if qs == [] then 0 else |qs[0]| + Total(qs[1..])
  }

  lemma {:induction false} TotalUpdate(qs: seq<seq<Frame>>, i: nat, q: seq<Frame>)
    requires i < |qs|
    ensures Total(qs[i := q]) + |qs[i]| == Total(qs) + |q|
  {
    if i == 0 {
      assert qs[i := q][1..] == qs[1..];
    } else {
      TotalUpdate(qs[1..], i - 1, q);
      assert qs[i := q][1..] == qs[1..][i - 1 := q];
    }
  }

  /** What is left to do: a frame still to come takes two steps, one waiting to be read takes one. */
  function Remaining(s: State): nat {
    2 * Total(s.todo) + Total(s.queues)
  }

  lemma {:induction false} RunsAreBounded(s: State, acts: seq<Action>)
    requires Legal(s, acts)
    ensures |acts| + Remaining(Exec(s, acts)) == Remaining(s)
    decreases |acts|
  {
    if acts != [] {
      var i, s' := acts[0].i, Step(s, acts[0]);
      TotalUpdate(s.queues, i, s'.queues[i]);
      if acts[0].Arrive? {
        TotalUpdate(s.todo, i, s'.todo[i]);
      }
      RunsAreBounded(s', acts[1..]);
    }
  }

  lemma {:induction false} FromBranchNoSync(collected: seq<(nat, Frame)>, i: nat)
    requires forall k :: 0 <= k < |collected| ==> !collected[k].1.kind.Sync?
    ensures NoSync(FromBranch(collected, i))
  {
    if collected != [] {
      FromBranchNoSync(collected[..|collected| - 1], i);
    }
  }

  ghost predicate Finished(s: State) {
    WellFormed(s) && forall i :: 0 <= i < |s.done| ==> s.done[i]
  }

  /** A branch whose sentinel has not been read always has a step to take. */
  lemma NeverStuck(s: State, waiting: seq<seq<Frame>>, made: seq<seq<Frame>>, sync: Frame, i: nat)
    requires Synchronous(waiting, made, sync) && Inv(s, waiting, made, sync)
    requires i < |s.done| && !s.done[i]
    ensures Enabled(s, Arrive(i)) || Enabled(s, Collect(i))
  {
    assert BranchInv(s, waiting, made, sync, i);
    FromBranchNoSync(s.collected, i);
    var got, all := FromBranch(s.collected, i), Expected(waiting, made, i) + [sync];
    assert all[|all| - 1] == sync;
    assert got != all;
    assert got + [] + [] == got;
  }

  lemma StartHolds(waiting: seq<seq<Frame>>, made: seq<seq<Frame>>, sync: Frame)
    requires Synchronous(waiting, made, sync)
    ensures Inv(Start(waiting, made, sync), waiting, made, sync)
  {
    var s := Start(waiting, made, sync);
    forall i | 0 <= i < |s.queues| ensures BranchInv(s, waiting, made, sync, i) {
      assert [] + waiting[i] + (made[i] + [sync]) == waiting[i] + made[i] + [sync];
    }
  }

  // ---------------------------------------------------------------- the two release orders

  function Flatten(parts: seq<seq<Frame>>): seq<Frame> {
    if parts == [] then [] else Flatten(parts[..|parts| - 1]) + parts[|parts| - 1]
  }

  /** What a synchronization hands on, branch by branch or as the frames arrived. */
  function ByBranch(parts: seq<seq<Frame>>): seq<Frame> {
    Dedup(Flatten(parts))
  }

  function ByArrival(collected: seq<(nat, Frame)>): seq<Frame> {
    Dedup(Arrived(collected))
  }

  lemma {:induction false} InFlatten(parts: seq<seq<Frame>>, f: Frame)
    ensures f in Flatten(parts) <==> exists i :: 0 <= i < |parts| && f in parts[i]
  {
    if parts != [] {
      var n := |parts| - 1;
      InFlatten(parts[..n], f);
      if f in Flatten(parts[..n]) {
        var i :| 0 <= i < n && f in parts[..n][i];
        assert f in parts[i];
      }
      if i :| 0 <= i < |parts| && f in parts[i] && i < n {
        assert f in parts[..n][i];
      }
    }
  }

  lemma {:induction false} InFromBranch(collected: seq<(nat, Frame)>, i: nat, f: Frame)
    ensures f in FromBranch(collected, i) <==> exists k :: 0 <= k < |collected| && collected[k] == (i, f)
  {
    if collected != [] {
      var n := |collected| - 1;
      InFromBranch(collected[..n], i, f);
      if k :| 0 <= k < |collected| && collected[k] == (i, f) && k < n {
        assert collected[..n][k] == (i, f);
      }
    }
  }

  lemma SameFramesSameIds(p: seq<Frame>, q: seq<Frame>)
    requires forall f :: f in p <==> f in q
    ensures Ids(p) == Ids(q)
  {
    forall id | id in Ids(p) ensures id in Ids(q) {
      var i :| 0 <= i < |p| && p[i].id == id;
      assert p[i] in q;
    }
    forall id | id in Ids(q) ensures id in Ids(p) {
      var i :| 0 <= i < |q| && q[i].id == id;
      assert q[i] in p;
    }
  }

  /** The branches' outputs, read one after the other, hold the frames that arrived. */
  lemma SameFrames(collected: seq<(nat, Frame)>, parts: seq<seq<Frame>>, f: Frame)
    requires forall i :: 0 <= i < |parts| ==> FromBranch(collected, i) == parts[i]
    requires forall k :: 0 <= k < |collected| ==> collected[k].0 < |parts|
    ensures f in Flatten(parts) <==> f in Arrived(collected)
  {
    InFlatten(parts, f);
    if f in Flatten(parts) {
      var i :| 0 <= i < |parts| && f in parts[i];
      InFromBranch(collected, i, f);
      var k :| 0 <= k < |collected| && collected[k] == (i, f);
      assert Arrived(collected)[k] == f;
    }
    if f in Arrived(collected) {
      var k :| 0 <= k < |collected| && Arrived(collected)[k] == f;
      InFromBranch(collected, collected[k].0, f);
      assert f in parts[collected[k].0];
    }
  }

  function Outputs(waiting: seq<seq<Frame>>, made: seq<seq<Frame>>): seq<seq<Frame>>
    requires |waiting| == |made|
  {
    seq(|made|, i requires 0 <= i < |made| => Expected(waiting, made, i))
  }

  /** Over every interleaving of any number of synchronous branches: a run that can go no further, and every
      run gets there, has read every sentinel and left nothing behind. What it collected is an interleaving
      of what the branches put out. The two release orders hand on the same ids, those the branches put out,
      each once, and no sentinel. */
  lemma OutputIsReleased(waiting: seq<seq<Frame>>, made: seq<seq<Frame>>, sync: Frame, acts: seq<Action>)
    requires Synchronous(waiting, made, sync) && Legal(Start(waiting, made, sync), acts)
    ensures |acts| <= Remaining(Start(waiting, made, sync))
    ensures var s, parts := Exec(Start(waiting, made, sync), acts), Outputs(waiting, made);
            (forall a :: !Enabled(s, a)) ==>
              Finished(s)
              && |s.queues| == |parts|
              && (forall i :: 0 <= i < |parts| ==> s.queues[i] == [] && s.todo[i] == [] && FromBranch(s.collected, i) == parts[i])
              && (forall k :: 0 <= k < |s.collected| ==> s.collected[k].0 < |parts|)
              && Ids(ByBranch(parts)) == Ids(ByArrival(s.collected)) == Ids(Flatten(parts))
              && DistinctIds(ByBranch(parts)) && DistinctIds(ByArrival(s.collected))
              && NoSync(ByBranch(parts)) && NoSync(ByArrival(s.collected))
  {
    var s0, parts := Start(waiting, made, sync), Outputs(waiting, made);
    RunsAreBounded(s0, acts);
    StartHolds(waiting, made, sync);
    RunKeepsInv(s0, acts, waiting, made, sync);
    var s := Exec(s0, acts);
    if forall a :: !Enabled(s, a) {
      forall i | 0 <= i < |parts|
        ensures s.done[i] && s.queues[i] == [] && s.todo[i] == [] && FromBranch(s.collected, i) == parts[i]
      {
        if !s.done[i] {
          NeverStuck(s, waiting, made, sync, i);
          assert false;
        }
        assert BranchInv(s, waiting, made, sync, i);
      }
      forall f ensures f in Flatten(parts) <==> f in Arrived(s.collected) {
        SameFrames(s.collected, parts, f);
      }
      SameFramesSameIds(Flatten(parts), Arrived(s.collected));
      DedupReleasesOnce(Flatten(parts));
      DedupReleasesOnce(Arrived(s.collected));
      NoSyncReleased(parts, s.collected);
    }
  }

  lemma NoSyncReleased(parts: seq<seq<Frame>>, collected: seq<(nat, Frame)>)
    requires forall f :: f in Flatten(parts) <==> f in Arrived(collected)
    requires forall k :: 0 <= k < |collected| ==> !collected[k].1.kind.Sync?
    ensures NoSync(ByBranch(parts)) && NoSync(ByArrival(collected))
  {
    DedupReleasesOnce(Flatten(parts));
    DedupReleasesOnce(Arrived(collected));
    forall f | f in Arrived(collected) ensures !f.kind.Sync? {
      var k :| 0 <= k < |collected| && Arrived(collected)[k] == f;
    }
    forall i | 0 <= i < |ByBranch(parts)| ensures !ByBranch(parts)[i].kind.Sync? {
      assert ByBranch(parts)[i] in ByBranch(parts);
    }
    forall i | 0 <= i < |ByArrival(collected)| ensures !ByArrival(collected)[i].kind.Sync? {
      assert ByArrival(collected)[i] in ByArrival(collected);
    }
  }

  // ---------------------------------------------------------------- what one branch's wait collects

  /** What is collected goes behind what arrived before. */
  lemma CollectedArrivesLast(s: State, i: nat)
    requires Enabled(s, Collect(i)) && !s.queues[i][0].kind.Sync?
    ensures Arrived(Step(s, Collect(i)).collected) == Arrived(s.collected) + [s.queues[i][0]]
  {
    assert Step(s, Collect(i)).collected == s.collected + [(i, s.queues[i][0])];
  }

  /** Where a wait for the sentinel stops: at the first SyncFrame, or when the context ends it. */
  function SyncAt(q: seq<Frame>): (n: nat)
    ensures n <= |q|
  {
    if q == [] || q[0].kind.Sync? then 0 else 1 + SyncAt(q[1..])
  }

  function EndAt(q: seq<Frame>): (n: nat)
    ensures n <= |q|
  {
    if q == [] || q[0].kind.End? then 0 else 1 + EndAt(q[1..])
  }

  /** What waitForSync collects from a branch that puts out q. An EndFrame is its own sentinel, and is
      collected only when nothing comes ahead of it. */
  function Collected(f: Frame, q: seq<Frame>): seq<Frame> {
    if !f.kind.End? then q[..SyncAt(q)]
    else if q != [] && q[0].kind.End? then q[..1]
    else q[..EndAt(q)]
  }

  /** What it leaves in the branch's queue: the sentinel is gone. */
  function LeftBehind(f: Frame, q: seq<Frame>): seq<Frame> {
    var n := if f.kind.End? then EndAt(q) else SyncAt(q);
    if n == |q| then [] else q[n + 1..]
  }

  /** Behind a synchronous branch, the wait returns what the machine collects from it, and empties its queue. */
  lemma {:induction false} WaitCollectsAll(f: Frame, put: seq<Frame>, sync: Frame)
    requires !f.kind.End? && sync.kind.Sync? && NoSync(put)
    ensures Collected(f, put + [sync]) == put && LeftBehind(f, put + [sync]) == []
  {
    var q := put + [sync];
    SyncAtSentinel(put, sync);
    assert q[..|put|] == put && q[|put| + 1..] == [];
  }

  /** For an EndFrame, the wait returns what the branch puts out ahead of it and drops the EndFrame, or returns the
      EndFrame if nothing is ahead of it; what is behind it stays queued. */
  lemma {:induction false} EndWaitCollects(f: Frame, put: seq<Frame>, e: Frame, rest: seq<Frame>)
    requires f.kind.End? && e.kind.End? && forall i :: 0 <= i < |put| ==> !put[i].kind.End?
    ensures Collected(f, put + [e] + rest) == (if put == [] then [e] else put) && LeftBehind(f, put + [e] + rest) == rest
    ensures Collected(f, put) == put && LeftBehind(f, put) == []
  {
    EndAtSentinel(put, e, rest);
    NoEndAtAll(put);
    var q := put + [e] + rest;
    assert q[..|put|] == put && q[|put| + 1..] == rest && q[|put|] == e;
  }

  lemma {:induction false} EndAtSentinel(put: seq<Frame>, e: Frame, rest: seq<Frame>)
    requires e.kind.End? && forall i :: 0 <= i < |put| ==> !put[i].kind.End?
    ensures EndAt(put + [e] + rest) == |put|
  {
    if put != [] {
      EndAtSentinel(put[1..], e, rest);
      assert (put + [e] + rest)[1..] == put[1..] + [e] + rest;
    }
  }

  lemma {:induction false} NoEndAtAll(put: seq<Frame>)
    requires forall i :: 0 <= i < |put| ==> !put[i].kind.End?
    ensures EndAt(put) == |put|
  {
    if put != [] {
      NoEndAtAll(put[1..]);
    }
  }

  lemma {:induction false} SyncAtSentinel(put: seq<Frame>, sync: Frame)
    requires sync.kind.Sync? && NoSync(put)
    ensures SyncAt(put + [sync]) == |put|
  {
    if put != [] {
      SyncAtSentinel(put[1..], sync);
      assert (put + [sync])[1..] == put[1..] + [sync];
    }
  }

  lemma {:induction false} NoEndBefore(q: seq<Frame>)
    ensures forall k :: 0 <= k < EndAt(q) ==> !q[k].kind.End?
  {
    if q != [] && !q[0].kind.End? {
      NoEndBefore(q[1..]);
      forall k | 0 <= k < EndAt(q) ensures !q[k].kind.End? {
        if k > 0 {
          assert q[k] == q[1..][k - 1];
        }
      }
    }
  }

  /** Frame ids are unique: frames that share one are the same frame. */
  ghost predicate OneFramePerId(puts: seq<seq<Frame>>) {
    forall f, g :: f in Flatten(puts) && g in Flatten(puts) && f.id == g.id ==> f == g
  }

  /** The EndFrame path does not keep its promise: the EndFrame leaves the pipeline if and only if some
      branch puts it out ahead of everything else. */
  lemma EndFrameLeavesIffFirst(f: Frame, puts: seq<seq<Frame>>)
    requires f.kind.End? && OneFramePerId(puts)
    ensures var parts := seq(|puts|, i requires 0 <= i < |puts| => Collected(f, puts[i]));
            (exists g :: g in ByBranch(parts) && g.kind.End?) <==>
            (exists i :: 0 <= i < |puts| && puts[i] != [] && puts[i][0].kind.End?)
  {
    var parts := seq(|puts|, i requires 0 <= i < |puts| => Collected(f, puts[i]));
    DedupReleasesOnce(Flatten(parts));
    if g :| g in ByBranch(parts) && g.kind.End? {
      InFlatten(parts, g);
      var i :| 0 <= i < |parts| && g in parts[i];
      NoEndBefore(puts[i]);
      assert puts[i] != [] && puts[i][0].kind.End?;
    }
    if i :| 0 <= i < |puts| && puts[i] != [] && puts[i][0].kind.End? {
      var e := puts[i][0];
      assert e in parts[i];
      InFlatten(parts, e);
      ReleasedOrTwin(parts, e);
      var g :| g in ByBranch(parts) && g.id == e.id;
      CollectedFromPuts(f, puts, parts, g);
      CollectedFromPuts(f, puts, parts, e);
    }
  }

  lemma ReleasedOrTwin(parts: seq<seq<Frame>>, e: Frame)
    requires e in Flatten(parts)
    ensures exists g :: g in ByBranch(parts) && g.id == e.id
  {
    var all, kept := Flatten(parts), ByBranch(parts);
    DedupReleasesOnce(all);
    var k :| 0 <= k < |all| && all[k] == e;
    assert e.id in Ids(all);
    var j :| 0 <= j < |kept| && kept[j].id == e.id;
    assert kept[j] in kept;
  }

  lemma CollectedFromPuts(f: Frame, puts: seq<seq<Frame>>, parts: seq<seq<Frame>>, g: Frame)
    requires |parts| == |puts| && forall i :: 0 <= i < |puts| ==> parts[i] == Collected(f, puts[i])
    requires g in Flatten(parts)
    ensures g in Flatten(puts)
  {
    InFlatten(parts, g);
    var i :| 0 <= i < |parts| && g in parts[i];
    assert g in puts[i];
    InFlatten(puts, g);
  }

  // ---------------------------------------------------------------- the processor

  class SyncParallelPipeline {
    /** Everything is released by branch rather than as it arrived. */
    const byBranch: bool
    /** What the end of each branch has collected, for one direction. */
    var queues: seq<seq<Frame>>
    /** The queue the branches share, for that direction. */
    var main: seq<Frame>
    ghost var out: seq<Frame>

    constructor (byBranch: bool, branches: nat)
      ensures this.byBranch == byBranch && main == [] && out == []
      ensures |queues| == branches && forall i :: 0 <= i < branches ==> queues[i] == []
    {
      this.byBranch := byBranch;
      queues, main, out := seq(branches, i => []), [], [];
    }

    method PushFrame(f: Frame)
      modifies this`out
      ensures out == old(out) + [f]
    {
      out := out + [f];
    }

    method Collect(fr: Frame, part: seq<Frame>) returns (more: seq<Frame>)
      modifies this`main
      ensures if byBranch then more == part + [fr] && main == old(main) else more == part && main == old(main) + [fr]
    {
      if byBranch {
        return part + [fr];
      }
      main := main + [fr];
      more := part;
    }

    /** The wait on branch i once the branch has put out all it will for f; a queue that runs dry stands for
        a context that ends. */
    method WaitForSync(i: nat, f: Frame) returns (part: seq<Frame>)
      requires i < |queues|
      modifies this`queues, this`main
      ensures queues == old(queues)[i := LeftBehind(f, old(queues[i]))]
      ensures if byBranch then part == Collected(f, old(queues[i])) && main == old(main)
              else part == [] && main == old(main) + Collected(f, old(queues[i]))
    {
      part := [];
      ghost var q := queues[i];
      if f.kind.End? {
        var next, ok := Get(i);
        if !ok {
          assert queues[i := []] == queues;
          return;
        }
        if next.kind.End? {
          part := Collect(next, part);
          return;
        }
        assert [next] + queues[i] == q;
        part := CollectUntilEnd(i, next);
      } else {
        part := CollectUntilSync(i);
      }
    }

    /** The next frame branch i put out, if there is one. */
    method Get(i: nat) returns (next: Frame, ok: bool)
      requires i < |queues|
      modifies this`queues
      ensures ok == (old(queues[i]) != [])
      ensures if ok then next == old(queues[i])[0] && queues == old(queues)[i := old(queues[i])[1..]]
              else queues == old(queues)
    {
      ok := queues[i] != [];
      if ok {
        next := queues[i][0];
        queues := queues[i := queues[i][1..]];
      } else {
        next := Frame(0, Other);
      }
    }

    method CollectUntilSync(i: nat) returns (part: seq<Frame>)
      requires i < |queues|
      modifies this`queues, this`main
      ensures var q, n := old(queues[i]), SyncAt(old(queues[i]));
              queues == old(queues)[i := if n == |q| then [] else q[n + 1..]]
              && if byBranch then part == q[..n] && main == old(main) else part == [] && main == old(main) + q[..n]
    {
      part := [];
      ghost var q, n: nat := queues[i], 0;
      while true
        invariant n <= |q| && |queues| == |old(queues)| && queues == old(queues)[i := q[n..]]
        invariant SyncAt(q) == n + SyncAt(q[n..])
        invariant if byBranch then part == q[..n] && main == old(main) else part == [] && main == old(main) + q[..n]
        decreases |q| - n
      {
        var next, ok := Get(i);
        if !ok || next.kind.Sync? {
          return;
        }
        part := Collect(next, part);
        assert q[..n + 1] == q[..n] + [q[n]] && q[n..][1..] == q[n + 1..];
        n := n + 1;
      }
    }

    /** first has been taken from the queue already, and is not an EndFrame. */
    method CollectUntilEnd(i: nat, first: Frame) returns (part: seq<Frame>)
      requires i < |queues| && !first.kind.End?
      modifies this`queues, this`main
      ensures var q := [first] + old(queues[i]);
              var n := EndAt(q);
              queues == old(queues)[i := if n == |q| then [] else q[n + 1..]]
              && if byBranch then part == q[..n] && main == old(main) else part == [] && main == old(main) + q[..n]
    {
      part := [];
      var next, ok := first, true;
      ghost var q, n: nat := [first] + queues[i], 0;
      assert q[1..] == queues[i] && queues[i := q[1..]] == queues;
      while !next.kind.End?
        invariant n < |q| && next == q[n] && |queues| == |old(queues)| && queues == old(queues)[i := q[n + 1..]]
        invariant EndAt(q) == n + EndAt(q[n..])
        invariant if byBranch then part == q[..n] && main == old(main) else part == [] && main == old(main) + q[..n]
        decreases |q| - n
      {
        part := Collect(next, part);
        assert q[..n + 1] == q[..n] + [q[n]] && q[n..][1..] == q[n + 1..];
        n := n + 1;
        next, ok := Get(i);
        if !ok {
          assert q[..n] == q;
          return;
        }
        assert q[n..][1..] == q[n + 1..];
      }
    }

    /** Pushes what of one branch's output was not seen in what came before it. */
    method PushNew(part: seq<Frame>, earlier: set<nat>, ghost before: seq<Frame>) returns (seen: set<nat>)
      requires earlier == Ids(before)
      modifies this`out
      ensures seen == Ids(before + part) && out == old(out) + News(before, part)
    {
      seen := earlier;
      var k := 0;
      assert before + part[..0] == before;
      while k < |part|
        invariant k <= |part|
        invariant seen == Ids(before + part[..k]) && out == old(out) + News(before, part[..k])
      {
        var f := part[k];
        assert before + part[..k + 1] == before + part[..k] + [f] && part[..k + 1][..k] == part[..k];
        IdsSnoc(before + part[..k], f);
        if f.id !in seen {
          seen := seen + {f.id};
          PushFrame(f);
        }
        k := k + 1;
      }
      assert part[..k] == part;
    }

    /** What every branch put out, branch by branch, without its duplicates. */
    method ReleaseByBranch(parts: seq<seq<Frame>>)
      modifies this`out
      ensures out == old(out) + ByBranch(parts)
    {
      var seen: set<nat> := {};
      var i := 0;
      while i < |parts|
        invariant i <= |parts|
        invariant seen == Ids(Flatten(parts[..i])) && out == old(out) + Dedup(Flatten(parts[..i]))
      {
        var part := parts[i];
        DedupAppend(Flatten(parts[..i]), part);
        seen := PushNew(part, seen, Flatten(parts[..i]));
        assert parts[..i + 1][..i] == parts[..i];
        i := i + 1;
      }
      assert parts[..i] == parts;
    }

    /** Empties the shared queue, without its duplicates. */
    method Drain()
      modifies this`main, this`out
      ensures main == [] && out == old(out) + Dedup(old(main))
    {
      var seen: set<nat> := {};
      ghost var q, n := main, 0;
      while main != []
        invariant n <= |q| && main == q[n..]
        invariant seen == Ids(q[..n]) && out == old(out) + Dedup(q[..n])
        decreases |main|
      {
        var f := main[0];
        main := main[1..];
        assert q[..n + 1] == q[..n] + [f];
        IdsSnoc(q[..n], f);
        DedupSnoc(q[..n], f);
        n := n + 1;
        if f.id !in seen {
          seen := seen + {f.id};
          PushFrame(f);
        }
      }
      assert q[..n] == q;
    }

    /** A data or control frame, its branches having put out all they will for it, waited on one after the
        other. */
    method ProcessFrame(f: Frame)
      requires main == []
      modifies this
      ensures var parts := seq(|old(queues)|, i requires 0 <= i < |old(queues)| => Collected(f, old(queues)[i]));
              out == old(out) + ByBranch(parts) && main == []
      ensures |queues| == |old(queues)| && forall i :: 0 <= i < |queues| ==> queues[i] == LeftBehind(f, old(queues)[i])
    {
      var perBranch: seq<seq<Frame>> := [];
      ghost var was := queues;
      ghost var parts := seq(|was|, i requires 0 <= i < |was| => Collected(f, was[i]));
      var i := 0;
      while i < |queues|
        invariant i <= |queues| == |was| && |perBranch| == i && out == old(out)
        invariant forall j :: 0 <= j < |was| ==> queues[j] == if j < i then LeftBehind(f, was[j]) else was[j]
        invariant if byBranch then perBranch == parts[..i] && main == [] else main == Flatten(parts[..i])
      {
        var part := WaitForSync(i, f);
        perBranch := perBranch + [part];
        assert parts[..i + 1] == parts[..i] + [parts[i]] && parts[..i + 1][..i] == parts[..i];
        i := i + 1;
      }
      assert parts[..i] == parts;
      if byBranch {
        ReleaseByBranch(perBranch);
        return;
      }
      Drain();
    }
  }
}
