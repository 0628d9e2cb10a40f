/**
 The parallel pipeline (pipeline/parallel.go): N branches share one output, guarded by one mutex.

 Every critical section is a function on the guarded fields. A machine interleaves the sections of any
 number of goroutines. The class holds the Go fields, and its methods run the same sections.
 */
module Parallel {
  import opened Frames

  datatype Held = Held(frame: Frame, dir: Direction)

  /** The fields guarded by the mutex, and the frames that left through PushFrame, in order. */
  datatype Shared = Shared(seen: set<nat>, counter: map<nat, nat>, syncing: bool, buffered: seq<Held>, out: seq<Held>)

  // ---------------------------------------------------------------- critical sections

  function ArmSection(s: Shared, f: Frame, branches: nat): Shared {
    s.(counter := s.counter[f.id := branches], syncing := true)
  }

  /** The check of emit: drop, hold back, or (true) leave it to the caller to push. */
  function EmitSection(s: Shared, h: Held): (Shared, bool) {
    if h.frame.id in s.seen then (s, false)
    else if s.syncing then (s.(seen := s.seen + {h.frame.id}, buffered := s.buffered + [h]), false)
    else (s.(seen := s.seen + {h.frame.id}), true)
  }

  /** The countdown of sinkPush; true when the frame is to be released. */
  function ReportSection(s: Shared, f: Frame): (Shared, bool) {
    var n := if f.id in s.counter then s.counter[f.id] else 0;
    if n > 1 then (s.(counter := s.counter[f.id := n - 1]), false)
    else (s.(counter := s.counter - {f.id}), true)
  }

  /** The check of emitSynchronized; true when the frame is to be pushed. */
  function AnnounceSection(s: Shared, f: Frame): (Shared, bool) {
    if f.id in s.seen then (s, false) else (s.(seen := s.seen + {f.id}), true)
  }

  /** One turn of the loop in flushBuffered: pop one held frame, or end the synchronization. */
  function DrainSection(s: Shared): (Shared, seq<Held>) {
    if s.buffered == [] then (s.(syncing := false), []) else (s.(buffered := s.buffered[1..]), s.buffered[..1])
  }

  function PushOut(s: Shared, h: Held): Shared {
    s.(out := s.out + [h])
  }

  // ---------------------------------------------------------------- the interleaved machine

  /** Where a goroutine is: idle, in emit between check and push, or somewhere in sinkPush's release of h. */
  datatype Pc =
    | Idle
    | Emitting(h: Held)
    | Announcing(h: Held)
    | Pushing(h: Held)
    | Draining(h: Held)
    | Handing(h: Held, item: Held)
    | Resuming(h: Held)

  /** History of the latest synchronization: what it is for, what had escaped when it was armed, the ids
      in the hands of emit at that moment, the frames held back since in emission order, how many branches
      have been counted down, and of the moment the last of them was, the ids that had been seen and those
      still in the hands of emit. */
  datatype Window = Window(frame: Frame, from: nat, owed: set<nat>, held: seq<Held>, reports: nat,
                           closing: set<nat>, late: set<nat>)

  datatype State = State(shared: Shared, threads: seq<Pc>, paused: bool, branches: nat, window: Window)

  datatype Action = Arm(f: Frame) | Emit(t: nat, h: Held) | Report(t: nat, h: Held) | Continue(t: nat)

  function Init(branches: nat, goroutines: nat): State {
    State(Shared({}, map[], false, [], []), seq(goroutines, i => Idle), false, branches,
          Window(Frame(0, Other), 0, {}, [], 0, {}, {}))
  }

  ghost predicate Enabled(s: State, a: Action) {
    match a
    case Arm(f) => IsLifecycle(f)
    case Emit(t, h) => t < |s.threads| && s.threads[t] == Idle
    case Report(t, h) => t < |s.threads| && s.threads[t] == Idle && IsLifecycle(h.frame)
    case Continue(t) => t < |s.threads| && s.threads[t] != Idle
  }

  ghost function EmitHands(threads: seq<Pc>): set<nat> {
    set t | 0 <= t < |threads| && threads[t].Emitting? :: threads[t].h.frame.id
  }

  ghost function Step(s: State, a: Action): State
    requires Enabled(s, a)
  {
    match a
    case Arm(f) =>
      s.(shared := ArmSection(s.shared, f, s.branches), paused := true,
         window := Window(f, |s.shared.out|, EmitHands(s.threads), [], 0, {}, {}))
    case Emit(t, h) =>
      var (shared, push) := EmitSection(s.shared, h);
      s.(shared := shared,
         threads := if push then s.threads[t := Emitting(h)] else s.threads,
         window := if shared.buffered != s.shared.buffered then s.window.(held := s.window.held + [h]) else s.window)
    case Report(t, h) =>
      var (shared, last) := ReportSection(s.shared, h.frame);
      s.(shared := shared,
         threads := if !last then s.threads
                    else s.threads[t := if h.frame.kind.Start? then Announcing(h) else Draining(h)],
         window := if h.frame.id !in s.shared.counter then s.window
                   else if !last then s.window.(reports := s.window.reports + 1)
                   else s.window.(reports := s.window.reports + 1, closing := s.shared.seen, late := EmitHands(s.threads)))
    case Continue(t) => Advance(s, t)
  }

  function AfterAnnounce(h: Held): Pc {
    if h.frame.kind.Start? then Draining(h) else Resuming(h)
  }

  function AfterDrain(h: Held): Pc {
    if h.frame.kind.Start? then Resuming(h) else Announcing(h)
  }

  function Advance(s: State, t: nat): State
    requires t < |s.threads|
  {
    match s.threads[t]
    case Idle => s
    case Emitting(h) => s.(shared := PushOut(s.shared, h), threads := s.threads[t := Idle])
    case Announcing(h) =>
      var (shared, push) := AnnounceSection(s.shared, h.frame);
      s.(shared := shared, threads := s.threads[t := if push then Pushing(h) else AfterAnnounce(h)])
    case Pushing(h) => s.(shared := PushOut(s.shared, h), threads := s.threads[t := AfterAnnounce(h)])
    case Draining(h) =>
      var (shared, popped) := DrainSection(s.shared);
      s.(shared := shared, threads := s.threads[t := if popped == [] then AfterDrain(h) else Handing(h, popped[0])])
    case Handing(h, item) => s.(shared := PushOut(s.shared, item), threads := s.threads[t := Draining(h)])
    case Resuming(h) => s.(paused := false, threads := s.threads[t := Idle])
  }

  /** acts is a run the machine allows from s. */
  ghost predicate Legal(s: State, acts: seq<Action>)
    decreases |acts|
  {
    acts == [] || (Enabled(s, acts[0]) && Legal(Step(s, acts[0]), acts[1..]))
  }

  ghost function Exec(s: State, acts: seq<Action>): State
    requires Legal(s, acts)
    decreases |acts|
  {
    if acts == [] then s else Exec(Step(s, acts[0]), acts[1..])
  }

  // ---------------------------------------------------------------- an id escapes at most once

  function Count(q: seq<Held>, id: nat): nat {
    if q == [] then 0 else (if q[0].frame.id == id then 1 else 0) + Count(q[1..], id)
  }

  function InHand(pc: Pc, id: nat): nat {
    match pc
    case Emitting(h) => if h.frame.id == id then 1 else 0
    case Pushing(h) => if h.frame.id == id then 1 else 0
    case Handing(_, item) => if item.frame.id == id then 1 else 0
    case _ => 0
  }

  function InHands(threads: seq<Pc>, id: nat): nat {
    if threads == [] then 0 else InHand(threads[0], id) + InHands(threads[1..], id)
  }

  /** How often id has escaped, is held back, or is in the hands of a step pushing it. */
  function Places(s: State, id: nat): nat {
    Count(s.shared.out, id) + Count(s.shared.buffered, id) + InHands(s.threads, id)
  }

  /** An id recorded as seen is in exactly one place, any other in none. */
  ghost predicate Partition(s: State) {
    forall id :: Places(s, id) == if id in s.shared.seen then 1 else 0
  }

  lemma {:induction false} CountSnoc(q: seq<Held>, h: Held, id: nat)
    ensures Count(q + [h], id) == Count(q, id) + if h.frame.id == id then 1 else 0
  {
    if q != [] {
      CountSnoc(q[1..], h, id);
      assert (q + [h])[1..] == q[1..] + [h];
    }
  }

  lemma {:induction false} CountAt(q: seq<Held>, i: nat)
    requires i < |q|
    ensures Count(q, q[i].frame.id) >= 1
  {
    if i > 0 {
      CountAt(q[1..], i - 1);
    }
  }

  lemma {:induction false} CountOnce(q: seq<Held>, i: nat, j: nat)
    requires i < j < |q| && q[i].frame.id == q[j].frame.id
    ensures Count(q, q[i].frame.id) >= 2
  {
    if i == 0 {
      CountAt(q[1..], j - 1);
    } else {
      CountOnce(q[1..], i - 1, j - 1);
    }
  }

  /** Moving one goroutine exchanges what that goroutine holds. */
  lemma {:induction false} InHandsUpdate(threads: seq<Pc>, t: nat, pc: Pc, id: nat)
    requires t < |threads|
    ensures InHands(threads[t := pc], id) + InHand(threads[t], id) == InHands(threads, id) + InHand(pc, id)
  {
    if t == 0 {
      assert threads[t := pc][1..] == threads[1..];
    } else {
      InHandsUpdate(threads[1..], t - 1, pc, id);
      assert threads[t := pc][1..] == threads[1..][t - 1 := pc];
    }
  }

  lemma {:induction false} NoHands(n: nat, id: nat)
    ensures InHands(seq(n, i => Idle), id) == 0
  {
    if n > 0 {
      NoHands(n - 1, id);
      assert seq(n, i => Idle)[1..] == seq(n - 1, i => Idle);
    }
  }

  lemma AdvanceMovesOnePlace(s: State, t: nat, id: nat)
    requires t < |s.threads|
    ensures var s' := Advance(s, t);
            s.shared.seen <= s'.shared.seen
            && Places(s', id) == Places(s, id) + if id in s'.shared.seen - s.shared.seen then 1 else 0
  {
    var s' := Advance(s, t);
    InHandsUpdate(s.threads, t, s'.threads[t], id);
    assert s'.threads == s.threads[t := s'.threads[t]];
    match s.threads[t]
    case Emitting(h) => CountSnoc(s.shared.out, h, id);
    case Pushing(h) => CountSnoc(s.shared.out, h, id);
    case Handing(_, item) => CountSnoc(s.shared.out, item, id);
    case _ =>
  }

  lemma StepMovesOnePlace(s: State, a: Action, id: nat)
    requires Enabled(s, a)
    ensures var s' := Step(s, a);
            s.shared.seen <= s'.shared.seen
            && Places(s', id) == Places(s, id) + if id in s'.shared.seen - s.shared.seen then 1 else 0
  {
    var s' := Step(s, a);
    match a
    case Continue(t) => AdvanceMovesOnePlace(s, t, id);
    case Emit(t, h) =>
      InHandsUpdate(s.threads, t, s'.threads[t], id);
      CountSnoc(s.shared.buffered, h, id);
    case Report(t, _) => InHandsUpdate(s.threads, t, s'.threads[t], id);
    case Arm(_) =>
  }

  lemma StepKeepsPartition(s: State, a: Action)
    requires Enabled(s, a) && Partition(s)
    ensures Partition(Step(s, a))
  {
    forall id ensures Places(Step(s, a), id) == if id in Step(s, a).shared.seen then 1 else 0 {
      StepMovesOnePlace(s, a, id);
    }
  }

  lemma {:induction false} RunKeepsPartition(s: State, acts: seq<Action>)
    requires Legal(s, acts) && Partition(s)
    ensures Partition(Exec(s, acts))
    decreases |acts|
  {
    if acts != [] {
      StepKeepsPartition(s, acts[0]);
      RunKeepsPartition(Step(s, acts[0]), acts[1..]);
    }
  }

  /** In every run whatsoever, with any number of goroutines, of armed frames and of frames the branches
      raise themselves, no id escapes twice and every recorded id is in exactly one place. */
  lemma EscapesAtMostOnce(branches: nat, goroutines: nat, acts: seq<Action>)
    requires Legal(Init(branches, goroutines), acts)
    ensures var s := Exec(Init(branches, goroutines), acts);
            Partition(s)
            && forall i, j :: 0 <= i < j < |s.shared.out| ==> s.shared.out[i].frame.id != s.shared.out[j].frame.id
  {
    forall id ensures Places(Init(branches, goroutines), id) == 0 {
      NoHands(goroutines, id);
    }
    RunKeepsPartition(Init(branches, goroutines), acts);
    var s := Exec(Init(branches, goroutines), acts);
    forall i, j | 0 <= i < j < |s.shared.out|
      ensures s.shared.out[i].frame.id != s.shared.out[j].frame.id
    {
      var id := s.shared.out[i].frame.id;
      assert Places(s, id) <= 1;
      if id == s.shared.out[j].frame.id {
        CountOnce(s.shared.out, i, j);
        assert false;
      }
    }
  }

  // ---------------------------------------------------------------- what is accepted goes somewhere

  lemma {:induction false} RunGrowsSeen(s: State, acts: seq<Action>)
    requires Legal(s, acts)
    ensures s.shared.seen <= Exec(s, acts).shared.seen
    decreases |acts|
  {
    if acts != [] {
      StepMovesOnePlace(s, acts[0], 0);
      RunGrowsSeen(Step(s, acts[0]), acts[1..]);
    }
  }

  lemma {:induction false} EmittedIsSeen(s: State, acts: seq<Action>, i: nat)
    requires Legal(s, acts) && i < |acts| && acts[i].Emit?
    ensures acts[i].h.frame.id in Exec(s, acts).shared.seen
    decreases |acts|
  {
    if i == 0 {
      RunGrowsSeen(Step(s, acts[0]), acts[1..]);
    } else {
      EmittedIsSeen(Step(s, acts[0]), acts[1..], i - 1);
    }
  }

  lemma {:induction false} CountedIsThere(q: seq<Held>, id: nat)
    requires Count(q, id) > 0
    ensures exists k :: 0 <= k < |q| && q[k].frame.id == id
  {
    if q[0].frame.id != id {
      CountedIsThere(q[1..], id);
      var k :| 0 <= k < |q[1..]| && q[1..][k].frame.id == id;
      assert q[k + 1].frame.id == id;
    }
  }

  lemma {:induction false} IdleHoldsNothing(threads: seq<Pc>, id: nat)
    requires forall t :: 0 <= t < |threads| ==> threads[t] == Idle
    ensures InHands(threads, id) == 0
  {
    if threads != [] {
      IdleHoldsNothing(threads[1..], id);
    }
  }

  /** In every run whatsoever, each frame handed to emit has afterwards escaped, is held back, or is in the
      hands of a goroutine on its way out, exactly one of these and once; so that with nothing held back and
      every goroutine idle it has escaped. */
  lemma NoFrameIsDropped(branches: nat, goroutines: nat, acts: seq<Action>, i: nat)
    requires Legal(Init(branches, goroutines), acts) && i < |acts| && acts[i].Emit?
    ensures var s, id := Exec(Init(branches, goroutines), acts), acts[i].h.frame.id;
            Count(s.shared.out, id) + Count(s.shared.buffered, id) + InHands(s.threads, id) == 1
            && (s.shared.buffered == [] && (forall t :: 0 <= t < |s.threads| ==> s.threads[t] == Idle) ==>
                  exists k :: 0 <= k < |s.shared.out| && s.shared.out[k].frame.id == id)
  {
    EscapesAtMostOnce(branches, goroutines, acts);
    EmittedIsSeen(Init(branches, goroutines), acts, i);
    var s, id := Exec(Init(branches, goroutines), acts), acts[i].h.frame.id;
    assert Places(s, id) == 1;
    if s.shared.buffered == [] && forall t :: 0 <= t < |s.threads| ==> s.threads[t] == Idle {
      IdleHoldsNothing(s.threads, id);
      CountedIsThere(s.shared.out, id);
    }
  }

  /** With nothing being synchronized a frame not seen before is on its way at once, as it is, and its push is
      the goroutine's next step. */
  lemma EmitGoesStraightThrough(s: State, t: nat, h: Held)
    requires Enabled(s, Emit(t, h)) && !s.shared.syncing && h.frame.id !in s.shared.seen
    ensures Step(s, Emit(t, h)).threads[t] == Emitting(h) && Step(s, Emit(t, h)).shared.out == s.shared.out
    ensures Advance(Step(s, Emit(t, h)), t).shared.out == s.shared.out + [h]
    ensures Advance(Step(s, Emit(t, h)), t).threads[t] == Idle
  {
  }

  // ---------------------------------------------------------------- the barrier around a lifecycle frame

  /** What the pause and the branches guarantee: a lifecycle frame is armed only once the previous
      synchronization has resumed the pipeline, travels downstream, and is reported by each branch once. A
      branch may raise a lifecycle frame of its own, any number of times, but not while another is being
      synchronized, nor is one armed while the release of a raised frame is under way. */
  ghost predicate Disciplined(s: State, a: Action) {
    Enabled(s, a)
    && match a
       case Arm(f) => !s.paused && NoneReleasing(s.threads) && f.id !in s.shared.seen
       case Emit(_, h) => !IsLifecycle(h.frame) && (s.paused ==> h.frame.id != s.window.frame.id)
       case Report(_, h) => s.paused ==> h == Barrier(s) && s.window.reports < s.branches
       case Continue(_) => true
  }

  ghost predicate DisciplinedRun(s: State, acts: seq<Action>)
    decreases |acts|
  {
    acts == [] || (Disciplined(s, acts[0]) && DisciplinedRun(Step(s, acts[0]), acts[1..]))
  }

  lemma {:induction false} DisciplinedIsLegal(s: State, acts: seq<Action>)
    requires DisciplinedRun(s, acts)
    ensures Legal(s, acts)
    decreases |acts|
  {
    if acts != [] {
      DisciplinedIsLegal(Step(s, acts[0]), acts[1..]);
    }
  }

  function Without(q: seq<Held>, ids: set<nat>): seq<Held> {
    if q == [] then []
    else Without(q[..|q| - 1], ids) + if q[|q| - 1].frame.id in ids then [] else q[|q| - 1..]
  }

  lemma WithoutSnoc(q: seq<Held>, h: Held, ids: set<nat>)
    ensures Without(q + [h], ids) == Without(q, ids) + if h.frame.id in ids then [] else [h]
  {
    assert (q + [h])[..|q|] == q;
  }

  /** What has escaped since the latest arming, apart from the frames emit already had in its hands then. */
  function Fresh(s: State): seq<Held>
    requires s.window.from <= |s.shared.out|
  {
    Without(s.shared.out[s.window.from..], s.window.owed)
  }

  predicate Releasing(pc: Pc) {
    !pc.Idle? && !pc.Emitting?
  }

  function Barrier(s: State): Held {
    Held(s.window.frame, Downstream)
  }

  /** How far the one goroutine releasing the armed frame has got, and what has escaped by then. */
  ghost predicate ReleaseStage(s: State, pc: Pc)
    requires s.window.from <= |s.shared.out|
  {
    var start := s.window.frame.kind.Start?;
    var b := Barrier(s);
    Releasing(pc) && pc.h == b
    && match pc
       case Announcing(_) =>
         b.frame.id !in s.shared.seen
         && (if start then s.shared.syncing && s.shared.buffered == s.window.held && Fresh(s) == []
             else !s.shared.syncing && s.window.held <= Fresh(s))
       case Pushing(_) =>
         if start then s.shared.syncing && s.shared.buffered == s.window.held && Fresh(s) == []
         else !s.shared.syncing && s.window.held <= Fresh(s)
       case Draining(_) =>
         s.shared.syncing && (if start then Fresh(s) != [] else b.frame.id !in s.shared.seen)
         && Fresh(s) + s.shared.buffered == (if start then [b] else []) + s.window.held
       case Handing(_, item) =>
         s.shared.syncing && (if start then Fresh(s) != [] else b.frame.id !in s.shared.seen) && item.frame.id !in s.window.owed
         && Fresh(s) + [item] + s.shared.buffered == (if start then [b] else []) + s.window.held
       case Resuming(_) => !s.shared.syncing && Settled(s)
  }

  /** The order a finished synchronization leaves behind. */
  ghost predicate Settled(s: State)
    requires s.window.from <= |s.shared.out|
  {
    if s.window.frame.kind.Start? then [Barrier(s)] + s.window.held <= Fresh(s)
    else IsLifecycle(s.window.frame) ==>
           s.window.held <= Fresh(s)
           && exists k :: |s.window.held| <= k < |Fresh(s)| && Fresh(s)[k] == Barrier(s)
  }

  ghost predicate NoneReleasing(threads: seq<Pc>) {
    forall t :: 0 <= t < |threads| ==> !Releasing(threads[t])
  }

  ghost predicate NoneHanding(threads: seq<Pc>) {
    forall t :: 0 <= t < |threads| ==> !threads[t].Handing?
  }

  ghost predicate OneReleasing(threads: seq<Pc>, r: nat) {
    r < |threads| && Releasing(threads[r])
    && forall t :: 0 <= t < |threads| && t != r ==> !Releasing(threads[t])
  }

  /** The frames a window speaks of: what emit still owes was seen before, what was held back was not. */
  ghost predicate WindowIds(s: State) {
    s.window.from <= |s.shared.out|
    && s.window.owed <= s.shared.seen
    && (IsLifecycle(s.window.frame) ==> s.window.frame.id !in s.window.owed)
    && (forall i :: 0 <= i < |s.window.held| ==> s.window.held[i].frame.id !in s.window.owed)
    && (forall i :: 0 <= i < |s.shared.buffered| ==> s.shared.buffered[i].frame.id !in s.window.owed)
    && (s.shared.syncing ==> EmitHands(s.threads) <= s.window.owed)
    && EmitHands(s.threads) <= s.shared.seen
    && (!s.shared.syncing ==> s.shared.buffered == [])
  }

  /** No branch has been the last one yet: nothing but what emit owed has escaped. */
  ghost predicate Counting(s: State)
    requires s.window.from <= |s.shared.out|
  {
    NoneReleasing(s.threads) && s.window.reports < s.branches
    && s.shared.counter == map[s.window.frame.id := s.branches - s.window.reports]
    && s.window.frame.id !in s.shared.seen
    && s.shared.syncing && s.shared.buffered == s.window.held && Fresh(s) == []
  }

  ghost predicate Released(s: State, r: nat)
    requires s.window.from <= |s.shared.out|
  {
    OneReleasing(s.threads, r) && s.window.reports == s.branches && s.shared.counter == map[]
    && ReleaseStage(s, s.threads[r])
  }

  ghost predicate BarrierInv(s: State) {
    s.branches > 0 && WindowIds(s)
    && if s.paused then IsLifecycle(s.window.frame) && (Counting(s) || exists r: nat :: Released(s, r))
       else !s.shared.syncing && s.shared.counter == map[] && NoneHanding(s.threads) && Settled(s)
            && (IsLifecycle(s.window.frame) ==> s.window.reports == s.branches)
  }

  lemma PushExtendsFresh(s: State, s': State, h: Held)
    requires s.window.from <= |s.shared.out| && s'.window.from == s.window.from && s'.window.owed == s.window.owed
    requires s'.shared.out == s.shared.out + [h]
    ensures Fresh(s') == Fresh(s) + if h.frame.id in s.window.owed then [] else [h]
  {
    WithoutSnoc(s.shared.out[s.window.from..], h, s.window.owed);
    assert s'.shared.out[s.window.from..] == s.shared.out[s.window.from..] + [h];
  }

  lemma PushKeepsSettled(s: State, s': State, h: Held)
    requires s.window.from <= |s.shared.out| && s'.window == s.window && Settled(s)
    requires s'.shared.out == s.shared.out + [h]
    ensures Settled(s')
  {
    PushExtendsFresh(s, s', h);
    if IsLifecycle(s.window.frame) && !s.window.frame.kind.Start? {
      var k :| |s.window.held| <= k < |Fresh(s)| && Fresh(s)[k] == Barrier(s);
      assert Fresh(s')[k] == Barrier(s');
    }
  }

  lemma ArmOpensWindow(s: State, f: Frame)
    requires BarrierInv(s) && Disciplined(s, Arm(f))
    ensures BarrierInv(Step(s, Arm(f)))
  {
    var s' := Step(s, Arm(f));
    assert s'.shared.out[s'.window.from..] == [];
    assert Counting(s');
  }

  /** A frame held back while the release is under way joins the end of what is still to be handed out. */
  lemma HoldingKeepsStage(s: State, s': State, pc: Pc, h: Held)
    requires s.window.from <= |s.shared.out| && s'.shared.out == s.shared.out && ReleaseStage(s, pc)
    requires h.frame.id != s.window.frame.id
    requires s'.shared.seen == s.shared.seen + {h.frame.id} && s'.shared.syncing == s.shared.syncing
    requires s'.window == s.window.(held := s'.window.held)
    requires if s.shared.syncing then s'.shared.buffered == s.shared.buffered + [h] && s'.window.held == s.window.held + [h]
             else s'.shared.buffered == s.shared.buffered && s'.window.held == s.window.held
    ensures ReleaseStage(s', pc)
  {
    var first := if s.window.frame.kind.Start? then [Barrier(s)] else [];
    assert first + s'.window.held == if s.shared.syncing then (first + s.window.held) + [h] else first + s.window.held;
    if pc.Draining? {
      assert Fresh(s) + s'.shared.buffered == (Fresh(s) + s.shared.buffered) + [h];
    }
    if pc.Handing? {
      assert Fresh(s) + [pc.item] + s'.shared.buffered == (Fresh(s) + [pc.item] + s.shared.buffered) + [h];
    }
  }

  lemma EmitKeepsBarrier(s: State, t: nat, h: Held)
    requires BarrierInv(s) && Disciplined(s, Emit(t, h))
    ensures BarrierInv(Step(s, Emit(t, h)))
  {
    var s' := Step(s, Emit(t, h));
    assert EmitHands(s'.threads) <= EmitHands(s.threads) + {h.frame.id};
    if s.paused {
      if Counting(s) {
        assert Counting(s');
      } else {
        var r: nat :| Released(s, r);
        if h.frame.id !in s.shared.seen {
          HoldingKeepsStage(s, s', s.threads[r], h);
        }
        assert Released(s', r);
      }
    }
  }

  lemma ReportKeepsBarrier(s: State, t: nat, h: Held)
    requires BarrierInv(s) && Disciplined(s, Report(t, h))
    ensures BarrierInv(Step(s, Report(t, h)))
  {
    var s' := Step(s, Report(t, h));
    assert EmitHands(s'.threads) <= EmitHands(s.threads);
    if !s.paused {
      assert s'.shared.counter == map[];
      return;
    }
    assert Counting(s);
    if s'.window.reports < s.branches {
      assert Counting(s');
    } else {
      assert s'.shared.counter == map[];
      assert Released(s', t);
    }
  }

  lemma EmitPushKeepsBarrier(s: State, t: nat)
    requires BarrierInv(s) && Enabled(s, Continue(t)) && s.threads[t].Emitting?
    ensures BarrierInv(Step(s, Continue(t)))
  {
    var s' := Step(s, Continue(t));
    var h := s.threads[t].h;
    PushExtendsFresh(s, s', h);
    assert EmitHands(s'.threads) <= EmitHands(s.threads);
    assert h.frame.id in EmitHands(s.threads);
    if !s.paused {
      PushKeepsSettled(s, s', h);
    } else {
      if Counting(s) {
        assert Counting(s');
      } else {
        var r: nat :| Released(s, r);
        if s.threads[r].Resuming? {
          PushKeepsSettled(s, s', h);
        }
        assert Released(s', r);
      }
    }
  }

  lemma DrainKeepsStage(s: State, t: nat)
    requires BarrierInv(s) && s.paused && Released(s, t) && s.threads[t].Draining?
    ensures Released(Step(s, Continue(t)), t)
  {
    var s' := Step(s, Continue(t));
    if s.shared.buffered != [] {
      assert Fresh(s) + s.shared.buffered[..1] + s.shared.buffered[1..] == Fresh(s) + s.shared.buffered;
    } else {
      assert Fresh(s) + s.shared.buffered == Fresh(s);
      assert Fresh(s') == Fresh(s);
      assert [] + s.window.held == s.window.held;
    }
  }

  lemma ReleaseKeepsStage(s: State, t: nat)
    requires BarrierInv(s) && s.paused && Released(s, t) && !s.threads[t].Resuming?
    ensures Released(Step(s, Continue(t)), t)
  {
    var s' := Step(s, Continue(t));
    match s.threads[t]
    case Pushing(h) =>
      PushExtendsFresh(s, s', h);
      assert Fresh(s')[|Fresh(s)|] == h;
    case Handing(_, item) => PushExtendsFresh(s, s', item);
    case Announcing(_) =>
    case Draining(_) => DrainKeepsStage(s, t);
  }

  /** The release of a frame a branch raised, with nothing being synchronized. */
  lemma RaisedKeepsBarrier(s: State, t: nat)
    requires BarrierInv(s) && !s.paused && Enabled(s, Continue(t)) && Releasing(s.threads[t])
    ensures BarrierInv(Step(s, Continue(t)))
  {
    var s' := Step(s, Continue(t));
    assert EmitHands(s'.threads) <= EmitHands(s.threads);
    if s.threads[t].Pushing? {
      PushKeepsSettled(s, s', s.threads[t].h);
    }
  }

  lemma ReleaseKeepsBarrier(s: State, t: nat)
    requires BarrierInv(s) && s.paused && Enabled(s, Continue(t)) && Releasing(s.threads[t])
    ensures BarrierInv(Step(s, Continue(t)))
  {
    var s' := Step(s, Continue(t));
    var r: nat :| Released(s, r);
    assert r == t;
    assert EmitHands(s'.threads) <= EmitHands(s.threads);
    if !s.threads[t].Resuming? {
      ReleaseKeepsStage(s, t);
    }
  }

  lemma StepKeepsBarrier(s: State, a: Action)
    requires BarrierInv(s) && Disciplined(s, a)
    ensures BarrierInv(Step(s, a))
  {
    match a
    case Arm(f) => ArmOpensWindow(s, f);
    case Emit(t, h) => EmitKeepsBarrier(s, t, h);
    case Report(t, h) => ReportKeepsBarrier(s, t, h);
    case Continue(t) =>
      if s.threads[t].Emitting? {
        EmitPushKeepsBarrier(s, t);
      } else if s.paused {
        ReleaseKeepsBarrier(s, t);
      } else {
        RaisedKeepsBarrier(s, t);
      }
  }

  lemma {:induction false} RunKeepsBarrier(s: State, acts: seq<Action>)
    requires BarrierInv(s) && Partition(s) && DisciplinedRun(s, acts)
    ensures Legal(s, acts) && BarrierInv(Exec(s, acts)) && Partition(Exec(s, acts))
    ensures Exec(s, acts).branches == s.branches
    decreases |acts|
  {
    if acts != [] {
      StepKeepsBarrier(s, acts[0]);
      StepKeepsPartition(s, acts[0]);
      RunKeepsBarrier(Step(s, acts[0]), acts[1..]);
    }
  }

  lemma InitHolds(branches: nat, goroutines: nat)
    ensures Partition(Init(branches, goroutines))
    ensures branches > 0 ==> BarrierInv(Init(branches, goroutines))
  {
    forall id ensures Places(Init(branches, goroutines), id) == 0 {
      NoHands(goroutines, id);
    }
  }

  lemma EscapedHasAPlace(s: State, h: Held)
    requires h in s.shared.out
    ensures Count(s.shared.out, h.frame.id) >= 1
  {
    var k :| 0 <= k < |s.shared.out| && s.shared.out[k] == h;
    CountAt(s.shared.out, k);
  }

  lemma {:induction false} HeldByHand(threads: seq<Pc>, t: nat, id: nat)
    requires t < |threads|
    ensures InHand(threads[t], id) <= InHands(threads, id)
  {
    if t > 0 {
      HeldByHand(threads[1..], t - 1, id);
    }
  }

  /** Until the last branch has reported, and while its goroutine has yet to push it, the frame is inside. */
  lemma NotYetEscaped(s: State)
    requires BarrierInv(s) && Partition(s) && s.paused
    requires Counting(s) || exists r: nat :: Released(s, r) && (s.threads[r].Announcing? || s.threads[r].Pushing?)
    ensures Barrier(s) !in s.shared.out
  {
    var b := Barrier(s);
    if b in s.shared.out {
      EscapedHasAPlace(s, b);
      assert Places(s, b.frame.id) <= 1;
      if !Counting(s) {
        var r: nat :| Released(s, r) && (s.threads[r].Announcing? || s.threads[r].Pushing?);
        HeldByHand(s.threads, r, b.frame.id);
      }
      assert false;
    }
  }

  lemma {:induction false} WithoutKeeps(q: seq<Held>, ids: set<nat>, k: nat)
    requires k < |Without(q, ids)|
    ensures Without(q, ids)[k] in q
  {
    var n := |q| - 1;
    if k < |Without(q[..n], ids)| {
      WithoutKeeps(q[..n], ids, k);
    }
  }

  lemma FreshEscaped(s: State, k: nat)
    requires s.window.from <= |s.shared.out| && k < |Fresh(s)|
    ensures Fresh(s)[k] in s.shared.out
  {
    WithoutKeeps(s.shared.out[s.window.from..], s.window.owed, k);
  }

  /** id escapes, or has escaped, before h does. */
  ghost predicate Ahead(out: seq<Held>, id: nat, h: Held) {
    exists i :: 0 <= i < |out| && out[i].frame.id == id && forall e :: 0 <= e < |out| && out[e] == h ==> i < e
  }

  ghost predicate HeldBack(held: seq<Held>, id: nat) {
    exists j :: 0 <= j < |held| && held[j].frame.id == id
  }

  /** What had been seen by the last report, and was not in the hands of emit, has escaped or was held back. */
  ghost predicate ClosingInv(s: State) {
    (s.paused && s.window.reports < s.branches ==> s.window.closing == {})
    && s.window.late <= s.window.owed
    && forall id :: id in s.window.closing - s.window.late ==>
         HeldBack(s.window.held, id) || Ahead(s.shared.out, id, Barrier(s))
  }

  lemma {:induction false} CountFinds(q: seq<Held>, id: nat)
    requires Count(q, id) > 0
    ensures HeldBack(q, id)
  {
    if q[0].frame.id != id {
      CountFinds(q[1..], id);
      var j :| 0 <= j < |q[1..]| && q[1..][j].frame.id == id;
      assert q[j + 1].frame.id == id;
    } else {
      assert q[0].frame.id == id;
    }
  }

  lemma {:induction false} NotInHands(threads: seq<Pc>, id: nat)
    requires NoneReleasing(threads) && id !in EmitHands(threads)
    ensures InHands(threads, id) == 0
  {
    if threads != [] {
      forall t | 0 <= t < |threads[1..]| ensures !Releasing(threads[1..][t]) {
        assert threads[1..][t] == threads[t + 1];
      }
      assert EmitHands(threads[1..]) <= EmitHands(threads) by {
        forall x | x in EmitHands(threads[1..]) ensures x in EmitHands(threads) {
          var t :| 0 <= t < |threads[1..]| && threads[1..][t].Emitting? && threads[1..][t].h.frame.id == x;
          assert threads[t + 1].Emitting?;
        }
      }
      NotInHands(threads[1..], id);
      assert threads[0].Emitting? ==> threads[0].h.frame.id in EmitHands(threads);
    }
  }

  /** At the last report every other id that was seen has escaped already or is held back. */
  lemma LastReportCloses(s: State, id: nat)
    requires BarrierInv(s) && Partition(s) && s.paused && Counting(s)
    requires id in s.shared.seen && id !in EmitHands(s.threads)
    ensures HeldBack(s.window.held, id) || Ahead(s.shared.out, id, Barrier(s))
  {
    NotInHands(s.threads, id);
    assert Places(s, id) == 1;
    if Count(s.shared.out, id) > 0 {
      CountFinds(s.shared.out, id);
      NotYetEscaped(s);
      var i :| 0 <= i < |s.shared.out| && s.shared.out[i].frame.id == id;
      assert Ahead(s.shared.out, id, Barrier(s));
    } else {
      CountFinds(s.shared.buffered, id);
    }
  }

  lemma AheadStays(out: seq<Held>, out': seq<Held>, id: nat, h: Held)
    requires out <= out' && Ahead(out, id, h)
    ensures Ahead(out', id, h)
  {
    var i :| 0 <= i < |out| && out[i].frame.id == id && forall e :: 0 <= e < |out| && out[e] == h ==> i < e;
    assert out'[i] == out[i];
    forall e | 0 <= e < |out'| && out'[e] == h ensures i < e {
      if e < |out| {
        assert out[e] == h;
      }
    }
  }

  lemma StepExtendsOut(s: State, a: Action)
    requires Enabled(s, a)
    ensures s.shared.out <= Step(s, a).shared.out
  {
  }

  lemma StepKeepsClosing(s: State, a: Action)
    requires BarrierInv(s) && Partition(s) && ClosingInv(s) && Disciplined(s, a)
    ensures ClosingInv(Step(s, a))
  {
    var s' := Step(s, a);
    if !a.Arm? {
      StepExtendsOut(s, a);
      forall id | id in s'.window.closing - s'.window.late
        ensures HeldBack(s'.window.held, id) || Ahead(s'.shared.out, id, Barrier(s'))
      {
        if s'.window.closing != s.window.closing || s'.window.late != s.window.late {
          LastReportCloses(s, id);
        } else if HeldBack(s.window.held, id) {
          var j :| 0 <= j < |s.window.held| && s.window.held[j].frame.id == id;
          assert s'.window.held[j].frame.id == id;
        } else {
          AheadStays(s.shared.out, s'.shared.out, id, Barrier(s));
        }
      }
    }
  }

  /** The three invariants together, over a run. */
  lemma {:induction false} RunKeepsOrder(s: State, acts: seq<Action>)
    requires BarrierInv(s) && Partition(s) && ClosingInv(s) && DisciplinedRun(s, acts)
    ensures Legal(s, acts)
    ensures var s' := Exec(s, acts); BarrierInv(s') && Partition(s') && ClosingInv(s') && s'.branches == s.branches
    decreases |acts|
  {
    if acts != [] {
      StepKeepsBarrier(s, acts[0]);
      StepKeepsPartition(s, acts[0]);
      StepKeepsClosing(s, acts[0]);
      RunKeepsOrder(Step(s, acts[0]), acts[1..]);
    }
  }

  /** What a StartFrame guarantees while and after it is synchronized. */
  ghost predicate StartOrder(s: State)
    requires s.window.from <= |s.shared.out|
  {
    var start := Barrier(s);
    (start !in s.shared.out ==> Fresh(s) == [])
    && (start in s.shared.out ==> s.window.reports == s.branches && Fresh(s) != [] && Fresh(s)[0] == start)
    && (if s.shared.syncing then Fresh(s) <= [start] + s.window.held else [start] + s.window.held <= Fresh(s))
  }

  /** What an EndFrame or a CancelFrame guarantees while and after it is synchronized. */
  ghost predicate EndOrder(s: State)
    requires s.window.from <= |s.shared.out|
  {
    var end := Barrier(s);
    (end in s.shared.out ==>
       s.window.reports == s.branches && !s.shared.syncing
       && (exists k :: |s.window.held| <= k < |Fresh(s)| && Fresh(s)[k] == end)
       && forall id :: id in s.window.closing - s.window.late ==> Ahead(s.shared.out, id, end))
    && (if s.shared.syncing then Fresh(s) <= s.window.held else s.window.held <= Fresh(s))
  }

  lemma StartOrderHolds(s: State)
    requires BarrierInv(s) && Partition(s) && s.window.frame.kind.Start?
    ensures StartOrder(s)
  {
    if !s.paused {
      FreshEscaped(s, 0);
    } else if Counting(s) {
      NotYetEscaped(s);
    } else {
      var r: nat :| Released(s, r);
      if s.threads[r].Announcing? || s.threads[r].Pushing? {
        NotYetEscaped(s);
      } else {
        FreshEscaped(s, 0);
        assert Fresh(s)[0] == (Fresh(s) + s.shared.buffered)[0];
        if s.threads[r].Handing? {
          assert Fresh(s)[0] == (Fresh(s) + [s.threads[r].item] + s.shared.buffered)[0];
        }
      }
    }
  }

  /** Where an EndFrame or CancelFrame has escaped, its release is past it. */
  lemma EndEscapedMeansSettled(s: State)
    requires BarrierInv(s) && Partition(s) && (s.window.frame.kind.End? || s.window.frame.kind.Cancel?)
    requires Barrier(s) in s.shared.out
    ensures s.window.reports == s.branches && !s.shared.syncing && Settled(s)
  {
    if s.paused {
      if Counting(s) {
        NotYetEscaped(s);
      } else {
        var r: nat :| Released(s, r);
        if s.threads[r].Announcing? || s.threads[r].Pushing? {
          NotYetEscaped(s);
        } else if !s.threads[r].Resuming? {
          assert Places(s, Barrier(s).frame.id) == 0;
          EscapedHasAPlace(s, Barrier(s));
          assert false;
        }
      }
    }
  }

  lemma {:induction false} WithoutKeepsOrder(q: seq<Held>, ids: set<nat>, j: nat, k: nat)
    requires j < k < |Without(q, ids)|
    ensures exists i, e :: 0 <= i < e < |q| && q[i] == Without(q, ids)[j] && q[e] == Without(q, ids)[k]
  {
    var n := |q| - 1;
    var before := Without(q[..n], ids);
    if k < |before| {
      WithoutKeepsOrder(q[..n], ids, j, k);
      var i, e :| 0 <= i < e < |q[..n]| && q[..n][i] == before[j] && q[..n][e] == before[k];
      assert q[i] == Without(q, ids)[j] && q[e] == Without(q, ids)[k];
    } else {
      WithoutKeeps(q[..n], ids, j);
      var i :| 0 <= i < |q[..n]| && q[..n][i] == before[j];
      assert q[i] == Without(q, ids)[j] && q[n] == Without(q, ids)[k];
    }
  }

  lemma EscapesAtOnePlace(s: State, h: Held, i: nat, e: nat)
    requires Partition(s) && i < |s.shared.out| && e < |s.shared.out|
    requires s.shared.out[i].frame.id == s.shared.out[e].frame.id
    ensures i == e
  {
    assert Places(s, s.shared.out[i].frame.id) <= 1;
    if i < e {
      CountOnce(s.shared.out, i, e);
    } else if e < i {
      CountOnce(s.shared.out, e, i);
    }
  }

  /** A frame held back escapes ahead of the EndFrame. */
  /** What escaped in some order behind the arming did so in that order in out. */
  lemma EscapedInOrder(s: State, j: nat, k: nat) returns (i: nat, e: nat)
    requires s.window.from <= |s.shared.out| && j < k < |Fresh(s)|
    ensures i < e < |s.shared.out| && s.shared.out[i] == Fresh(s)[j] && s.shared.out[e] == Fresh(s)[k]
  {
    var from, tail := s.window.from, s.shared.out[s.window.from..];
    WithoutKeepsOrder(tail, s.window.owed, j, k);
    var x, y :| 0 <= x < y < |tail| && tail[x] == Fresh(s)[j] && tail[y] == Fresh(s)[k];
    i, e := from + x, from + y;
  }

  lemma HeldIsAhead(s: State, j: nat)
    requires BarrierInv(s) && Partition(s) && (s.window.frame.kind.End? || s.window.frame.kind.Cancel?)
    requires Barrier(s) in s.shared.out && j < |s.window.held|
    ensures Ahead(s.shared.out, s.window.held[j].frame.id, Barrier(s))
  {
    EndEscapedMeansSettled(s);
    var b := Barrier(s);
    var k :| |s.window.held| <= k < |Fresh(s)| && Fresh(s)[k] == b;
    var i, e := EscapedInOrder(s, j, k);
    assert Fresh(s)[j] == s.window.held[j];
    AheadOfIt(s, s.window.held[j].frame.id, b, i, e);
  }

  lemma AheadOfIt(s: State, id: nat, b: Held, i: nat, e: nat)
    requires Partition(s) && i < e < |s.shared.out| && s.shared.out[i].frame.id == id && s.shared.out[e] == b
    ensures Ahead(s.shared.out, id, b)
  {
    forall e' | 0 <= e' < |s.shared.out| && s.shared.out[e'] == b ensures i < e' {
      EscapesAtOnePlace(s, b, e', e);
    }
  }

  lemma EndOrderHolds(s: State)
    requires BarrierInv(s) && Partition(s) && ClosingInv(s) && (s.window.frame.kind.End? || s.window.frame.kind.Cancel?)
    ensures EndOrder(s)
  {
    if Barrier(s) in s.shared.out {
      EndEscapedMeansSettled(s);
      forall id | id in s.window.closing - s.window.late ensures Ahead(s.shared.out, id, Barrier(s)) {
        if HeldBack(s.window.held, id) {
          var j :| 0 <= j < |s.window.held| && s.window.held[j].frame.id == id;
          HeldIsAhead(s, j);
        }
      }
    } else if s.paused && !Counting(s) {
      var r: nat :| Released(s, r);
      assert [] + s.window.held == s.window.held;
    }
  }

  /** A StartFrame, over every interleaving of any number of branches: nothing escapes ahead of it except
      frames already in emit's hands when it was armed; it escapes only once every branch has reported it;
      the frames held back meanwhile follow it directly, in emission order, before any later frame. */
  lemma StartFrameOpensTheWay(branches: nat, goroutines: nat, acts: seq<Action>)
    requires branches > 0 && DisciplinedRun(Init(branches, goroutines), acts)
    ensures Legal(Init(branches, goroutines), acts)
    ensures var s := Exec(Init(branches, goroutines), acts);
            s.window.from <= |s.shared.out| && s.branches == branches
            && (s.window.frame.kind.Start? ==> StartOrder(s))
  {
    InitHolds(branches, goroutines);
    RunKeepsOrder(Init(branches, goroutines), acts);
    var s := Exec(Init(branches, goroutines), acts);
    if s.window.frame.kind.Start? {
      StartOrderHolds(s);
    }
  }

  /** An EndFrame or CancelFrame, over every interleaving: it escapes only once every branch has reported
      it, after every frame held back since it was armed, which escape in emission order, and after every
      frame accepted before the last report, except what emit had in its hands at that moment: and that is
      among what it had in its hands when the frame was armed. */
  lemma EndFrameClosesTheWay(branches: nat, goroutines: nat, acts: seq<Action>)
    requires branches > 0 && DisciplinedRun(Init(branches, goroutines), acts)
    ensures Legal(Init(branches, goroutines), acts)
    ensures var s := Exec(Init(branches, goroutines), acts);
            s.window.from <= |s.shared.out| && s.branches == branches && s.window.late <= s.window.owed
            && (s.window.frame.kind.End? || s.window.frame.kind.Cancel? ==> EndOrder(s))
  {
    InitHolds(branches, goroutines);
    RunKeepsOrder(Init(branches, goroutines), acts);
    var s := Exec(Init(branches, goroutines), acts);
    if s.window.frame.kind.End? || s.window.frame.kind.Cancel? {
      EndOrderHolds(s);
    }
  }

  // ---------------------------------------------------------------- what emit has in its hands

  lemma {:induction false} NothingOwed(q: seq<Held>)
    ensures Without(q, {}) == q
  {
    if q != [] {
      var n := |q| - 1;
      NothingOwed(q[..n]);
      WithoutSnoc(q[..n], q[n], {});
      assert q == q[..n] + [q[n]];
    }
  }

  /** If anything has escaped past the first n frames, h was the next. */
  ghost predicate Next(s: State, n: nat, h: Held) {
    |s.shared.out| > n ==> s.shared.out[n] == h
  }

  /** However the run goes on, h is the next frame to escape. */
  ghost predicate AlwaysNext(s: State, h: Held) {
    forall more :: DisciplinedRun(s, more) ==> Legal(s, more) && Next(Exec(s, more), |s.shared.out|, h)
  }

  /** The armed StartFrame has yet to escape, nothing else has since, and emit owed nothing. */
  ghost predicate Awaiting(s: State, n: nat, h: Held) {
    s.paused && Barrier(s) == h && h.frame.kind.Start? && s.window.owed == {} && s.window.from == n == |s.shared.out|
  }

  lemma AwaitingStep(s: State, a: Action, n: nat, h: Held)
    requires BarrierInv(s) && Partition(s) && Disciplined(s, a) && Awaiting(s, n, h)
    ensures var s' := Step(s, a); Awaiting(s', n, h) || (|s'.shared.out| > n && s'.shared.out[n] == h)
  {
    var s' := Step(s, a);
    StepExtendsOut(s, a);
    StepKeepsBarrier(s, a);
    StepKeepsPartition(s, a);
    assert s'.window.frame == s.window.frame && s'.window.from == n && s'.window.owed == {};
    StartOrderHolds(s');
    NothingOwed(s'.shared.out[n..]);
    assert Fresh(s') == s'.shared.out[n..];
  }

  lemma {:induction false} StartStaysNext(s: State, more: seq<Action>, n: nat, h: Held)
    requires BarrierInv(s) && Partition(s) && DisciplinedRun(s, more)
    requires Awaiting(s, n, h) || (|s.shared.out| > n && s.shared.out[n] == h)
    ensures Legal(s, more) && Next(Exec(s, more), n, h)
    decreases |more|
  {
    if more != [] {
      var s' := Step(s, more[0]);
      if Awaiting(s, n, h) {
        AwaitingStep(s, more[0], n, h);
      } else {
        StepExtendsOut(s, more[0]);
      }
      StepKeepsBarrier(s, more[0]);
      StepKeepsPartition(s, more[0]);
      StartStaysNext(s', more[1..], n, h);
    }
  }

  /** A frame emit has in its hands when a lifecycle frame is armed can be the next to escape. */
  lemma EmitInFlightOvertakes(s: State, t: nat, f: Frame)
    requires BarrierInv(s) && Disciplined(s, Arm(f)) && t < |s.threads| && s.threads[t].Emitting?
    ensures var acts := [Arm(f), Continue(t)];
            DisciplinedRun(s, acts) && Legal(s, acts)
            && Exec(s, acts).shared.out == s.shared.out + [s.threads[t].h] && s.threads[t].h.frame.id != f.id
  {
    var acts := [Arm(f), Continue(t)];
    var s1 := Step(s, Arm(f));
    var s2 := Step(s1, Continue(t));
    assert acts[1..] == [Continue(t)] && acts[1..][1..] == [];
    assert DisciplinedRun(s2, []) && DisciplinedRun(s1, [Continue(t)]);
    DisciplinedIsLegal(s, acts);
    assert Exec(s2, []) == s2 && Exec(s1, [Continue(t)]) == s2;
    assert s.threads[t].h.frame.id in EmitHands(s.threads);
  }

  /** After any run at all, an armed StartFrame is the next frame to escape, however the run goes on, if and
      only if emit has no frame between its check and its push at that moment. */
  lemma StartFrameIsNextIff(branches: nat, goroutines: nat, acts: seq<Action>, start: Frame)
    requires branches > 0 && DisciplinedRun(Init(branches, goroutines), acts) && Legal(Init(branches, goroutines), acts)
    requires start.kind.Start? && Disciplined(Exec(Init(branches, goroutines), acts), Arm(start))
    ensures var s := Exec(Init(branches, goroutines), acts);
            AlwaysNext(Step(s, Arm(start)), Held(start, Downstream)) <==> EmitHands(s.threads) == {}
  {
    InitHolds(branches, goroutines);
    RunKeepsOrder(Init(branches, goroutines), acts);
    var s := Exec(Init(branches, goroutines), acts);
    var armed, h := Step(s, Arm(start)), Held(start, Downstream);
    StepKeepsBarrier(s, Arm(start));
    StepKeepsPartition(s, Arm(start));
    if EmitHands(s.threads) == {} {
      forall more | DisciplinedRun(armed, more) ensures Legal(armed, more) && Next(Exec(armed, more), |armed.shared.out|, h) {
        StartStaysNext(armed, more, |armed.shared.out|, h);
      }
    } else {
      var t :| 0 <= t < |s.threads| && s.threads[t].Emitting?;
      var pushed, more := Step(armed, Continue(t)), [Continue(t)];
      assert more[1..] == [] && DisciplinedRun(pushed, []) && DisciplinedRun(armed, more);
      DisciplinedIsLegal(armed, more);
      assert Exec(pushed, []) == pushed && Exec(armed, more) == pushed;
      assert s.threads[t].h.frame.id in EmitHands(s.threads);
      assert !Next(pushed, |armed.shared.out|, h);
    }
  }

  /** While f is the frame synchronized last: once it has escaped, so has everything seen by the last report,
      ahead of it. */
  ghost predicate EverythingAhead(s: State, f: Frame) {
    s.window.frame == f && Barrier(s) in s.shared.out ==>
      forall id :: id in s.window.closing ==> Ahead(s.shared.out, id, Barrier(s))
  }

  ghost predicate AlwaysLast(s: State, f: Frame) {
    forall more :: DisciplinedRun(s, more) ==> Legal(s, more) && EverythingAhead(Exec(s, more), f)
  }

  /** f is the frame synchronized last, with nothing owed, or it has been before and cannot be armed again. */
  ghost predicate NothingOwedTo(s: State, f: Frame) {
    if s.window.frame == f then s.window.owed == {} else f.id in s.shared.seen
  }

  lemma StepKeepsNothingOwed(s: State, a: Action, f: Frame)
    requires BarrierInv(s) && Partition(s) && Disciplined(s, a) && NothingOwedTo(s, f) && IsLifecycle(f)
    ensures NothingOwedTo(Step(s, a), f)
  {
    if a.Arm? && s.window.frame == f {
      var b := Barrier(s);
      if f.kind.Start? {
        FreshEscaped(s, 0);
      } else {
        var k :| |s.window.held| <= k < |Fresh(s)| && Fresh(s)[k] == b;
        FreshEscaped(s, k);
      }
      EscapedHasAPlace(s, b);
      assert Places(s, f.id) >= 1;
    }
    StepGrowsSeen(s, a);
  }

  lemma StepGrowsSeen(s: State, a: Action)
    requires Enabled(s, a)
    ensures s.shared.seen <= Step(s, a).shared.seen
  {
  }

  lemma {:induction false} EndStaysLast(s: State, more: seq<Action>, end: Frame)
    requires BarrierInv(s) && Partition(s) && ClosingInv(s) && DisciplinedRun(s, more)
    requires (end.kind.End? || end.kind.Cancel?) && NothingOwedTo(s, end)
    ensures Legal(s, more) && EverythingAhead(Exec(s, more), end)
    decreases |more|
  {
    if more == [] {
      if s.window.frame == end {
        EndOrderHolds(s);
      }
    } else {
      StepKeepsBarrier(s, more[0]);
      StepKeepsPartition(s, more[0]);
      StepKeepsClosing(s, more[0]);
      StepKeepsNothingOwed(s, more[0], end);
      EndStaysLast(Step(s, more[0]), more[1..], end);
    }
  }

  /** With one goroutine free to report and release, and nothing held back, the frame can be out with nothing
      else having moved. */
  lemma EndCanRunAhead(s: State, u: nat) returns (acts: seq<Action>)
    requires s.paused && BarrierInv(s) && Counting(s) && s.shared.buffered == []
    requires u < |s.threads| && s.threads[u] == Idle && (s.window.frame.kind.End? || s.window.frame.kind.Cancel?)
    ensures DisciplinedRun(s, acts) && Legal(s, acts)
    ensures var s' := Exec(s, acts);
            s'.shared.out == s.shared.out + [Barrier(s)] && s'.window.frame == s.window.frame && s'.window.closing == s.shared.seen
    decreases s.branches - s.window.reports
  {
    var b := Barrier(s);
    var s1 := Step(s, Report(u, b));
    if s.window.reports + 1 < s.branches {
      StepKeepsBarrier(s, Report(u, b));
      assert Counting(s1);
      var rest := EndCanRunAhead(s1, u);
      acts := [Report(u, b)] + rest;
      assert acts[1..] == rest;
    } else {
      acts := Solo(u, b);
      assert s1.threads[u] == Draining(b);
      var s2 := Step(s1, Continue(u));
      assert s2.threads[u] == Announcing(b);
      var s3 := Step(s2, Continue(u));
      assert s3.threads[u] == Pushing(b);
      var s4 := Step(s3, Continue(u));
      SoloRuns(s, u, b, s1, s2, s3, s4);
    }
  }

  function Solo(u: nat, b: Held): seq<Action> {
    [Report(u, b), Continue(u), Continue(u), Continue(u)]
  }

  lemma SoloRuns(s: State, u: nat, b: Held, s1: State, s2: State, s3: State, s4: State)
    requires Disciplined(s, Report(u, b)) && s1 == Step(s, Report(u, b))
    requires Disciplined(s1, Continue(u)) && s2 == Step(s1, Continue(u))
    requires Disciplined(s2, Continue(u)) && s3 == Step(s2, Continue(u))
    requires Disciplined(s3, Continue(u)) && s4 == Step(s3, Continue(u))
    ensures DisciplinedRun(s, Solo(u, b)) && Legal(s, Solo(u, b)) && Exec(s, Solo(u, b)) == s4
  {
    var acts := Solo(u, b);
    var a1, a2, a3 := acts[1..], acts[2..], acts[3..];
    assert a1[1..] == a2 && a2[1..] == a3 && a3[1..] == [];
    assert DisciplinedRun(s4, []) && DisciplinedRun(s3, a3) && DisciplinedRun(s2, a2) && DisciplinedRun(s1, a1);
    DisciplinedIsLegal(s, acts);
    assert Exec(s4, []) == s4 && Exec(s3, a3) == s4 && Exec(s2, a2) == s4 && Exec(s1, a1) == s4;
  }

  /** After any run at all, with a goroutine u free: an armed EndFrame or CancelFrame escapes after everything
      that had been accepted when the last branch reported, however the run goes on, if and only if emit has
      no frame between its check and its push at the moment it is armed. */
  lemma EndFrameIsLastIff(branches: nat, goroutines: nat, acts: seq<Action>, end: Frame, u: nat)
    requires branches > 0 && DisciplinedRun(Init(branches, goroutines), acts) && Legal(Init(branches, goroutines), acts)
    requires (end.kind.End? || end.kind.Cancel?) && Disciplined(Exec(Init(branches, goroutines), acts), Arm(end))
    requires u < |Exec(Init(branches, goroutines), acts).threads| && Exec(Init(branches, goroutines), acts).threads[u] == Idle
    ensures var s := Exec(Init(branches, goroutines), acts);
            AlwaysLast(Step(s, Arm(end)), end) <==> EmitHands(s.threads) == {}
  {
    InitHolds(branches, goroutines);
    RunKeepsOrder(Init(branches, goroutines), acts);
    var s := Exec(Init(branches, goroutines), acts);
    var armed := Step(s, Arm(end));
    StepKeepsBarrier(s, Arm(end));
    StepKeepsPartition(s, Arm(end));
    StepKeepsClosing(s, Arm(end));
    if EmitHands(s.threads) == {} {
      forall more | DisciplinedRun(armed, more) ensures Legal(armed, more) && EverythingAhead(Exec(armed, more), end) {
        EndStaysLast(armed, more, end);
      }
    } else {
      var t :| 0 <= t < |s.threads| && s.threads[t].Emitting?;
      assert s.threads[t].h.frame.id in EmitHands(s.threads);
      ArmedCounts(s, end);
      var more := EndCanRunAhead(armed, u);
      EmitIsLeftBehind(armed, more, t);
    }
  }

  lemma ArmedCounts(s: State, f: Frame)
    requires BarrierInv(s) && Disciplined(s, Arm(f))
    ensures Step(s, Arm(f)).window.from <= |Step(s, Arm(f)).shared.out| && Counting(Step(s, Arm(f)))
    ensures Step(s, Arm(f)).shared.buffered == []
  {
    var s' := Step(s, Arm(f));
    assert s'.shared.out[s'.window.from..] == [];
  }

  lemma EmitIsLeftBehind(s: State, more: seq<Action>, t: nat)
    requires Partition(s) && DisciplinedRun(s, more) && Legal(s, more) && t < |s.threads| && s.threads[t].Emitting?
    requires s.threads[t].h.frame.id in s.shared.seen && s.threads[t].h.frame.id != s.window.frame.id
    requires var s' := Exec(s, more);
             s'.shared.out == s.shared.out + [Barrier(s)] && s'.window.frame == s.window.frame && s'.window.closing == s.shared.seen
    ensures !EverythingAhead(Exec(s, more), s.window.frame)
  {
    var s', id := Exec(s, more), s.threads[t].h.frame.id;
    HeldByHand(s.threads, t, id);
    assert Places(s, id) == 1;
    assert s'.shared.out[|s.shared.out|] == Barrier(s);
    if Ahead(s'.shared.out, id, Barrier(s)) {
      var i :| 0 <= i < |s'.shared.out| && s'.shared.out[i].frame.id == id;
      assert i < |s.shared.out|;
      CountAt(s.shared.out, i);
      assert false;
    }
  }

  // ---------------------------------------------------------------- what the assumptions are for

  /** How many steps of its own a goroutine takes until the first frame escapes by a release it began. */
  function StepsToEscape(s: State, h: Held): nat {
    if h.frame.kind.Start? then if h.frame.id in s.shared.seen then 3 else 2
    else if s.shared.buffered != [] then 2 else 3
  }

  function Continues(t: nat, n: nat): seq<Action> {
    seq(n, i => Continue(t))
  }

  lemma RunTwo(s: State, a: Action, t: nat, s1: State, s2: State, s3: State)
    requires Enabled(s, a) && s1 == Step(s, a) && Enabled(s1, Continue(t)) && s2 == Step(s1, Continue(t))
    requires Enabled(s2, Continue(t)) && s3 == Step(s2, Continue(t))
    ensures Legal(s, [a] + Continues(t, 2)) && Exec(s, [a] + Continues(t, 2)) == s3
  {
    var acts := [a] + Continues(t, 2);
    var a1, a2 := acts[1..], acts[2..];
    assert a1[1..] == a2 && a2[1..] == [];
    assert Legal(s3, []) && Legal(s2, a2) && Legal(s1, a1);
    assert Exec(s3, []) == s3 && Exec(s2, a2) == s3 && Exec(s1, a1) == s3;
  }

  lemma RunThree(s: State, a: Action, t: nat, s1: State, s2: State, s3: State, s4: State)
    requires Enabled(s, a) && s1 == Step(s, a) && Enabled(s1, Continue(t)) && s2 == Step(s1, Continue(t))
    requires Enabled(s2, Continue(t)) && s3 == Step(s2, Continue(t)) && Enabled(s3, Continue(t)) && s4 == Step(s3, Continue(t))
    ensures Legal(s, [a] + Continues(t, 3)) && Exec(s, [a] + Continues(t, 3)) == s4
  {
    var acts := [a] + Continues(t, 3);
    var a1, a2, a3 := acts[1..], acts[2..], acts[3..];
    assert a1[1..] == a2 && a2[1..] == a3 && a3[1..] == [];
    assert Legal(s4, []) && Legal(s3, a3) && Legal(s2, a2) && Legal(s1, a1);
    assert Exec(s4, []) == s4 && Exec(s3, a3) == s4 && Exec(s2, a2) == s4 && Exec(s1, a1) == s4;
  }

  /** What the release of a raised frame hands out first. */
  function FirstOut(s: State, raised: Held): Held {
    if s.shared.buffered != [] && (!raised.frame.kind.Start? || raised.frame.id in s.shared.seen) then s.shared.buffered[0] else raised
  }

  lemma RaisedFrameEscapes(s: State, t: nat, raised: Held)
    requires BarrierInv(s) && s.paused && Counting(s) && t < |s.threads| && s.threads[t] == Idle
    requires IsLifecycle(raised.frame) && raised.frame.id != s.window.frame.id
    requires s.shared.buffered != [] || raised.frame.id !in s.shared.seen
    ensures var acts := [Report(t, raised)] + Continues(t, StepsToEscape(s, raised));
            Legal(s, acts) && Exec(s, acts).shared.out == s.shared.out + [FirstOut(s, raised)] && Exec(s, acts).window == s.window
  {
    var s1 := Step(s, Report(t, raised));
    var s2 := Step(s1, Continue(t));
    var s3 := Step(s2, Continue(t));
    if StepsToEscape(s, raised) == 2 {
      RunTwo(s, Report(t, raised), t, s1, s2, s3);
    } else {
      var s4 := Step(s3, Continue(t));
      RunThree(s, Report(t, raised), t, s1, s2, s3, s4);
    }
  }

  /** Whenever a branch raises a lifecycle frame of its own into a synchronization whose last branch has not
      reported, with frames held back, or itself not seen before: the release hands out a frame, the first
      one held back or the raised one, while the armed frame is still inside. The order every disciplined run
      keeps around a StartFrame is then lost. */
  lemma RaisedFrameEndsBuffering(s: State, t: nat, raised: Held)
    requires BarrierInv(s) && Partition(s) && s.paused && Counting(s) && t < |s.threads| && s.threads[t] == Idle
    requires IsLifecycle(raised.frame) && raised.frame.id != s.window.frame.id
    requires s.shared.buffered != [] || raised.frame.id !in s.shared.seen
    ensures var acts := [Report(t, raised)] + Continues(t, StepsToEscape(s, raised));
            Legal(s, acts)
            && Exec(s, acts).shared.out == s.shared.out + [FirstOut(s, raised)]
            && Barrier(s) !in Exec(s, acts).shared.out
            && Exec(s, acts).window == s.window && s.window.from <= |Exec(s, acts).shared.out|
            && (s.window.frame.kind.Start? ==> !StartOrder(Exec(s, acts)))
  {
    NotYetEscaped(s);
    RaisedFrameEscapes(s, t, raised);
    var first := FirstOut(s, raised);
    if s.shared.buffered != [] {
      HeldIsNotBarrier(s);
    }
    assert first.frame.id !in s.window.owed && first != Barrier(s);
    PushExtendsFresh(s, Exec(s, [Report(t, raised)] + Continues(t, StepsToEscape(s, raised))), first);
  }

  lemma HeldIsNotBarrier(s: State)
    requires BarrierInv(s) && Partition(s) && s.paused && Counting(s) && s.shared.buffered != []
    ensures s.window.held[0] != Barrier(s)
  {
    CountAt(s.shared.buffered, 0);
    assert Places(s, s.shared.buffered[0].frame.id) <= 1;
  }

  // ---------------------------------------------------------------- a release under interference

  /** The steps of its own a goroutine releasing a frame has left, with n frames held back. */
  function OwnSteps(pc: Pc, n: nat): nat {
    match pc
    case Announcing(h) => if h.frame.kind.Start? then 4 + 2 * n else 3
    case Pushing(h) => if h.frame.kind.Start? then 3 + 2 * n else 2
    case Draining(h) => if h.frame.kind.Start? then 2 + 2 * n else 4 + 2 * n
    case Handing(h, _) => if h.frame.kind.Start? then 3 + 2 * n else 5 + 2 * n
    case Resuming(_) => 1
    case _ => 0
  }

  function StepsBy(acts: seq<Action>, r: nat): nat {
    if acts == [] then 0 else (if acts[0] == Continue(r) then 1 else 0) + StepsBy(acts[1..], r)
  }

  function Emits(acts: seq<Action>): nat {
    if acts == [] then 0 else (if acts[0].Emit? then 1 else 0) + Emits(acts[1..])
  }

  /** The synchronization of f is over: f cannot be armed again. */
  ghost predicate Over(s: State, f: Frame) {
    f.id in s.shared.seen && (s.paused ==> s.window.frame.id != f.id)
  }

  lemma {:induction false} StaysOver(s: State, acts: seq<Action>, f: Frame)
    requires Over(s, f) && DisciplinedRun(s, acts)
    ensures Legal(s, acts) && Over(Exec(s, acts), f)
    decreases |acts|
  {
    if acts != [] {
      StepGrowsSeen(s, acts[0]);
      StaysOver(Step(s, acts[0]), acts[1..], f);
    }
  }

  /** A release always has a step to take, and each takes it nearer its end; only an emit that holds a frame
      back takes it further away, by two steps. */
  lemma ReleaseStep(s: State, a: Action, r: nat)
    requires BarrierInv(s) && s.paused && Released(s, r) && Disciplined(s, a)
    ensures Enabled(s, Continue(r))
    ensures var s' := Step(s, a);
            if a == Continue(r) && s.threads[r].Resuming? then !s'.paused
            else
              s'.paused && s'.window.frame == s.window.frame && s'.window.from <= |s'.shared.out| && Released(s', r)
              && OwnSteps(s'.threads[r], |s'.shared.buffered|) + (if a == Continue(r) then 1 else 0)
                 <= OwnSteps(s.threads[r], |s.shared.buffered|) + if a.Emit? then 2 else 0
  {
    StepKeepsBarrier(s, a);
    if a == Continue(r) && !s.threads[r].Resuming? {
      ReleaseKeepsStage(s, r);
    } else if a.Emit? {
      EmitKeepsReleased(s, a.t, a.h, r);
    } else if a != Continue(r) {
      assert a.Continue? && s.threads[a.t].Emitting?;
      EmitPushKeepsReleased(s, a.t, r);
    }
  }

  lemma EmitKeepsReleased(s: State, t: nat, h: Held, r: nat)
    requires BarrierInv(s) && s.paused && Released(s, r) && Disciplined(s, Emit(t, h))
    ensures Released(Step(s, Emit(t, h)), r)
  {
    if h.frame.id !in s.shared.seen {
      HoldingKeepsStage(s, Step(s, Emit(t, h)), s.threads[r], h);
    }
  }

  lemma EmitPushKeepsReleased(s: State, t: nat, r: nat)
    requires BarrierInv(s) && s.paused && Released(s, r) && Enabled(s, Continue(t)) && s.threads[t].Emitting?
    ensures Released(Step(s, Continue(t)), r)
  {
    var s', h := Step(s, Continue(t)), s.threads[t].h;
    PushExtendsFresh(s, s', h);
    assert h.frame.id in EmitHands(s.threads);
    if s.threads[r].Resuming? {
      PushKeepsSettled(s, s', h);
    }
  }

  /** Once the last branch has reported, the goroutine releasing the frame takes, over any run, at most as many
      steps as it had left and two more for each emit meanwhile; until it has resumed the pipeline it always
      has a step to take. So with finitely many emits it ends, resumed. */
  lemma {:induction false} ReleaseEnds(s: State, acts: seq<Action>, r: nat)
    requires BarrierInv(s) && Partition(s) && s.paused && Released(s, r) && DisciplinedRun(s, acts)
    ensures Legal(s, acts)
    ensures var s' := Exec(s, acts);
            Over(s', s.window.frame)
            || (s'.paused && s'.window.from <= |s'.shared.out| && Released(s', r) && Enabled(s', Continue(r))
                && StepsBy(acts, r) + OwnSteps(s'.threads[r], |s'.shared.buffered|)
                   <= OwnSteps(s.threads[r], |s.shared.buffered|) + 2 * Emits(acts))
    decreases |acts|
  {
    if acts != [] {
      var a, s' := acts[0], Step(s, acts[0]);
      ReleaseStep(s, a, r);
      StepKeepsBarrier(s, a);
      StepKeepsPartition(s, a);
      if s'.paused {
        ReleaseEnds(s', acts[1..], r);
      } else {
        ResumedIsOver(s, r);
        StaysOver(s', acts[1..], s.window.frame);
      }
    }
  }

  lemma ResumedIsOver(s: State, r: nat)
    requires BarrierInv(s) && Partition(s) && s.paused && Released(s, r) && s.threads[r].Resuming?
    ensures s.window.frame.id in s.shared.seen
  {
    var b := Barrier(s);
    if b.frame.kind.Start? {
      FreshEscaped(s, 0);
    } else {
      var k :| |s.window.held| <= k < |Fresh(s)| && Fresh(s)[k] == b;
      FreshEscaped(s, k);
    }
    EscapedHasAPlace(s, b);
    assert Places(s, b.frame.id) >= 1;
  }

  // ---------------------------------------------------------------- one goroutine running alone

  function EmitAlone(s: Shared, h: Held): Shared {
    var (s', push) := EmitSection(s, h);
    if push then PushOut(s', h) else s'
  }

  function AnnounceAlone(s: Shared, h: Held): Shared {
    var (s', push) := AnnounceSection(s, h.frame);
    if push then PushOut(s', h) else s'
  }

  function FlushAlone(s: Shared): Shared {
    s.(out := s.out + s.buffered, buffered := [], syncing := false)
  }

  function SinkPushAlone(s: Shared, h: Held): Shared {
    if !IsLifecycle(h.frame) then EmitAlone(s, h)
    else
      var (s', last) := ReportSection(s, h.frame);
      if !last then s'
      else if h.frame.kind.Start? then FlushAlone(AnnounceAlone(s', h))
      else AnnounceAlone(FlushAlone(s'), h)
  }

  /** s' is reached from s by goroutine t taking its next steps, and no other goroutine any. */
  least predicate Alone[nat](s: State, t: nat, s': State) {
    s == s' || (t < |s.threads| && s.threads[t] != Idle && Alone(Advance(s, t), t, s'))
  }

  lemma {:induction false} AloneTrans(k: nat, s: State, t: nat, m: State, s': State)
    requires Alone#[k](s, t, m) && Alone(m, t, s')
    ensures Alone(s, t, s')
  {
    if k > 0 && s != m {
      AloneTrans(k - 1, Advance(s, t), t, m, s');
    }
  }

  lemma AloneThen(s: State, t: nat, m: State, s': State)
    requires Alone(s, t, m) && Alone(m, t, s')
    ensures Alone(s, t, s')
  {
    var k: nat :| Alone#[k](s, t, m);
    AloneTrans(k, s, t, m, s');
  }

  /** The draining loop, run alone, hands out everything held back, in order, and ends the synchronization. */
  lemma {:induction false} DrainAlone(s: State, t: nat, h: Held)
    requires t < |s.threads| && s.threads[t] == Draining(h)
    ensures Alone(s, t, s.(shared := FlushAlone(s.shared), threads := s.threads[t := AfterDrain(h)]))
    decreases |s.shared.buffered|
  {
    var done := s.(shared := FlushAlone(s.shared), threads := s.threads[t := AfterDrain(h)]);
    var s1 := Advance(s, t);
    if s.shared.buffered == [] {
      assert s.shared.out + s.shared.buffered == s.shared.out;
      assert s1 == done;
      assert Alone(s1, t, done);
    } else {
      var s2 := Advance(s1, t);
      assert s2.threads[t] == Draining(h);
      assert s2.shared.out + s2.shared.buffered == s.shared.out + s.shared.buffered;
      DrainAlone(s2, t, h);
      assert s2.threads[t := AfterDrain(h)] == s.threads[t := AfterDrain(h)];
      assert Alone(s1, t, done);
    }
  }

  lemma AnnounceAloneSteps(s: State, t: nat, h: Held)
    requires t < |s.threads| && s.threads[t] == Announcing(h)
    ensures Alone(s, t, s.(shared := AnnounceAlone(s.shared, h), threads := s.threads[t := AfterAnnounce(h)]))
  {
    var done := s.(shared := AnnounceAlone(s.shared, h), threads := s.threads[t := AfterAnnounce(h)]);
    var s1 := Advance(s, t);
    if h.frame.id in s.shared.seen {
      assert s1 == done;
    } else {
      assert Advance(s1, t) == done;
      assert Alone(s1, t, done);
    }
    assert Alone(s1, t, done);
  }

  /** A whole release without interference: the machine ends where the method below does. */
  lemma ReleaseAlone(s: State, t: nat, h: Held)
    requires Enabled(s, Report(t, h)) && ReportSection(s.shared, h.frame).1
    ensures Alone(Step(s, Report(t, h)), t,
                  Step(s, Report(t, h)).(shared := SinkPushAlone(s.shared, h), threads := s.threads, paused := false))
  {
    var s1 := Step(s, Report(t, h));
    var end := s1.(shared := SinkPushAlone(s.shared, h), threads := s.threads, paused := false);
    var last := s1.(shared := SinkPushAlone(s.shared, h), threads := s.threads[t := Resuming(h)]);
    assert Advance(last, t) == end;
    assert Alone(end, t, end);
    if h.frame.kind.Start? {
      AnnounceAloneSteps(s1, t, h);
      var s2 := s1.(shared := AnnounceAlone(s1.shared, h), threads := s1.threads[t := Draining(h)]);
      DrainAlone(s2, t, h);
      assert s2.threads[t := Resuming(h)] == last.threads;
      AloneThen(s1, t, s2, last);
    } else {
      DrainAlone(s1, t, h);
      var s2 := s1.(shared := FlushAlone(s1.shared), threads := s1.threads[t := Announcing(h)]);
      AnnounceAloneSteps(s2, t, h);
      assert s2.threads[t := Resuming(h)] == last.threads;
      AloneThen(s1, t, s2, last);
    }
    AloneThen(s1, t, last, end);
  }

  // ---------------------------------------------------------------- the processor

  class ParallelPipeline {
    const branches: nat
    var seen: set<nat>
    var counter: map<nat, nat>
    var syncing: bool
    var buffered: seq<Held>
    ghost var out: seq<Held>

    ghost function View(): Shared
      reads this
    {
      Shared(seen, counter, syncing, buffered, out)
    }

    constructor (branches: nat)
      ensures this.branches == branches && View() == Init(branches, 0).shared
    {
      this.branches := branches;
      seen, counter, syncing, buffered, out := {}, map[], false, [], [];
    }

    /** What the processor after this one receives. */
    method PushFrame(h: Held)
      modifies this`out
      ensures out == old(out) + [h]
    {
      out := out + [h];
    }

    method ProcessFrame(f: Frame)
      modifies this
      ensures View() == if IsLifecycle(f) then ArmSection(old(View()), f, branches) else old(View())
      ensures seen == old(seen) && buffered == old(buffered) && out == old(out)
      ensures if f.kind.Start? || f.kind.End? || f.kind.Cancel? then counter == old(counter)[f.id := branches] && syncing
              else counter == old(counter) && syncing == old(syncing)
    {
      if IsLifecycle(f) {
        counter := counter[f.id := branches];
        syncing := true;
      }
    }

    method Emit(h: Held)
      modifies this
      ensures View() == EmitAlone(old(View()), h)
      ensures seen == old(seen) + {h.frame.id} && counter == old(counter) && syncing == old(syncing)
      ensures out == old(out) + if h.frame.id !in old(seen) && !syncing then [h] else []
      ensures buffered == old(buffered) + if h.frame.id !in old(seen) && syncing then [h] else []
    {
      if h.frame.id in seen {
        return;
      }
      seen := seen + {h.frame.id};
      if syncing {
        buffered := buffered + [h];
        return;
      }
      PushFrame(h);
    }

    method EmitSynchronized(h: Held)
      modifies this
      ensures View() == AnnounceAlone(old(View()), h)
      ensures seen == old(seen) + {h.frame.id} && counter == old(counter)
      ensures syncing == old(syncing) && buffered == old(buffered)
      ensures out == old(out) + if h.frame.id in old(seen) then [] else [h]
    {
      if h.frame.id in seen {
        return;
      }
      seen := seen + {h.frame.id};
      PushFrame(h);
    }

    method FlushBuffered()
      modifies this
      ensures View() == FlushAlone(old(View()))
      ensures out == old(out) + old(buffered) && buffered == [] && !syncing
    {
      while true
        invariant out + buffered == old(out + buffered)
        invariant seen == old(seen) && counter == old(counter)
        decreases |buffered|
      {
        if |buffered| == 0 {
          syncing := false;
          assert out == out + buffered;
          return;
        }
        var bf := buffered[0];
        buffered := buffered[1..];
        PushFrame(bf);
      }
    }

    method SinkPush(h: Held)
      modifies this
      ensures View() == SinkPushAlone(old(View()), h)
      ensures var known := h.frame.id in old(seen);
              var n := if h.frame.id in old(counter) then old(counter)[h.frame.id] else 0;
              var alone := if known then [] else [h];
              match h.frame.kind
              case Start =>
                if n > 1 then out == old(out) && counter == old(counter)[h.frame.id := n - 1]
                else out == old(out) + alone + old(buffered) && h.frame.id !in counter
              case End =>
                if n > 1 then out == old(out) && counter == old(counter)[h.frame.id := n - 1]
                else out == old(out) + old(buffered) + alone && h.frame.id !in counter
              case Cancel =>
                if n > 1 then out == old(out) && counter == old(counter)[h.frame.id := n - 1]
                else out == old(out) + old(buffered) + alone && h.frame.id !in counter
              case _ =>
                counter == old(counter) && syncing == old(syncing)
                && out == old(out) + (if syncing then [] else alone) && buffered == old(buffered) + if syncing then alone else []
    {
      if !IsLifecycle(h.frame) {
        Emit(h);
        return;
      }
      var n := if h.frame.id in counter then counter[h.frame.id] else 0;
      if n > 0 {
        n := n - 1;
        counter := counter[h.frame.id := n];
      }
      if n > 0 {
        return;
      }
      counter := counter - {h.frame.id};
      if h.frame.kind.Start? {
        EmitSynchronized(h);
        FlushBuffered();
      } else {
        FlushBuffered();
        EmitSynchronized(h);
      }
    }
  }
}
