/**
 The observer proxy (pipeline/observerproxy.go): each observer has an unbounded queue of reports and a
 worker delivering them, which ends at once when quit is closed and in an orderly way when finishing is.
 The machine interleaves producers, the worker's every check, and the two closings.
 */
module ReportQueue {
  import opened Wrappers

  /** A push of the frame known by key, and whether it is its first. */
  datatype Report = Report(key: nat, firstPush: bool)

  // ---------------------------------------------------------------- the machine

  /** Where the worker is inside get: about to check quit, about to try the queue, about to check finishing
      after finding nothing, or blocked; or else delivering what it got, or done. */
  datatype Pc = AtQuit | AtTryGet | AtFinishing | Blocked | Delivering(r: Report) | Done

  /** signallers counts the producers between appending and signalling. missed and late are history: whether
      finishing closed on a report the worker would not look at again, and whether one came after it. */
  datatype State = State(items: seq<Report>, token: bool, signallers: nat, quit: bool, finishing: bool, worker: Pc,
                         pushed: seq<Report>, delivered: seq<Report>, missed: bool, late: bool)

  /** What ends a blocked worker's wait. */
  datatype Wake = ByQuit | ByFinishing | ByToken

  datatype Action = Push(r: Report) | Signal | CloseFinishing | CloseQuit | Work(wake: Wake)

  const INIT := State([], false, 0, false, false, AtQuit, [], [], false, false)

  predicate Enabled(s: State, a: Action) {
    match a
    case Signal => s.signallers > 0
    case CloseFinishing => !s.finishing
    case CloseQuit => !s.quit
    case Push(_) => true
    case Work(wake) =>
      !s.worker.Done?
      && (s.worker.Blocked? ==> match wake case ByQuit => s.quit case ByFinishing => s.finishing case ByToken => s.token)
  }

  function Step(s: State, a: Action): State
    requires Enabled(s, a)
  {
    match a
    case Push(r) =>
      s.(items := s.items + [r], pushed := s.pushed + [r], signallers := s.signallers + 1, late := s.late || s.finishing)
    case Signal => s.(signallers := s.signallers - 1, token := true)
    case CloseFinishing => s.(finishing := true, missed := s.worker.AtFinishing? && s.items != [])
    case CloseQuit => s.(quit := true)
    case Work(wake) =>
      match s.worker
      case AtQuit => s.(worker := if s.quit then Done else AtTryGet)
      case AtTryGet => if s.items == [] then s.(worker := AtFinishing) else s.(worker := Delivering(s.items[0]), items := s.items[1..])
      case AtFinishing => s.(worker := if s.finishing then Done else Blocked)
      case Blocked =>
        (match wake
         case ByQuit => s.(worker := Done)
         case ByFinishing => s.(worker := AtQuit)
         case ByToken => s.(worker := AtQuit, token := false))
      case Delivering(r) => s.(worker := AtQuit, delivered := s.delivered + [r])
      case Done => s
  }

  ghost predicate Legal(s: State, acts: seq<Action>)
    decreases |acts|
  {
    acts == [] || (Enabled(s, acts[0]) && Legal(Step(s, acts[0]), acts[1..]))
  }

  ghost function Exec(s: State, acts: seq<Action>): State
    requires Legal(s, acts)
    decreases |acts|
  {
    if acts == [] then s else Exec(Step(s, acts[0]), acts[1..])
  }

  // ---------------------------------------------------------------- what every run keeps

  function InHand(pc: Pc): seq<Report> {
    if pc.Delivering? then [pc.r] else []
  }

  /** No report is lost, duplicated or reordered: what is not delivered is in hand or still queued. */
  ghost predicate Conserved(s: State) {
    s.pushed == s.delivered + InHand(s.worker) + s.items
  }

  /** A worker blocked, or about to block, on a queue that holds something has a token to wake it, or one
      about to come. */
  ghost predicate NoLostWakeUp(s: State) {
    (s.worker.Blocked? || s.worker.AtFinishing?) && s.items != [] ==> s.token || s.signallers > 0
  }

  /** An orderly end leaves something undelivered exactly when finishing closed between the worker finding
      its queue empty and it checking finishing, a report having come in between. */
  ghost predicate OrderlyEnd(s: State) {
    (s.worker.Done? ==> s.quit || s.finishing)
    && (!s.finishing ==> !s.late && !s.missed)
    && (s.finishing && !s.late && !s.quit ==>
          if s.missed then (s.worker.AtFinishing? || s.worker.Done?) && s.items != []
          else s.worker.AtFinishing? || s.worker.Done? ==> s.items == [])
  }

  ghost predicate Inv(s: State) {
    Conserved(s) && NoLostWakeUp(s) && OrderlyEnd(s)
  }

  lemma StepConserves(s: State, a: Action)
    requires Enabled(s, a) && Conserved(s)
    ensures Conserved(Step(s, a))
  {
    if a.Work? && s.worker.AtTryGet? && s.items != [] {
      assert s.items == [s.items[0]] + s.items[1..];
    }
  }

  lemma StepKeepsWakeUp(s: State, a: Action)
    requires Enabled(s, a) && NoLostWakeUp(s)
    ensures NoLostWakeUp(Step(s, a))
  {
  }

  lemma StepKeepsEnd(s: State, a: Action)
    requires Enabled(s, a) && OrderlyEnd(s)
    ensures OrderlyEnd(Step(s, a))
  {
  }

  lemma {:induction false} RunKeepsInv(s: State, acts: seq<Action>)
    requires Legal(s, acts) && Inv(s)
    ensures Inv(Exec(s, acts))
    decreases |acts|
  {
    if acts != [] {
      StepConserves(s, acts[0]);
      StepKeepsWakeUp(s, acts[0]);
      StepKeepsEnd(s, acts[0]);
      RunKeepsInv(Step(s, acts[0]), acts[1..]);
    }
  }

  /** In every run: the observer has heard a prefix of what was reported, in order, however it is ended; and
      a worker asleep on a report is about to be woken. */
  lemma HeardInOrder(acts: seq<Action>)
    requires Legal(INIT, acts)
    ensures var s := Exec(INIT, acts);
            s.delivered <= s.pushed && Inv(s)
            && (!s.quit && !s.finishing && (forall a: Action :: a.Signal? || a.Work? ==> !Enabled(s, a)) ==> s.delivered == s.pushed)
  {
    RunKeepsInv(INIT, acts);
    var s := Exec(INIT, acts);
    assert s.pushed == s.delivered + (InHand(s.worker) + s.items);
    if !s.quit && !s.finishing && forall a: Action :: a.Signal? || a.Work? ==> !Enabled(s, a) {
      assert !Enabled(s, Signal) && !Enabled(s, Work(ByToken));
    }
  }

  /** The orderly end, when nothing is reported after it and quit stays open: the observer has heard
      everything if and only if finishing did not close on a report the worker had already looked past. */
  lemma FinishDeliversIff(acts: seq<Action>)
    requires Legal(INIT, acts)
    requires var s := Exec(INIT, acts); s.worker.Done? && !s.quit && !s.late
    ensures var s := Exec(INIT, acts); s.delivered == s.pushed <==> !s.missed
  {
    RunKeepsInv(INIT, acts);
    var s := Exec(INIT, acts);
    assert |s.pushed| == |s.delivered| + |s.items|;
  }

  /** Such a run: the worker finds nothing, a report comes in, finishing closes, and the worker leaves. */
  lemma FinishCanLoseAReport(r: Report)
    ensures var acts := [Work(ByToken), Work(ByToken), Push(r), Signal, CloseFinishing, Work(ByToken)];
            Legal(INIT, acts) && Exec(INIT, acts).worker.Done? && Exec(INIT, acts).delivered == [] && Exec(INIT, acts).pushed == [r]
  {
    var w := Work(ByToken);
    var s2 := Step(Step(INIT, w), w);
    var s3 := Step(s2, Push(r));
    var s4 := Step(s3, Signal);
    var s5 := Step(s4, CloseFinishing);
    var s6 := Step(s5, w);
    var a5 := [w];
    var a4 := [CloseFinishing] + a5;
    var a3 := [Signal] + a4;
    var a2 := [Push(r)] + a3;
    var a1 := [w] + a2;
    var acts := [w] + a1;
    assert acts == [w, w, Push(r), Signal, CloseFinishing, w];
    assert a5[1..] == [] && a4[1..] == a5 && a3[1..] == a4 && a2[1..] == a3 && a1[1..] == a2 && acts[1..] == a1;
    assert Legal(s6, []) && Legal(s5, a5) && Legal(s4, a4) && Legal(s3, a3) && Legal(s2, a2) && Legal(Step(INIT, w), a1);
    assert Exec(s6, []) == s6 && Exec(s5, a5) == s6 && Exec(s4, a4) == s6 && Exec(s3, a3) == s6 && Exec(s2, a2) == s6;
    assert Exec(Step(INIT, w), a1) == s6;
  }

  // ---------------------------------------------------------------- a closed worker ends

  /** The steps the worker has left once it has been told to end. */
  function Remaining(s: State): nat {
    3 * |s.items|
    + match s.worker
      case Delivering(_) => 4
      case Blocked => 4
      case AtQuit => 3
      case AtTryGet => 2
      case AtFinishing => 1
      case Done => 0
  }

  function WorkerSteps(acts: seq<Action>): nat {
    if acts == [] then 0 else (if acts[0].Work? then 1 else 0) + WorkerSteps(acts[1..])
  }

  predicate NoPush(acts: seq<Action>) {
    forall i :: 0 <= i < |acts| ==> !acts[i].Push?
  }

  /** Once finishing is closed the worker always has a step to take, and with nothing more reported it takes
      boundedly many before it is done. */
  lemma {:induction false} FinishingEnds(s: State, acts: seq<Action>)
    requires Legal(s, acts) && s.finishing && NoPush(acts)
    ensures WorkerSteps(acts) + Remaining(Exec(s, acts)) <= Remaining(s) <= 3 * |s.items| + 4
    ensures Exec(s, acts).worker.Done? || Enabled(Exec(s, acts), Work(ByFinishing))
    decreases |acts|
  {
    if acts != [] {
      FinishingEnds(Step(s, acts[0]), acts[1..]);
    }
  }

  // ---------------------------------------------------------------- the queue

  datatype Got = Took(r: Report) | Ended | Asleep

  class Queue {
    var items: seq<Report>
    var notify: bool

    constructor ()
      ensures items == [] && !notify
    {
      items, notify := [], false;
    }

    method Push(r: Report)
      modifies this
      ensures items == old(items) + [r] && notify
    {
      items := items + [r];
      notify := true;
    }

    method TryGet() returns (r: Option<Report>)
      modifies this`items
      ensures if old(items) == [] then r == None && items == [] else r == Some(old(items)[0]) && items == old(items)[1..]
    {
      if |items| == 0 {
        return None;
      }
      r := Some(items[0]);
      items := items[1..];
    }

    /** get, with nothing else running: quit wins over a waiting report, and a report wins over finishing. */
    method Get(quit: bool, finishing: bool) returns (g: Got)
      modifies this
      ensures quit ==> g == Ended && items == old(items)
      ensures !quit && old(items) != [] ==> g == Took(old(items)[0]) && items == old(items)[1..]
      ensures !quit && old(items) == [] ==> items == [] && g == if finishing then Ended else Asleep
    {
      while true
        invariant items == old(items)
        decreases notify
      {
        if quit {
          return Ended;
        }
        var r := TryGet();
        if r.Some? {
          return Took(r.value);
        }
        if finishing {
          return Ended;
        }
        if !notify {
          return Asleep;
        }
        notify := false;
      }
    }
  }

  class Worker {
    const everyPush: bool
    const queue: Queue
    ghost var delivered: seq<Report>

    constructor (everyPush: bool)
      ensures this.everyPush == everyPush && fresh(queue) && queue.items == [] && delivered == []
    {
      this.everyPush := everyPush;
      queue := new Queue();
      delivered := [];
    }

    method Deliver(r: Report)
      modifies this`delivered
      ensures delivered == old(delivered) + [r]
    {
      delivered := delivered + [r];
    }

    /** run, until it ends or sleeps: everything queued is delivered unless it was told to quit. */
    method Run(quit: bool, finishing: bool)
      modifies this`delivered, queue
      ensures delivered + queue.items == old(delivered) + old(queue.items)
      ensures quit ==> delivered == old(delivered)
      ensures !quit ==> queue.items == []
    {
      while true
        invariant delivered + queue.items == old(delivered) + old(queue.items)
        invariant quit ==> delivered == old(delivered)
        decreases |queue.items|
      {
        ghost var was := queue.items;
        var g := queue.Get(quit, finishing);
        if !g.Took? {
          return;
        }
        assert was == [g.r] + queue.items;
        Deliver(g.r);
      }
    }
  }

  // ---------------------------------------------------------------- first pushes

  function Keys(history: seq<nat>): set<nat> {
    set i | 0 <= i < |history| :: history[i]
  }

  /** What one observer is told of the pushes in history. */
  function Told(history: seq<nat>, everyPush: bool): seq<Report> {
    if history == [] then []
    else
      var n := |history| - 1;
      var first := history[n] !in history[..n];
      Told(history[..n], everyPush) + if first || everyPush then [Report(history[n], first)] else []
  }

  predicate FirstAt(history: seq<nat>, i: nat)
    requires i < |history|
  {
    history[i] !in history[..i]
  }

  lemma KeysAre(history: seq<nat>, key: nat)
    ensures key in Keys(history) <==> key in history
  {
  }

  /** An observer of every push hears of each, and which are first pushes. */
  lemma {:induction false} ToldOfEveryPush(history: seq<nat>)
    ensures |Told(history, true)| == |history|
    ensures forall i :: 0 <= i < |history| ==> Told(history, true)[i] == Report(history[i], FirstAt(history, i))
  {
    if history != [] {
      var n := |history| - 1;
      var before := history[..n];
      ToldOfEveryPush(before);
      AllInPrefix(history, n);
      OneMoreHeard(history, Told(before, true));
    }
  }

  lemma OneMoreHeard(history: seq<nat>, told: seq<Report>)
    requires history != [] && |told| == |history| - 1
    requires forall i :: 0 <= i < |told| ==> told[i] == Report(history[i], FirstAt(history, i))
    ensures var all := told + [Report(history[|told|], FirstAt(history, |told|))];
            forall i :: 0 <= i < |history| ==> all[i] == Report(history[i], FirstAt(history, i))
  {
  }

  lemma FirstInPrefix(history: seq<nat>, n: nat, i: nat)
    requires i < n <= |history|
    ensures FirstAt(history[..n], i) == FirstAt(history, i)
  {
    assert history[..n][..i] == history[..i];
  }

  lemma AllInPrefix(history: seq<nat>, n: nat)
    requires n <= |history|
    ensures forall i :: 0 <= i < n ==> history[..n][i] == history[i] && FirstAt(history[..n], i) == FirstAt(history, i)
  {
    forall i | 0 <= i < n ensures FirstAt(history[..n], i) == FirstAt(history, i) {
      FirstInPrefix(history, n, i);
    }
  }

  /** An observer that wants a frame once hears of each frame that was pushed, once, as a first push. */
  lemma {:induction false} ToldOfEachFrameOnce(history: seq<nat>)
    ensures forall key :: Report(key, true) in Told(history, false) <==> key in history
    ensures forall i :: 0 <= i < |Told(history, false)| ==> Told(history, false)[i].firstPush
    ensures forall i, j :: 0 <= i < j < |Told(history, false)| ==> Told(history, false)[i].key != Told(history, false)[j].key
  {
    if history != [] {
      var n := |history| - 1;
      var key := history[n];
      ToldOfEachFrameOnce(history[..n]);
      assert history == history[..n] + [key];
      var before := Told(history[..n], false);
      forall i | 0 <= i < |before| ensures before[i].key in history[..n] {
        assert before[i] == Report(before[i].key, true) && before[i] in before;
      }
    }
  }

  lemma KeysSnoc(history: seq<nat>, key: nat)
    ensures Keys(history + [key]) == Keys(history) + {key}
  {
    var more := history + [key];
    assert more[|history|] == key;
    forall k | k in Keys(history) ensures k in Keys(more) {
      var i :| 0 <= i < |history| && history[i] == k;
      assert more[i] == k;
    }
  }

  class ObserverProxy {
    var observers: seq<Worker>
    var started: bool
    var framesPushed: set<nat>
    /** The keys of the frames pushed, in order, and of those the pipeline has let go of. */
    ghost var history: seq<nat>
    ghost var gone: set<nat>

    ghost predicate Valid()
      reads this
    {
      framesPushed == Keys(history) - gone
      && forall i, j :: 0 <= i < j < |observers| ==> observers[i].queue != observers[j].queue
    }

    ghost function Queues(): set<Queue>
      reads this
    {
      set i | 0 <= i < |observers| :: observers[i].queue
    }

    constructor (observers: seq<Worker>)
      requires forall i, j :: 0 <= i < j < |observers| ==> observers[i].queue != observers[j].queue
      ensures Valid() && !started && history == [] && gone == {} && this.observers == observers
    {
      this.observers, started, framesPushed := observers, false, {};
      history, gone := [], {};
    }

    method Start()
      requires Valid()
      modifies this`started
      ensures Valid() && started
    {
      started := true;
    }

    /** A frame is pushed only while it is alive. */
    method OnPushFrame(key: nat)
      requires Valid() && key !in gone
      modifies this, Queues()
      ensures Valid() && gone == old(gone) && observers == old(observers) && started == old(started)
      ensures if !old(started) || observers == [] then history == old(history) else history == old(history) + [key]
      ensures forall i :: 0 <= i < |observers| ==>
                old(observers[i].queue.items) <= observers[i].queue.items
                && Told(history, observers[i].everyPush)
                   == Told(old(history), observers[i].everyPush) + observers[i].queue.items[|old(observers[i].queue.items)|..]
    {
      if !started || |observers| == 0 {
        return;
      }
      var firstPush := key !in framesPushed;
      framesPushed := framesPushed + {key};
      history := history + [key];
      assert history[..|history| - 1] == old(history);
      KeysSnoc(old(history), key);
      KeysAre(old(history), key);
      var i := 0;
      while i < |observers|
        invariant i <= |observers| && observers == old(observers) && started && gone == old(gone)
        invariant history == old(history) + [key] && framesPushed == Keys(history) - gone
        invariant forall j :: 0 <= j < |observers| ==>
                    observers[j].queue.items == old(observers[j].queue.items)
                                                + if j < i && (firstPush || observers[j].everyPush) then [Report(key, firstPush)] else []
      {
        if firstPush || observers[i].everyPush {
          observers[i].queue.Push(Report(key, firstPush));
        }
        i := i + 1;
      }
    }

    /** The frame is no longer in flight. */
    method Forget(key: nat)
      requires Valid()
      modifies this`framesPushed, this`gone
      ensures Valid() && gone == old(gone) + {key}
    {
      framesPushed := framesPushed - {key};
      gone := gone + {key};
    }
  }
}
