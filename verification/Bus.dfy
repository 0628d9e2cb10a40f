/**
 The worker bus (bus/bus.go, bus/queue.go), for one subscriber: producers put messages into its queue, a
 router hands system messages over at once and moves data messages to a second queue, a dispatcher hands
 those over. Every critical section and every channel operation is one step of a machine that interleaves
 them.
 */
module Bus {
  import opened Wrappers

  datatype Msg = Msg(system: bool, id: nat)

  /** A message queue: two bands, and the one-slot channel that wakes its consumer. */
  datatype Queue = Queue(system: seq<Msg>, data: seq<Msg>, token: bool)

  const EMPTY := Queue([], [], false)

  function Append(q: Queue, m: Msg): Queue {
    if m.system then q.(system := q.system + [m]) else q.(data := q.data + [m])
  }

  predicate Empty(q: Queue) {
    q.system == [] && q.data == []
  }

  /** What tryGet takes next. */
  function Head(q: Queue): Msg
    requires !Empty(q)
  {
    if q.system != [] then q.system[0] else q.data[0]
  }

  function Rest(q: Queue): Queue
    requires !Empty(q)
  {
    if q.system != [] then q.(system := q.system[1..]) else q.(data := q.data[1..])
  }

  // ---------------------------------------------------------------- the machine

  /** Where a consumer is: about to try its queue, blocked on the token, deciding on the message it took, in
      the subscriber's handler, between appending to the second queue and signalling it, or returned. */
  datatype Pc = Polling | Waiting | Holding(m: Msg) | Delivering(m: Msg) | Signalling | Stopped

  /** The history, band by band: what was put; what the router asked the subscriber about; the data messages
      it passed on; what the dispatcher asked about; what was handed over; and how often the answer was no. */
  datatype Log = Log(putSystem: seq<Msg>, putData: seq<Msg>, routedSystem: seq<Msg>, routedData: seq<Msg>, passed: seq<Msg>,
                     dispatched: seq<Msg>, gotSystem: seq<Msg>, gotData: seq<Msg>, refused: nat)

  /** signallers counts the producers between appending to the inbox and signalling it. */
  datatype State = State(inbox: Queue, signallers: nat, work: Queue, router: Pc, dispatcher: Pc, running: bool, log: Log)

  /** taken is the subscriber's answer when it is asked; canceled is what ends a blocked consumer's wait. */
  datatype Action = Put(m: Msg) | Signal | Start | Stop | Route(taken: bool, canceled: bool) | Dispatch(taken: bool, canceled: bool)

  const INIT := State(EMPTY, 0, EMPTY, Stopped, Stopped, false, Log([], [], [], [], [], [], [], [], 0))

  predicate CanMove(pc: Pc, q: Queue, running: bool, canceled: bool) {
    !pc.Stopped? && (pc.Waiting? ==> if canceled then !running else q.token)
  }

  predicate Enabled(s: State, a: Action) {
    match a
    case Put(_) => true
    case Signal => s.signallers > 0
    case Start => !s.running && s.router.Stopped? && s.dispatcher.Stopped?
    case Stop => s.running
    case Route(_, canceled) => CanMove(s.router, s.inbox, s.running, canceled)
    case Dispatch(_, canceled) => CanMove(s.dispatcher, s.work, s.running, canceled)
  }

  function LogPut(l: Log, m: Msg): Log {
    if m.system then l.(putSystem := l.putSystem + [m]) else l.(putData := l.putData + [m])
  }

  function LogRouted(l: Log, m: Msg, taken: bool): Log {
    var l' := l.(refused := l.refused + if taken then 0 else 1);
    if m.system then l'.(routedSystem := l.routedSystem + [m], gotSystem := l.gotSystem + if taken then [m] else [])
    else l'.(routedData := l.routedData + [m], passed := l.passed + if taken then [m] else [])
  }

  function LogDispatched(l: Log, m: Msg, taken: bool): Log {
    l.(refused := l.refused + (if taken then 0 else 1), dispatched := l.dispatched + [m], gotData := l.gotData + if taken then [m] else [])
  }

  function Step(s: State, a: Action): State
    requires Enabled(s, a)
  {
    match a
    case Put(m) => s.(inbox := Append(s.inbox, m), signallers := s.signallers + 1, log := LogPut(s.log, m))
    case Signal => s.(signallers := s.signallers - 1, inbox := s.inbox.(token := true))
    case Start => s.(running := true, router := Polling, dispatcher := Polling)
    case Stop => s.(running := false)
    case Route(taken, canceled) => RouteStep(s, taken, canceled)
    case Dispatch(taken, canceled) => DispatchStep(s, taken, canceled)
  }

  function RouteStep(s: State, taken: bool, canceled: bool): State {
    match s.router
    case Polling => if Empty(s.inbox) then s.(router := Waiting) else s.(router := Holding(Head(s.inbox)), inbox := Rest(s.inbox))
    case Waiting => if canceled then s.(router := Stopped) else s.(router := Polling, inbox := s.inbox.(token := false))
    case Holding(m) =>
      var s' := s.(log := LogRouted(s.log, m, taken));
      if !taken then s'.(router := Polling)
      else if m.system then s'.(router := Delivering(m))
      else s'.(router := Signalling, work := Append(s.work, m))
    case Delivering(_) => s.(router := Polling)
    case Signalling => s.(router := Polling, work := s.work.(token := true))
    case Stopped => s
  }

  function DispatchStep(s: State, taken: bool, canceled: bool): State {
    match s.dispatcher
    case Polling => if Empty(s.work) then s.(dispatcher := Waiting) else s.(dispatcher := Holding(Head(s.work)), work := Rest(s.work))
    case Waiting => if canceled then s.(dispatcher := Stopped) else s.(dispatcher := Polling, work := s.work.(token := false))
    case Holding(m) =>
      s.(log := LogDispatched(s.log, m, taken), dispatcher := if taken then Delivering(m) else Polling)
    case Delivering(_) => s.(dispatcher := Polling)
    case Signalling => s
    case Stopped => s
  }

  ghost predicate Legal(s: State, acts: seq<Action>)
    decreases |acts|
  {
    acts == [] || (Enabled(s, acts[0]) && Legal(Step(s, acts[0]), acts[1..]))
  }

  ghost function Exec(s: State, acts: seq<Action>): State
    requires Legal(s, acts)
    decreases |acts|
  {
    if acts == [] then s else Exec(Step(s, acts[0]), acts[1..])
  }

  // ---------------------------------------------------------------- conservation

  function InHand(pc: Pc): seq<Msg> {
    if pc.Holding? then [pc.m] else []
  }

  function InHandOf(pc: Pc, system: bool): seq<Msg> {
    if pc.Holding? && pc.m.system == system then [pc.m] else []
  }

  /** Every message put is, in order, one the router has asked about, the one in its hands, or queued; every
      data message it passed on is one the dispatcher has asked about, the one in its hands, or queued. */
  ghost predicate NothingLostYet(s: State) {
    s.log.putSystem == s.log.routedSystem + InHandOf(s.router, true) + s.inbox.system
    && s.log.putData == s.log.routedData + InHandOf(s.router, false) + s.inbox.data
    && s.log.passed == s.log.dispatched + InHand(s.dispatcher) + s.work.data
    && s.work.system == []
  }

  ghost predicate Sorted(s: State) {
    (forall i :: 0 <= i < |s.inbox.system| ==> s.inbox.system[i].system)
    && (forall i :: 0 <= i < |s.inbox.data| ==> !s.inbox.data[i].system)
  }

  /** a is b with messages left out: f says where each of a's is in b. */
  ghost predicate Embeds(a: seq<Msg>, b: seq<Msg>, f: seq<nat>) {
    |f| == |a| && (forall i :: 0 <= i < |f| ==> f[i] < |b| && a[i] == b[f[i]]) && (forall i, j :: 0 <= i < j < |f| ==> f[i] < f[j])
  }

  ghost predicate InOrder(a: seq<Msg>, b: seq<Msg>) {
    exists f: seq<nat> :: Embeds(a, b, f)
  }

  /** What a stage passes on is what it asked about, in order, without as many as were refused. */
  ghost predicate OnlyRefusalsDropped(l: Log) {
    InOrder(l.gotSystem, l.routedSystem) && InOrder(l.passed, l.routedData) && InOrder(l.gotData, l.dispatched)
    && l.refused == |l.routedSystem| - |l.gotSystem| + |l.routedData| - |l.passed| + |l.dispatched| - |l.gotData|
  }

  ghost predicate Conserved(s: State) {
    NothingLostYet(s) && Sorted(s) && OnlyRefusalsDropped(s.log)
  }

  /** A consumer blocked on a queue that holds something has a token to wake it, or one about to come. */
  ghost predicate WakeUps(s: State) {
    (s.router.Waiting? && !Empty(s.inbox) ==> s.inbox.token || s.signallers > 0)
    && (s.dispatcher.Waiting? && !Empty(s.work) ==> s.work.token || s.router.Signalling?)
  }

  lemma InOrderSnoc(a: seq<Msg>, b: seq<Msg>, m: Msg)
    requires InOrder(a, b)
    ensures InOrder(a + [m], b + [m]) && InOrder(a, b + [m])
  {
    var f: seq<nat> :| Embeds(a, b, f);
    assert Embeds(a + [m], b + [m], f + [|b|]);
    assert Embeds(a, b + [m], f);
  }

  lemma RouteTakes(s: State, a: Action)
    requires a.Route? && Enabled(s, a) && s.router.Polling? && NothingLostYet(s) && Sorted(s)
    ensures NothingLostYet(Step(s, a)) && Sorted(Step(s, a))
  {
    if s.inbox.system != [] {
      assert s.inbox.system == [s.inbox.system[0]] + s.inbox.system[1..];
    } else if s.inbox.data != [] {
      assert s.inbox.data == [s.inbox.data[0]] + s.inbox.data[1..];
    }
  }

  lemma RouteDecides(s: State, a: Action)
    requires a.Route? && Enabled(s, a) && s.router.Holding? && NothingLostYet(s) && Sorted(s)
    ensures NothingLostYet(Step(s, a)) && Sorted(Step(s, a))
  {
  }

  lemma RouteKeeps(s: State, a: Action)
    requires a.Route? && Enabled(s, a) && NothingLostYet(s) && Sorted(s)
    ensures NothingLostYet(Step(s, a)) && Sorted(Step(s, a))
  {
    match s.router
    case Polling => RouteTakes(s, a);
    case Holding(_) => RouteDecides(s, a);
    case _ =>
  }

  lemma DispatchKeeps(s: State, a: Action)
    requires a.Dispatch? && Enabled(s, a) && NothingLostYet(s) && Sorted(s)
    ensures NothingLostYet(Step(s, a)) && Sorted(Step(s, a))
  {
    if s.dispatcher.Polling? && s.work.data != [] {
      assert s.work.data == [s.work.data[0]] + s.work.data[1..];
    }
  }

  lemma LogKeeps(l: Log, m: Msg, taken: bool)
    requires OnlyRefusalsDropped(l)
    ensures OnlyRefusalsDropped(LogRouted(l, m, taken)) && OnlyRefusalsDropped(LogDispatched(l, m, taken))
  {
    InOrderSnoc(l.gotSystem, l.routedSystem, m);
    InOrderSnoc(l.passed, l.routedData, m);
    InOrderSnoc(l.gotData, l.dispatched, m);
    assert l.gotSystem + [] == l.gotSystem && l.passed + [] == l.passed && l.gotData + [] == l.gotData;
  }

  lemma StepKeepsLog(s: State, a: Action)
    requires Enabled(s, a) && OnlyRefusalsDropped(s.log)
    ensures OnlyRefusalsDropped(Step(s, a).log)
  {
    match a
    case Route(taken, _) =>
      if s.router.Holding? {
        LogKeeps(s.log, s.router.m, taken);
      }
    case Dispatch(taken, _) =>
      if s.dispatcher.Holding? {
        LogKeeps(s.log, s.dispatcher.m, taken);
      }
    case _ =>
  }

  lemma StepKeepsConserved(s: State, a: Action)
    requires Enabled(s, a) && Conserved(s)
    ensures Conserved(Step(s, a))
  {
    StepKeepsLog(s, a);
    match a
    case Route(_, _) => RouteKeeps(s, a);
    case Dispatch(_, _) => DispatchKeeps(s, a);
    case _ =>
  }

  lemma StepKeepsWakeUps(s: State, a: Action)
    requires Enabled(s, a) && WakeUps(s)
    ensures WakeUps(Step(s, a))
  {
  }

  lemma {:induction false} RunKeeps(s: State, acts: seq<Action>)
    requires Legal(s, acts) && Conserved(s) && WakeUps(s)
    ensures Conserved(Exec(s, acts)) && WakeUps(Exec(s, acts))
    decreases |acts|
  {
    if acts != [] {
      StepKeepsConserved(s, acts[0]);
      StepKeepsWakeUps(s, acts[0]);
      RunKeeps(Step(s, acts[0]), acts[1..]);
    }
  }

  /** In every run, whoever puts, routes and dispatches when, and however often the bus is stopped and
      started again: no message is lost or duplicated in either stage, and no wake-up is lost. */
  lemma NothingLost(acts: seq<Action>)
    requires Legal(INIT, acts)
    ensures Conserved(Exec(INIT, acts)) && WakeUps(Exec(INIT, acts))
  {
    assert Embeds([], [], []);
    RunKeeps(INIT, acts);
  }

  // ---------------------------------------------------------------- order

  lemma InOrderTrans(a: seq<Msg>, b: seq<Msg>, c: seq<Msg>)
    requires InOrder(a, b) && InOrder(b, c)
    ensures InOrder(a, c)
  {
    var f: seq<nat> :| Embeds(a, b, f);
    var g: seq<nat> :| Embeds(b, c, g);
    assert Embeds(a, c, seq(|f|, i requires 0 <= i < |f| => g[f[i]]));
  }

  lemma PrefixInOrder(a: seq<Msg>, b: seq<Msg>)
    requires a <= b
    ensures InOrder(a, b)
  {
    assert Embeds(a, b, seq(|a|, i => i));
  }

  /** What the subscriber is handed of a band comes in the order it was put, in every run. */
  lemma DeliveredInPutOrder(acts: seq<Action>)
    requires Legal(INIT, acts)
    ensures var l := Exec(INIT, acts).log;
            InOrder(l.gotSystem, l.putSystem) && InOrder(l.gotData, l.putData)
  {
    NothingLost(acts);
    var l := Exec(INIT, acts).log;
    PrefixInOrder(l.routedSystem, l.putSystem);
    InOrderTrans(l.gotSystem, l.routedSystem, l.putSystem);
    PrefixInOrder(l.routedData, l.putData);
    PrefixInOrder(l.dispatched, l.passed);
    InOrderTrans(l.gotData, l.dispatched, l.passed);
    InOrderTrans(l.gotData, l.passed, l.routedData);
    InOrderTrans(l.gotData, l.routedData, l.putData);
  }

  /** A step of the machine that is neither a producer's nor the bus's owner's. */
  predicate Internal(a: Action) {
    a.Signal? || a.Route? || a.Dispatch?
  }

  lemma {:induction false} EmbedsGrows(a: seq<Msg>, b: seq<Msg>, f: seq<nat>, i: nat)
    requires Embeds(a, b, f) && i < |f|
    ensures i <= f[i]
  {
    if i > 0 {
      EmbedsGrows(a, b, f, i - 1);
    }
  }

  lemma {:induction false} EmbedsShrinks(a: seq<Msg>, b: seq<Msg>, f: seq<nat>, i: nat)
    requires Embeds(a, b, f) && i < |f|
    ensures f[i] <= |b| - (|f| - i)
    decreases |f| - i
  {
    if i + 1 < |f| {
      EmbedsShrinks(a, b, f, i + 1);
    }
  }

  /** Leaving nothing out leaves everything where it was. */
  lemma AllInOrder(a: seq<Msg>, b: seq<Msg>)
    requires InOrder(a, b)
    ensures |a| <= |b| && (|a| == |b| ==> a == b)
  {
    var f: seq<nat> :| Embeds(a, b, f);
    if f != [] {
      EmbedsGrows(a, b, f, |f| - 1);
    }
    if |a| == |b| {
      forall i | 0 <= i < |a| ensures a[i] == b[i] {
        EmbedsGrows(a, b, f, i);
        EmbedsShrinks(a, b, f, i);
      }
    }
  }

  /** While the bus runs, neither of its goroutines has returned. */
  lemma {:induction false} StartedRuns(s: State, acts: seq<Action>)
    requires Legal(s, acts) && (s.running ==> !s.router.Stopped? && !s.dispatcher.Stopped?) && !s.dispatcher.Signalling?
    ensures var s' := Exec(s, acts);
            (s'.running ==> !s'.router.Stopped? && !s'.dispatcher.Stopped?) && !s'.dispatcher.Signalling?
    decreases |acts|
  {
    if acts != [] {
      StartedRuns(Step(s, acts[0]), acts[1..]);
    }
  }

  /** A running bus that has come to rest has asked about everything put and passed on: it never sleeps on a
      message. A subscriber that refused nothing has been handed everything put, each band in order. */
  lemma RestMeansDelivered(acts: seq<Action>)
    requires Legal(INIT, acts)
    requires Exec(INIT, acts).running && forall a :: Internal(a) ==> !Enabled(Exec(INIT, acts), a)
    ensures var l := Exec(INIT, acts).log;
            l.putSystem == l.routedSystem && l.putData == l.routedData && l.passed == l.dispatched
            && (l.refused == 0 ==> l.gotSystem == l.putSystem && l.gotData == l.putData)
  {
    NothingLost(acts);
    StartedRuns(INIT, acts);
    var s := Exec(INIT, acts);
    assert !Enabled(s, Signal) && !Enabled(s, Route(true, false)) && !Enabled(s, Dispatch(true, false));
    assert Empty(s.inbox) && Empty(s.work);
    AllInOrder(s.log.gotSystem, s.log.routedSystem);
    AllInOrder(s.log.passed, s.log.routedData);
    AllInOrder(s.log.gotData, s.log.dispatched);
  }

  // ---------------------------------------------------------------- priority

  /** How many system messages the router has taken from the queue. */
  function Gone(s: State): nat {
    |s.log.routedSystem| + |InHandOf(s.router, true)|
  }

  /** System message number k, counting from the first put, waits in the queue. */
  ghost predicate Queued(s: State, k: nat) {
    Gone(s) <= k < |s.log.putSystem|
  }

  function HoldsData(s: State): nat {
    |InHandOf(s.router, false)|
  }

  /** How many steps of its own the router is away from taking system message number k. */
  function Distance(s: State, k: nat): int {
    3 * (k + 1 - Gone(s))
    + match s.router
      case Waiting => 1
      case Holding(_) => 2
      case Delivering(_) => 1
      case Signalling => 1
      case _ => 0
  }

  function RouterSteps(acts: seq<Action>): nat {
    if acts == [] then 0 else (if acts[0].Route? then 1 else 0) + RouterSteps(acts[1..])
  }

  lemma StepWhileQueued(s: State, a: Action, k: nat)
    requires Enabled(s, a) && Conserved(s) && Queued(s, k)
    ensures var s' := Step(s, a);
            Gone(s) <= Gone(s') && k < |s'.log.putSystem|
            && |s'.log.routedData| + HoldsData(s') == |s.log.routedData| + HoldsData(s)
            && Distance(s', k) <= Distance(s, k) - if a.Route? then 1 else 0
  {
    assert s.inbox.system != [];
  }

  lemma {:induction false} GoneGrows(s: State, acts: seq<Action>)
    requires Legal(s, acts)
    ensures Gone(s) <= Gone(Exec(s, acts))
    decreases |acts|
  {
    if acts != [] {
      GoneGrows(Step(s, acts[0]), acts[1..]);
    }
  }

  /** While a system message waits in the queue, over any run at all, and so however long a data handler
      runs: the router passes on at most one data message, the one it already holds; and the router, each of
      whose steps is its own to take, gets to the message within three steps for each system message up to it
      and two more. What the dispatcher delivers meanwhile was passed on before. */
  lemma {:induction false} OvertakenAtMostOnce(s: State, acts: seq<Action>, k: nat)
    requires Legal(s, acts) && Conserved(s) && Queued(s, k) && Queued(Exec(s, acts), k)
    ensures |Exec(s, acts).log.routedData| <= |s.log.routedData| + HoldsData(s) <= |s.log.routedData| + 1
    ensures RouterSteps(acts) + Distance(Exec(s, acts), k) <= Distance(s, k) <= 3 * (k + 1 - Gone(s)) + 2
    ensures |Exec(s, acts).log.routedData| + HoldsData(Exec(s, acts)) == |s.log.routedData| + HoldsData(s)
    decreases |acts|
  {
    if acts != [] {
      var a, s' := acts[0], Step(s, acts[0]);
      StepKeepsConserved(s, a);
      GoneGrows(s', acts[1..]);
      StepWhileQueued(s, a, k);
      OvertakenAtMostOnce(s', acts[1..], k);
    }
  }

  // ---------------------------------------------------------------- the queue

  /** How a get ends: with a message, canceled, or blocked until a producer signals. */
  datatype Got = Took(m: Msg) | Canceled | Blocked

  class MessageQueue {
    var system: seq<Msg>
    var data: seq<Msg>
    var notify: bool

    function View(): Queue
      reads this
    {
      Queue(system, data, notify)
    }

    constructor ()
      ensures View() == EMPTY
    {
      system, data, notify := [], [], false;
    }

    method Put(m: Msg)
      modifies this
      ensures View() == Append(old(View()), m).(token := true)
      ensures notify && system == (if m.system then old(system) + [m] else old(system))
      ensures data == if m.system then old(data) else old(data) + [m]
    {
      if m.system {
        system := system + [m];
      } else {
        data := data + [m];
      }
      notify := true;
    }

    method TryGet() returns (m: Option<Msg>)
      modifies this
      ensures if Empty(old(View())) then m == None && View() == old(View())
              else m == Some(Head(old(View()))) && View() == Rest(old(View()))
    {
      if |system| > 0 {
        m := Some(system[0]);
        system := system[1..];
        return;
      }
      if |data| > 0 {
        m := Some(data[0]);
        data := data[1..];
        return;
      }
      m := None;
    }

    /** preferDone settles the choice when the wait is canceled and signalled at once. */
    method Get(done: bool, preferDone: bool) returns (r: Got)
      modifies this
      ensures !Empty(old(View())) ==> r == Took(Head(old(View()))) && View() == Rest(old(View()))
      ensures Empty(old(View())) ==>
                r == (if done then Canceled else Blocked)
                && View() == old(View()).(token := old(notify) && done && preferDone)
    {
      while true
        invariant Empty(old(View())) || View() == old(View())
        invariant Empty(View()) == Empty(old(View())) && system == old(system) && data == old(data)
        invariant notify == old(notify) || (!(done && preferDone) && !notify)
        decreases notify
      {
        var m := TryGet();
        if m.Some? {
          return Took(m.value);
        }
        if done && (preferDone || !notify) {
          return Canceled;
        }
        if !notify {
          return Blocked;
        }
        notify := false;
      }
    }
  }

  // ---------------------------------------------------------------- the two loops, each running alone

  /** The messages of q the subscriber takes. */
  function Kept(q: seq<Msg>, accepts: Msg -> bool): seq<Msg> {
    if q == [] then [] else (if accepts(q[0]) then [q[0]] else []) + Kept(q[1..], accepts)
  }

  /** Taking the head of q, done being what the messages before it came to. */
  lemma KeptNext(done: seq<Msg>, q: seq<Msg>, accepts: Msg -> bool)
    requires q != []
    ensures done + (if accepts(q[0]) then [q[0]] else []) + Kept(q[1..], accepts) == done + Kept(q, accepts)
  {
  }

  lemma TakenFrom(q: Queue, rest: Queue, m: Msg)
    requires !Empty(q) && m == Head(q) && rest == Rest(q)
    requires (forall m :: m in q.system ==> m.system) && (forall m :: m in q.data ==> !m.system)
    ensures if m.system then q.system != [] && m == q.system[0] && rest.system == q.system[1..] && rest.data == q.data
            else q.data != [] && m == q.data[0] && rest.system == q.system && rest.data == q.data[1..]
    ensures (forall m :: m in rest.system ==> m.system) && (forall m :: m in rest.data ==> !m.system)
  {
  }

  /** The router's steps with the message in its hands, up to its next turn. */
  function Settled(s: State, taken: bool): State {
    var s' := RouteStep(s, taken, false);
    if s'.router.Polling? then s' else RouteStep(s', taken, false)
  }

  /** In the machine that appends the data message the subscriber takes and signals, as RouteOne does. */
  lemma SettledSignals(s: State, m: Msg, taken: bool)
    requires s.router == Holding(m)
    ensures var s' := Settled(s, taken); var moved := !m.system && taken;
            s'.router.Polling? && s'.inbox == s.inbox && s'.work.system == s.work.system
            && s'.work.data == s.work.data + (if moved then [m] else [])
            && s'.work.token == (s.work.token || moved)
            && s'.log.gotSystem == s.log.gotSystem + if m.system && taken then [m] else []
  {
  }

  class Subscription {
    const queue: MessageQueue
    const dataQueue: MessageQueue
    ghost var got: seq<Msg>

    ghost predicate Valid()
      reads this, queue, dataQueue
    {
      queue != dataQueue && (forall m :: m in queue.system ==> m.system) && (forall m :: m in queue.data ==> !m.system)
    }

    /** A queue that holds something has its token. */
    ghost predicate Woken()
      reads this, queue, dataQueue
    {
      (Empty(queue.View()) || queue.notify) && (Empty(dataQueue.View()) || dataQueue.notify)
    }

    /** So with both consumers blocked, each has its wake-up. */
    lemma WokenWakesUp(s: State)
      requires s.inbox == queue.View() && s.work == dataQueue.View() && s.signallers == 0 && s.router.Waiting? && s.dispatcher.Waiting?
      ensures WakeUps(s) <==> Woken()
    {
    }

    constructor ()
      ensures Valid() && fresh(queue) && fresh(dataQueue) && queue.View() == EMPTY && dataQueue.View() == EMPTY && got == []
    {
      queue := new MessageQueue();
      dataQueue := new MessageQueue();
      got := [];
    }

    method Deliver(m: Msg)
      modifies this`got
      ensures got == old(got) + [m]
    {
      got := got + [m];
    }

    /** The router until it stops or sleeps: every system message goes to the subscriber ahead of any data,
        and the data it takes moves to the second queue, each in order. */
    method Route(accepts: Msg -> bool, done: bool)
      requires Valid()
      modifies this, queue, dataQueue
      ensures Valid() && Empty(queue.View())
      ensures got == old(got) + Kept(old(queue.system), accepts)
      ensures dataQueue.data == old(dataQueue.data) + Kept(old(queue.data), accepts) && dataQueue.system == old(dataQueue.system)
      ensures dataQueue.notify == (old(dataQueue.notify) || Kept(old(queue.data), accepts) != [])
      ensures queue.notify == (old(queue.notify) && done)
      ensures old(Woken()) ==> Woken()
    {
      while true
        invariant Valid()
        invariant got + Kept(queue.system, accepts) == old(got) + Kept(old(queue.system), accepts)
        invariant dataQueue.data + Kept(queue.data, accepts) == old(dataQueue.data) + Kept(old(queue.data), accepts)
        invariant dataQueue.system == old(dataQueue.system) && queue.notify == old(queue.notify)
        invariant |dataQueue.data| >= |old(dataQueue.data)|
        invariant dataQueue.notify == (old(dataQueue.notify) || |dataQueue.data| > |old(dataQueue.data)|)
        decreases |queue.system| + |queue.data|
      {
        var went := RouteNext(accepts, done);
        if !went {
          return;
        }
      }
    }

    /** A get, and if there was a message, what becomes of it. */
    method RouteNext(accepts: Msg -> bool, done: bool) returns (went: bool)
      requires Valid()
      modifies this`got, queue, dataQueue
      ensures Valid() && dataQueue.system == old(dataQueue.system)
      ensures went == !Empty(old(queue.View()))
      ensures !went ==> queue.View() == EMPTY.(token := old(queue.notify) && done) && got == old(got) && dataQueue.View() == old(dataQueue.View())
      ensures went ==> |queue.system| + |queue.data| < |old(queue.system)| + |old(queue.data)| && queue.notify == old(queue.notify)
      ensures got + Kept(queue.system, accepts) == old(got) + Kept(old(queue.system), accepts)
      ensures dataQueue.data + Kept(queue.data, accepts) == old(dataQueue.data) + Kept(old(queue.data), accepts)
      ensures |dataQueue.data| >= |old(dataQueue.data)|
      ensures dataQueue.notify == (old(dataQueue.notify) || |dataQueue.data| > |old(dataQueue.data)|)
    {
      var r := queue.Get(done, true);
      if !r.Took? {
        return false;
      }
      TakenFrom(old(queue.View()), queue.View(), r.m);
      if r.m.system {
        KeptNext(got, old(queue.system), accepts);
      } else {
        KeptNext(dataQueue.data, old(queue.data), accepts);
      }
      RouteOne(r.m, accepts);
      return true;
    }

    /** One turn of the router's loop, with the message it took. */
    method RouteOne(m: Msg, accepts: Msg -> bool)
      modifies this`got, dataQueue
      ensures got == old(got) + if m.system && accepts(m) then [m] else []
      ensures dataQueue.data == old(dataQueue.data) + if !m.system && accepts(m) then [m] else []
      ensures dataQueue.system == old(dataQueue.system)
      ensures dataQueue.notify == (old(dataQueue.notify) || (!m.system && accepts(m)))
    {
      if !accepts(m) {
        return;
      }
      if m.system {
        Deliver(m);
        return;
      }
      dataQueue.Put(m);
    }

    /** The dispatcher until it stops or sleeps. */
    method DispatchData(accepts: Msg -> bool, done: bool)
      requires Valid() && dataQueue.system == []
      modifies this, dataQueue
      ensures Empty(dataQueue.View()) && got == old(got) + Kept(old(dataQueue.data), accepts)
      ensures dataQueue.notify == (old(dataQueue.notify) && done)
      ensures old(Woken()) ==> Woken()
    {
      while true
        invariant dataQueue.system == [] && dataQueue.notify == old(dataQueue.notify)
        invariant got + Kept(dataQueue.data, accepts) == old(got) + Kept(old(dataQueue.data), accepts)
        decreases |dataQueue.data|
      {
        var r := dataQueue.Get(done, true);
        if !r.Took? {
          return;
        }
        KeptNext(got, [r.m] + dataQueue.data, accepts);
        if !accepts(r.m) {
          continue;
        }
        Deliver(r.m);
      }
    }
  }

  // ---------------------------------------------------------------- the bus

  class Bus {
    var subscriptions: map<string, Subscription>

    ghost function Queues(): set<MessageQueue>
      reads this
    {
      set name | name in subscriptions :: subscriptions[name].queue
    }

    ghost predicate Valid()
      reads this
    {
      forall a, b :: a in subscriptions && b in subscriptions && a != b ==> subscriptions[a].queue != subscriptions[b].queue
    }

    constructor ()
      ensures Valid() && subscriptions == map[]
    {
      subscriptions := map[];
    }

    /** Subscribing twice under one name changes nothing. */
    method Subscribe(name: string)
      requires Valid()
      modifies this
      ensures Valid() && subscriptions.Keys == old(subscriptions.Keys) + {name}
      ensures forall other :: other in old(subscriptions) ==> subscriptions[other] == old(subscriptions[other])
      ensures name !in old(subscriptions) ==> fresh(subscriptions[name].queue) && Empty(subscriptions[name].queue.View())
    {
      if name in subscriptions {
        return;
      }
      var sub := new Subscription();
      subscriptions := subscriptions[name := sub];
    }

    method Unsubscribe(name: string)
      requires Valid()
      modifies this
      ensures Valid() && subscriptions == old(subscriptions) - {name}
    {
      subscriptions := subscriptions - {name};
    }

    /** Every subscriber's queue gets the message, once. */
    method OnMessageReceived(m: Msg)
      requires Valid()
      modifies Queues()
      ensures subscriptions == old(subscriptions)
      ensures forall name :: name in subscriptions ==>
                subscriptions[name].queue.View() == Append(old(subscriptions[name].queue.View()), m).(token := true)
    {
      var left := subscriptions.Keys;
      while left != {}
        invariant left <= subscriptions.Keys
        invariant forall name :: name in subscriptions ==>
                    subscriptions[name].queue.View() ==
                    if name in left then old(subscriptions[name].queue.View())
                    else Append(old(subscriptions[name].queue.View()), m).(token := true)
        decreases |left|
      {
        var name :| name in left;
        subscriptions[name].queue.Put(m);
        left := left - {name};
      }
    }
  }
}
