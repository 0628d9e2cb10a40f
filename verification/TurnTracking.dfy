/**
 Turn tracking (observers/turntracking.go): frames and turn-end timers drive one state under a mutex. A timer
 that was stopped as it expired may still run its callback, so any timer ever armed may fire once, at any
 later moment.
 */
module TurnTracking {
  import opened Wrappers

  datatype Frame = Start | UserStartedSpeaking | BotStartedSpeaking | BotStoppedSpeaking | EndOrCancel | Other

  /** What the listeners hear, with when a turn started, the moment it was measured to, and whether it was a
      timer that ended it. */
  datatype Event =
    | Started(turn: nat, at: int)
    | Ended(turn: nat, duration: int, interrupted: bool, from: int, upTo: int, timedOut: bool)

  /** What a timer's callback closes over: the turn it was armed in, and when the bot fell silent. */
  datatype Timer = Timer(turn: nat, at: int)

  /** The fields, with the timers ever armed, those that have fired, what was heard, the moments the bot fell
      silent in a turn, and the pipeline clock. */
  datatype State = State(active: bool, botTalk: bool, botSpoke: bool, count: nat, start: int, timer: Option<nat>,
                         timers: seq<Timer>, fired: set<nat>, events: seq<Event>,
                         silences: seq<Timer>, now: int)

  function StartTurn(s: State, at: int): State {
    s.(active := true, botSpoke := false, count := s.count + 1, start := at, events := s.events + [Started(s.count + 1, at)])
  }

  function EndTurn(s: State, at: int, interrupted: bool, timedOut: bool): State {
    if !s.active then s
    else s.(active := false, events := s.events + [Ended(s.count, at - s.start, interrupted, s.start, at, timedOut)])
  }

  function CancelTimer(s: State): State {
    s.(timer := None)
  }

  function UserStarted(s: State, at: int): State {
    if s.botTalk then StartTurn(EndTurn(CancelTimer(s), at, true, false).(botTalk := false), at)
    else if s.active && s.botSpoke then StartTurn(EndTurn(CancelTimer(s), at, false, false), at)
    else if !s.active then StartTurn(s, at)
    else s
  }

  function ScheduleEnd(s: State, at: int): State {
    s.(timer := Some(|s.timers|), timers := s.timers + [Timer(s.count, at)],
       silences := s.silences + if s.active then [Timer(s.count, at)] else [])
  }

  function Pushed(s: State, f: Frame, at: int): State {
    match f
    case Start => if s.count == 0 then StartTurn(s, at) else s
    case UserStartedSpeaking => UserStarted(s, at)
    case BotStartedSpeaking => CancelTimer(s).(botTalk := true, botSpoke := true)
    case BotStoppedSpeaking => if s.botTalk then ScheduleEnd(s.(botTalk := false), at) else s
    case EndOrCancel => EndTurn(CancelTimer(s), at, true, false)
    case Other => s
  }

  /** A firing counts when its turn is still going and the bot is silent. */
  predicate Counts(s: State, i: nat)
    requires i < |s.timers|
  {
    s.active && !s.botTalk && s.count == s.timers[i].turn
  }

  function Fired(s: State, i: nat): State
    requires i < |s.timers|
  {
    if Counts(s, i) then EndTurn(s, s.timers[i].at, false, true).(timer := None) else s
  }

  // ---------------------------------------------------------------- runs

  datatype Action = Push(f: Frame, at: int) | Fire(i: nat) | Cleanup

  const INIT := State(false, false, false, 0, 0, None, [], {}, [], [], 0)

  /** The pipeline clock does not run backwards, and a timer fires once. */
  predicate Enabled(s: State, a: Action) {
    match a
    case Push(_, at) => s.now <= at
    case Fire(i) => i < |s.timers| && i !in s.fired
    case Cleanup => true
  }

  function Step(s: State, a: Action): State
    requires Enabled(s, a)
  {
    match a
    case Push(f, at) => Pushed(s, f, at).(now := at)
    case Fire(i) => Fired(s, i).(fired := s.fired + {i})
    case Cleanup => CancelTimer(s)
  }

  ghost predicate Legal(s: State, acts: seq<Action>)
    decreases |acts|
  {
    acts == [] || (Enabled(s, acts[0]) && Legal(Step(s, acts[0]), acts[1..]))
  }

  ghost function Exec(s: State, acts: seq<Action>): State
    requires Legal(s, acts)
    decreases |acts|
  {
    if acts == [] then s else Exec(Step(s, acts[0]), acts[1..])
  }

  /** What the listeners hear: a turn starts with the first StartFrame, and when the user speaks outside a turn
      or in one the bot has spoken in, which ends then, interrupted if the bot was speaking; a turn ends,
      interrupted, with the pipeline, and when a timer that counts fires. Nothing else starts or ends one. */
  lemma StepIsHeard(s: State, a: Action)
    requires Enabled(s, a)
    ensures Step(s, a).events == s.events + match a
                                            case Push(Start, at) => if s.count == 0 then [Started(1, at)] else []
                                            case Push(UserStartedSpeaking, at) =>
                                              if s.active && !s.botTalk && !s.botSpoke then []
                                              else (if s.active then [Ended(s.count, at - s.start, s.botTalk, s.start, at, false)] else [])
                                                   + [Started(s.count + 1, at)]
                                            case Push(EndOrCancel, at) =>
                                              if s.active then [Ended(s.count, at - s.start, true, s.start, at, false)] else []
                                            case Fire(i) =>
                                              if Counts(s, i)
                                              then [Ended(s.count, s.timers[i].at - s.start, false, s.start, s.timers[i].at, true)] else []
                                            case _ => []
  {
  }

  /** The bot speaks from the frame that says it started to the one that says it stopped or the user who breaks
      in; it has spoken in a turn from its first word to the next turn; falling silent arms a timer, and only the
      bot starting, the user breaking in, the pipeline's end or a cleanup disarms it. */
  lemma StepMovesFlags(s: State, a: Action)
    requires Enabled(s, a)
    ensures Step(s, a).botTalk == if a.Push? && a.f.BotStartedSpeaking? then true
                                  else if a.Push? && (a.f.BotStoppedSpeaking? || a.f.UserStartedSpeaking?) then false else s.botTalk
    ensures Step(s, a).botSpoke == if a.Push? && a.f.BotStartedSpeaking? then true
                                   else if Step(s, a).count > s.count then false else s.botSpoke
    ensures a.Push? && a.f.BotStoppedSpeaking? && s.botTalk ==>
              Step(s, a).timers == s.timers + [Timer(s.count, a.at)] && Step(s, a).timer == Some(|s.timers|)
    ensures a.Push? && (a.f.BotStartedSpeaking? || a.f.EndOrCancel?) ==> Step(s, a).timer == None
    ensures a.Push? && a.f.UserStartedSpeaking? && (s.botTalk || (s.active && s.botSpoke)) ==> Step(s, a).timer == None
  {
  }

  // ---------------------------------------------------------------- what every run keeps

  /** started 1, ended 1, started 2, ended 2, and so on, no number skipped; the last one is still to end while
      a turn is going. */
  ghost predicate Alternate(s: State) {
    |s.events| == 2 * s.count - (if s.active then 1 else 0)
    && forall k: nat :: k < |s.events| ==> InTurn(s.events, k)
  }

  ghost predicate InTurn(events: seq<Event>, k: nat)
    requires k < |events|
  {
    if k % 2 == 0 then events[k].Started? && events[k].turn == k / 2 + 1
    else events[k].Ended? && events[k].turn == k / 2 + 1
  }

  /** An ended turn lasted from its start to the moment it was measured to, and not less than no time; one a
      timer ended was measured to a moment the bot fell silent in it. */
  ghost predicate Measured(s: State) {
    forall k: nat :: k < |s.events| && s.events[k].Ended? ==> MeasuredAt(s.events, k) && FallsSilent(s, s.events[k])
  }

  ghost predicate MeasuredAt(events: seq<Event>, k: nat)
    requires k < |events| && events[k].Ended?
  {
    var e := events[k];
    k > 0 && events[k - 1] == Started(e.turn, e.from) && e.duration == e.upTo - e.from && e.duration >= 0
  }

  ghost predicate FallsSilent(s: State, e: Event)
    requires e.Ended?
  {
    e.timedOut ==> Timer(e.turn, e.upTo) in s.silences
  }

  /** Timers come in order, and those of the turn going on hold moments of silence in it, the last one the
      latest. */
  ghost predicate Timed(s: State) {
    (forall i :: 0 <= i < |s.timers| ==> s.timers[i].turn <= s.count && s.timers[i].at <= s.now)
    && (forall i :: 0 <= i < |s.timers| && s.timers[i].turn == s.count ==> s.start <= s.timers[i].at)
    && (forall i, j :: 0 <= i < j < |s.timers| ==> s.timers[i].at <= s.timers[j].at && s.timers[i].turn <= s.timers[j].turn)
    && (forall i :: 0 <= i < |s.timers| && s.active && s.timers[i].turn == s.count ==> s.timers[i] in s.silences)
    && (s.active && s.timers != [] && s.timers[|s.timers| - 1].turn == s.count ==>
          s.silences != [] && s.silences[|s.silences| - 1] == s.timers[|s.timers| - 1])
  }

  ghost predicate Going(s: State) {
    (s.count == 0 ==> !s.active) && s.start <= s.now
    && (s.active ==> s.events != [] && s.events[|s.events| - 1] == Started(s.count, s.start))
  }

  ghost predicate Inv(s: State) {
    Alternate(s) && Measured(s) && Timed(s) && Going(s)
  }

  lemma StartKeeps(s: State, at: int)
    requires Inv(s) && !s.active && s.now <= at
    ensures Inv(StartTurn(s, at).(now := at))
  {
    var s' := StartTurn(s, at).(now := at);
    forall k: nat | k < |s'.events| ensures InTurn(s'.events, k) && (s'.events[k].Ended? ==> MeasuredAt(s'.events, k)) {
      if k < |s.events| {
        assert InTurn(s.events, k) && (s.events[k].Ended? ==> MeasuredAt(s.events, k));
      }
    }
  }

  lemma EndKeeps(s: State, at: int, interrupted: bool, timedOut: bool)
    requires Inv(s) && s.start <= at && (timedOut && s.active ==> Timer(s.count, at) in s.silences)
    ensures Inv(EndTurn(s, at, interrupted, timedOut))
  {
    var s' := EndTurn(s, at, interrupted, timedOut);
    if s.active {
      forall k: nat | k < |s'.events| ensures InTurn(s'.events, k) && (s'.events[k].Ended? ==> MeasuredAt(s'.events, k)) {
        if k < |s.events| {
          assert InTurn(s.events, k) && (s.events[k].Ended? ==> MeasuredAt(s.events, k));
        }
      }
    }
  }

  /** Later, and with other flags that the history does not depend on. */
  lemma LaterKeeps(s: State, s': State)
    requires Inv(s) && s.now <= s'.now
    requires s' == s.(now := s'.now, timer := s'.timer, botTalk := s'.botTalk, botSpoke := s'.botSpoke, fired := s'.fired)
    ensures Inv(s')
  {
  }

  lemma EndThenStartKeeps(s: State, at: int, interrupted: bool, botTalk: bool)
    requires Inv(s) && s.now == at
    ensures Inv(StartTurn(EndTurn(s, at, interrupted, false).(botTalk := botTalk), at))
  {
    EndKeeps(s, at, interrupted, false);
    var ended := EndTurn(s, at, interrupted, false);
    LaterKeeps(ended, ended.(botTalk := botTalk));
    StartKeeps(ended.(botTalk := botTalk), at);
    assert StartTurn(ended.(botTalk := botTalk), at).(now := at) == StartTurn(ended.(botTalk := botTalk), at);
  }

  lemma UserKeeps(s: State, at: int)
    requires Inv(s) && s.now <= at
    ensures Inv(UserStarted(s, at).(now := at))
  {
    if s.botTalk || (s.active && s.botSpoke) {
      var canceled := CancelTimer(s).(now := at);
      LaterKeeps(s, canceled);
      EndThenStartKeeps(canceled, at, s.botTalk, false);
      assert UserStarted(s, at).(now := at) == StartTurn(EndTurn(canceled, at, s.botTalk, false).(botTalk := false), at);
    } else if !s.active {
      StartKeeps(s, at);
    } else {
      LaterKeeps(s, s.(now := at));
    }
  }

  lemma SilenceKeeps(s: State, at: int)
    requires Inv(s) && s.now == at
    ensures Inv(ScheduleEnd(s, at))
  {
    var s' := ScheduleEnd(s, at);
    assert forall x :: x in s.silences ==> x in s'.silences;
    assert s.active ==> s'.silences[|s'.silences| - 1] == Timer(s.count, at);
    forall k: nat | k < |s'.events|
      ensures InTurn(s'.events, k)
              && (s'.events[k].Ended? ==> MeasuredAt(s'.events, k) && FallsSilent(s', s'.events[k])) {
      assert InTurn(s.events, k) && (s.events[k].Ended? ==> MeasuredAt(s.events, k) && FallsSilent(s, s.events[k]));
    }
  }

  lemma PushKeeps(s: State, f: Frame, at: int)
    requires Inv(s) && s.now <= at
    ensures Inv(Pushed(s, f, at).(now := at))
  {
    LaterKeeps(s, s.(now := at));
    match f
    case Start =>
      if s.count == 0 {
        StartKeeps(s, at);
      }
    case UserStartedSpeaking => UserKeeps(s, at);
    case BotStartedSpeaking => LaterKeeps(s, Pushed(s, f, at).(now := at));
    case BotStoppedSpeaking =>
      if s.botTalk {
        var quiet := s.(botTalk := false, now := at);
        LaterKeeps(s, quiet);
        SilenceKeeps(quiet, at);
        assert ScheduleEnd(quiet, at) == Pushed(s, f, at).(now := at);
      }
    case EndOrCancel =>
      LaterKeeps(s, CancelTimer(s).(now := at));
      EndKeeps(CancelTimer(s).(now := at), at, true, false);
    case Other =>
  }

  lemma FireKeeps(s: State, i: nat)
    requires Inv(s) && Enabled(s, Fire(i))
    ensures Inv(Step(s, Fire(i)))
  {
    var ended := if Counts(s, i) then EndTurn(s, s.timers[i].at, false, true) else s;
    if Counts(s, i) {
      assert s.timers[i] == Timer(s.count, s.timers[i].at);
      EndKeeps(s, s.timers[i].at, false, true);
    }
    LaterKeeps(ended, Step(s, Fire(i)));
  }

  lemma StepKeepsInv(s: State, a: Action)
    requires Inv(s) && Enabled(s, a)
    ensures Inv(Step(s, a))
  {
    match a
    case Push(f, at) => PushKeeps(s, f, at);
    case Fire(i) => FireKeeps(s, i);
    case Cleanup => LaterKeeps(s, Step(s, a));
  }

  lemma {:induction false} RunKeepsInv(s: State, acts: seq<Action>)
    requires Inv(s) && Legal(s, acts)
    ensures Inv(Exec(s, acts))
    decreases |acts|
  {
    if acts != [] {
      StepKeepsInv(s, acts[0]);
      RunKeepsInv(Step(s, acts[0]), acts[1..]);
    }
  }

  /** In every run, stopped timers firing late included: turn events alternate, no number is skipped, no turn
      lasts less than no time, and one a timer ended is measured to a moment the bot fell silent in it. */
  lemma TurnsAlternate(acts: seq<Action>)
    requires Legal(INIT, acts)
    ensures Alternate(Exec(INIT, acts)) && Measured(Exec(INIT, acts))
  {
    RunKeepsInv(INIT, acts);
  }

  // ---------------------------------------------------------------- which silence

  /** No two frames carry the same timestamp. */
  ghost predicate Strict(s: State, acts: seq<Action>)
    requires Legal(s, acts)
    decreases |acts|
  {
    acts == [] || ((acts[0].Push? ==> s.now < acts[0].at) && Strict(Step(s, acts[0]), acts[1..]))
  }

  ghost predicate DistinctTimers(s: State) {
    (forall i :: 0 <= i < |s.timers| ==> s.timers[i].at <= s.now)
    && forall i, j :: 0 <= i < j < |s.timers| ==> s.timers[i].at < s.timers[j].at
  }

  lemma {:induction false} StrictKeepsDistinct(s: State, acts: seq<Action>)
    requires Legal(s, acts) && Strict(s, acts) && DistinctTimers(s)
    ensures DistinctTimers(Exec(s, acts))
    decreases |acts|
  {
    if acts != [] {
      StrictKeepsDistinct(Step(s, acts[0]), acts[1..]);
    }
  }

  /** A timer that ends the turn ends it no later than its latest silence, and as of that one if and only if it
      is the timer armed last: an earlier one of the same turn, stopped too late, ends it short. */
  lemma EndsAtLatestSilenceIff(acts: seq<Action>, i: nat)
    requires Legal(INIT, acts) && Strict(INIT, acts)
    requires Enabled(Exec(INIT, acts), Fire(i)) && Counts(Exec(INIT, acts), i)
    ensures var s, s' := Exec(INIT, acts), Step(Exec(INIT, acts), Fire(i));
            s.silences != [] && s.silences[|s.silences| - 1].turn == s.count
            && s'.events == s.events + [Ended(s.count, s.timers[i].at - s.start, false, s.start, s.timers[i].at, true)]
            && s.timers[i].at <= s.silences[|s.silences| - 1].at
            && (s.timers[i].at == s.silences[|s.silences| - 1].at <==> i == |s.timers| - 1)
  {
    RunKeepsInv(INIT, acts);
    StrictKeepsDistinct(INIT, acts);
    var s := Exec(INIT, acts);
    var last := |s.timers| - 1;
    assert s.timers[i].turn <= s.timers[last].turn;
  }

  /** Such a run: the bot pauses at 2, speaks again from 3 to 4, and the timer of the first pause still ends
      the turn, at 2. */
  lemma StaleTimerEndsShort()
    ensures var acts := [Push(Start, 0), Push(BotStartedSpeaking, 1), Push(BotStoppedSpeaking, 2), Push(BotStartedSpeaking, 3),
                         Push(BotStoppedSpeaking, 4), Fire(0)];
            Legal(INIT, acts)
            && Exec(INIT, acts).events == [Started(1, 0), Ended(1, 2, false, 0, 2, true)]
            && Exec(INIT, acts).silences == [Timer(1, 2), Timer(1, 4)]
  {
    var s1 := Step(INIT, Push(Start, 0));
    var s2 := Step(s1, Push(BotStartedSpeaking, 1));
    var s3 := Step(s2, Push(BotStoppedSpeaking, 2));
    var s4 := Step(s3, Push(BotStartedSpeaking, 3));
    var s5 := Step(s4, Push(BotStoppedSpeaking, 4));
    var s6 := Step(s5, Fire(0));
    var a5 := [Fire(0)];
    var a4 := [Push(BotStoppedSpeaking, 4)] + a5;
    var a3 := [Push(BotStartedSpeaking, 3)] + a4;
    var a2 := [Push(BotStoppedSpeaking, 2)] + a3;
    var a1 := [Push(BotStartedSpeaking, 1)] + a2;
    var acts := [Push(Start, 0)] + a1;
    assert acts == [Push(Start, 0), Push(BotStartedSpeaking, 1), Push(BotStoppedSpeaking, 2), Push(BotStartedSpeaking, 3),
                    Push(BotStoppedSpeaking, 4), Fire(0)];
    assert a5[1..] == [] && a4[1..] == a5 && a3[1..] == a4 && a2[1..] == a3 && a1[1..] == a2 && acts[1..] == a1;
    assert Legal(s6, []) && Legal(s5, a5) && Legal(s4, a4) && Legal(s3, a3) && Legal(s2, a2) && Legal(s1, a1);
    assert Exec(s6, []) == s6 && Exec(s5, a5) == s6 && Exec(s4, a4) == s6 && Exec(s3, a3) == s6 && Exec(s2, a2) == s6;
    assert Exec(s1, a1) == s6;
    assert s6.events == [Started(1, 0), Ended(1, 2, false, 0, 2, true)];
  }

  // ---------------------------------------------------------------- the observer

  class TurnTracker {
    var active: bool
    var botTalk: bool
    var botSpoke: bool
    var count: nat
    var start: int
    var timer: Option<nat>
    ghost var timers: seq<Timer>
    var armed: nat
    ghost var fired: set<nat>
    ghost var events: seq<Event>
    ghost var silences: seq<Timer>
    ghost var now: int

    ghost function View(): State
      reads this
    {
      State(active, botTalk, botSpoke, count, start, timer, timers, fired, events, silences, now)
    }

    ghost predicate Valid()
      reads this
    {
      Inv(View()) && armed == |timers|
    }

    constructor ()
      ensures Valid() && View() == INIT
    {
      active, botTalk, botSpoke, count, start, timer := false, false, false, 0, 0, None;
      timers, armed, fired, events, silences, now := [], 0, {}, [], [], 0;
    }

    method DoStartTurn(at: int)
      modifies this
      ensures View() == StartTurn(old(View()), at) && armed == old(armed)
    {
      active := true;
      botSpoke := false;
      count := count + 1;
      start := at;
      events := events + [Started(count, at)];
    }

    method DoEndTurn(at: int, interrupted: bool, ghost timedOut: bool)
      modifies this
      ensures View() == EndTurn(old(View()), at, interrupted, timedOut) && armed == old(armed)
    {
      if !active {
        return;
      }
      var d := at - start;
      active := false;
      events := events + [Ended(count, d, interrupted, start, at, timedOut)];
    }

    method DoCancelTimer()
      modifies this
      ensures View() == CancelTimer(old(View())) && armed == old(armed)
    {
      if timer.Some? {
        timer := None;
      }
    }

    method DoUserStarted(at: int)
      modifies this
      ensures View() == UserStarted(old(View()), at) && armed == old(armed)
    {
      if botTalk {
        DoCancelTimer();
        DoEndTurn(at, true, false);
        botTalk := false;
        DoStartTurn(at);
      } else if active && botSpoke {
        DoCancelTimer();
        DoEndTurn(at, false, false);
        DoStartTurn(at);
      } else if !active {
        DoStartTurn(at);
      }
    }

    method DoScheduleEnd(at: int)
      requires armed == |timers|
      modifies this
      ensures View() == ScheduleEnd(old(View()), at) && armed == |timers|
    {
      DoCancelTimer();
      timer := Some(armed);
      armed := armed + 1;
      timers := timers + [Timer(count, at)];
      silences := silences + if active then [Timer(count, at)] else [];
    }

    method OnPushFrame(f: Frame, at: int)
      requires Valid() && now <= at
      modifies this
      ensures Valid() && View() == Step(old(View()), Push(f, at))
    {
      PushKeeps(View(), f, at);
      match f {
        case Start =>
          if count == 0 {
            DoStartTurn(at);
          }
        case UserStartedSpeaking => DoUserStarted(at);
        case BotStartedSpeaking =>
          botTalk := true;
          botSpoke := true;
          DoCancelTimer();
        case BotStoppedSpeaking =>
          if botTalk {
            botTalk := false;
            DoScheduleEnd(at);
          }
        case EndOrCancel =>
          DoCancelTimer();
          if active {
            DoEndTurn(at, true, false);
          }
        case Other =>
      }
      now := at;
    }

    /** The callback of timer i, which closes over t. */
    method OnTimer(ghost i: nat, t: Timer)
      requires Valid() && Enabled(View(), Fire(i)) && timers[i] == t
      modifies this
      ensures Valid() && View() == Step(old(View()), Fire(i))
    {
      FireKeeps(View(), i);
      if active && !botTalk && count == t.turn {
        DoEndTurn(t.at, false, true);
        timer := None;
      }
      fired := fired + {i};
    }

    method DoCleanup()
      requires Valid()
      modifies this
      ensures Valid() && View() == Step(old(View()), Cleanup)
    {
      LaterKeeps(View(), CancelTimer(View()));
      DoCancelTimer();
    }
  }
}
