/**
 Flow actions (flows/actions.go): a list of actions is run in order, some taking effect at once and some
 through frames queued into the pipeline, where speech takes effect at the TTS service and the rest at the
 end. The executor waits for what is outstanding only where the frames' order would not be enough. The
 machine interleaves its steps with those of the pipeline.
 */
module Actions {
  import opened Wrappers

  /** The action types: the three built in, those an application registers, and a missing one. */
  datatype Kind = Say | EndConversation | Function | Named(name: nat) | NoKind

  datatype Config = Config(kind: Kind, id: nat, text: bool, handler: bool)

  /** The custom types registered, and the custom actions whose handler fails. The built-in types keep
      their handlers. */
  datatype Env = Env(registered: set<nat>, failing: set<nat>)

  datatype Effect = Said(id: nat) | Began(id: nat) | Completed(id: nat) | Ended(id: nat) | Did(id: nat)

  /** Running stands for a function whose frame reached the end and whose handler has not returned. */
  datatype Frame = Speak(id: nat) | Finished | Call(id: nat) | Running(id: nat) | End(id: nat)

  predicate Registered(env: Env, k: Kind) {
    match k
    case Named(name) => name in env.registered
    case NoKind => false
    case _ => true
  }

  /** waitForOngoing's decision; None is the end of the list, or before its start. */
  predicate NeedsWait(previous: Option<Kind>, upcoming: Option<Kind>) {
    match previous
    case Some(Say) => !(upcoming == Some(Say) || upcoming == Some(EndConversation) || upcoming == Some(Function))
    case Some(Function) => true
    case _ => false
  }

  /** What a built-in handler queues; a counted start goes with it when it queues anything. */
  function FramesOf(a: Config): seq<Frame> {
    match a.kind
    case Say => if a.text then [Speak(a.id), Finished] else []
    case EndConversation => (if a.text then [Speak(a.id)] else []) + [End(a.id)]
    case Function => if a.handler then [Call(a.id)] else []
    case _ => []
  }

  /** What an action is to bring about. */
  function EffectsOf(a: Config): seq<Effect> {
    match a.kind
    case Say => if a.text then [Said(a.id)] else []
    case EndConversation => (if a.text then [Said(a.id)] else []) + [Ended(a.id)]
    case Function => if a.handler then [Began(a.id), Completed(a.id)] else []
    case Named(_) => [Did(a.id)]
    case NoKind => []
  }

  /** What the first n actions are to bring about, in list order. */
  function Upto(list: seq<Config>, n: nat): seq<Effect>
    requires n <= |list|
  {
    if n == 0 then [] else Upto(list, n - 1) + EffectsOf(list[n - 1])
  }

  /** How much of a list there is to run: nothing after the end of the conversation. */
  function Reach(list: seq<Config>): (n: nat)
    ensures n <= |list|
  {
    if list == [] then 0 else if list[0].kind == EndConversation then 1 else 1 + Reach(list[1..])
  }

  /** An action the list can go past. */
  predicate Good(env: Env, a: Config) {
    Registered(env, a.kind) && !(a.kind.Named? && a.id in env.failing)
  }

  // ---------------------------------------------------------------- the machine

  datatype Pc = Checking | Waiting | Handling | Queueing | LastWait | Returned | Failed

  /** next is the action to run, or the number handed to their handlers. flight holds the frames of its own,
      nearest the end first: the first past of them are behind the TTS service, those up to queued ahead of it,
      and the running handler is still to queue the rest. ended says the EndFrame has come through. */
  datatype State = State(next: nat, previous: Option<Kind>, pc: Pc, ongoing: nat, flight: seq<Frame>, past: nat, queued: nat,
                         running: seq<Frame>, ended: bool, effects: seq<Effect>)

  datatype Step = Execute | Synthesize | ReachEnd | HandlerReturns

  function Init(list: seq<Config>): State {
    State(0, None, if list == [] then Returned else Checking, 0, [], 0, 0, [], false, [])
  }

  ghost predicate Enabled(s: State, list: seq<Config>, step: Step) {
    match step
    case Synthesize => s.past < s.queued <= |s.flight|
    case ReachEnd => 0 < s.past <= s.queued <= |s.flight|
    case HandlerReturns => s.running != []
    case Execute =>
      (match s.pc
       case Returned => false
       case Failed => false
       case Waiting => s.ongoing == 0
       case LastWait => NeedsWait(s.previous, None) ==> s.ongoing == 0
       case Queueing => s.queued <= |s.flight|
       case _ => s.next < |list|)
  }

  function Finish(ongoing: nat): nat {
    if ongoing > 0 then ongoing - 1 else 0
  }

  ghost function Take(s: State, list: seq<Config>, env: Env, step: Step): State
    requires Enabled(s, list, step)
  {
    match step
    case Synthesize =>
      var f := s.flight[s.past];
      if f.Speak? then
        s.(flight := s.flight[..s.past] + s.flight[s.past + 1..], queued := s.queued - 1, effects := s.effects + [Said(f.id)])
      else s.(past := s.past + 1)
    case ReachEnd =>
      var s' := s.(flight := s.flight[1..], past := s.past - 1, queued := s.queued - 1);
      (match s.flight[0]
       case Finished => s'.(ongoing := Finish(s.ongoing))
       case Call(id) => s'.(running := s.running + [Running(id)], effects := s.effects + [Began(id)])
       case End(id) => s'.(ended := true, effects := s.effects + [Ended(id)])
       case _ => s')
    case HandlerReturns =>
      s.(running := s.running[1..], ongoing := Finish(s.ongoing),
         effects := s.effects + if s.running[0].Running? then [Completed(s.running[0].id)] else [])
    case Execute => Execution(s, list, env)
  }

  ghost function Execution(s: State, list: seq<Config>, env: Env): State
    requires Enabled(s, list, Execute)
  {
    match s.pc
    case Checking =>
      var k := list[s.next].kind;
      s.(pc := if !Registered(env, k) then Failed else if NeedsWait(s.previous, Some(k)) then Waiting else Handling)
    case Waiting => s.(pc := Handling)
    case Handling =>
      var a := list[s.next];
      var s' := s.(next := s.next + 1, previous := Some(a.kind));
      if a.kind.Named? then
        if a.id in env.failing then s.(pc := Failed) else s'.(pc := Queueing, effects := s.effects + [Did(a.id)])
      else s'.(pc := Queueing, flight := s.flight + FramesOf(a), ongoing := s.ongoing + if FramesOf(a) == [] then 0 else 1)
    case Queueing =>
      if s.queued < |s.flight| then s.(queued := s.queued + 1)
      else s.(pc := if s.previous == Some(EndConversation) || s.next >= |list| then LastWait else Checking)
    case LastWait => s.(pc := Returned)
    case _ => s
  }

  ghost predicate Legal(s: State, list: seq<Config>, env: Env, steps: seq<Step>)
    decreases |steps|
  {
    steps == [] || (Enabled(s, list, steps[0]) && Legal(Take(s, list, env, steps[0]), list, env, steps[1..]))
  }

  ghost function Exec(s: State, list: seq<Config>, env: Env, steps: seq<Step>): State
    requires Legal(s, list, env, steps)
    decreases |steps|
  {
    if steps == [] then s else Exec(Take(s, list, env, steps[0]), list, env, steps[1..])
  }

  /** Where the frames' order is enough, nothing is waited for: speech, and a function or the end behind speech,
      are queued however much is outstanding; a wait is for a custom action behind speech, for anything behind a
      function, and for speech or a function at the end of the list. */
  lemma WaitsWhereOrderIsNotEnough(s: State, list: seq<Config>, env: Env)
    requires Enabled(s, list, Execute) && s.pc.Checking? && Registered(env, list[s.next].kind)
    ensures Execution(s, list, env).pc == Waiting <==>
              (s.previous == Some(Say) && list[s.next].kind.Named?) || s.previous == Some(Function)
    ensures Execution(s, list, env).pc != Waiting ==> Execution(s, list, env) == s.(pc := Handling)
  {
  }

  /** The last wait is for speech or a function. */
  lemma LastWaitIsFor(s: State, list: seq<Config>)
    requires s.pc.LastWait?
    ensures Enabled(s, list, Execute) <==> s.ongoing == 0 || !(s.previous == Some(Say) || s.previous == Some(Function))
  {
  }

  // ---------------------------------------------------------------- what is in flight

  /** Everything in flight, nearest the end first. */
  function InFlight(s: State): seq<Frame> {
    s.running + s.flight
  }

  function EffectOf(f: Frame): seq<Effect> {
    match f
    case Speak(id) => [Said(id)]
    case Call(id) => [Began(id), Completed(id)]
    case Running(id) => [Completed(id)]
    case End(id) => [Ended(id)]
    case Finished => []
  }

  function Pending(q: seq<Frame>): seq<Effect> {
    if q == [] then [] else EffectOf(q[0]) + Pending(q[1..])
  }

  /** The frames that keep a started action counted. */
  function Counted(q: seq<Frame>): nat {
    if q == [] then 0 else (if q[0].Speak? then 0 else 1) + Counted(q[1..])
  }

  /** Only speech and the marks behind it: all of it takes effect at the TTS service. */
  predicate Light(q: seq<Frame>) {
    q == [] || ((q[0].Speak? || q[0].Finished?) && Light(q[1..]))
  }

  /** Anything that takes effect at the end of the pipeline has nothing behind it, and speech something. */
  predicate HeavyLast(q: seq<Frame>) {
    q == [] || (if |q| == 1 then !q[0].Speak? else (q[0].Speak? || q[0].Finished?) && HeavyLast(q[1..]))
  }

  lemma {:induction false} PendingConcat(p: seq<Frame>, q: seq<Frame>)
    ensures Pending(p + q) == Pending(p) + Pending(q)
  {
    if p == [] {
      assert p + q == q;
    } else {
      assert (p + q)[1..] == p[1..] + q;
      PendingConcat(p[1..], q);
    }
  }

  lemma {:induction false} CountedConcat(p: seq<Frame>, q: seq<Frame>)
    ensures Counted(p + q) == Counted(p) + Counted(q)
  {
    if p == [] {
      assert p + q == q;
    } else {
      assert (p + q)[1..] == p[1..] + q;
      CountedConcat(p[1..], q);
    }
  }

  lemma {:induction false} NoSpeechNoPending(q: seq<Frame>)
    requires Light(q) && forall i :: 0 <= i < |q| ==> !q[i].Speak?
    ensures Pending(q) == []
  {
    if q != [] {
      NoSpeechNoPending(q[1..]);
    }
  }

  lemma {:induction false} NothingCountedNothingLeft(q: seq<Frame>)
    requires HeavyLast(q) && Counted(q) == 0
    ensures q == []
  {
    if |q| > 1 {
      NothingCountedNothingLeft(q[1..]);
    }
  }

  lemma Alone(f: Frame)
    ensures Pending([f]) == EffectOf(f) && Counted([f]) == if f.Speak? then 0 else 1
  {
    assert [f][1..] == [];
    assert EffectOf(f) + [] == EffectOf(f);
  }

  lemma Pair(f: Frame, g: Frame)
    ensures Pending([f, g]) == EffectOf(f) + EffectOf(g)
    ensures Counted([f, g]) == (if f.Speak? then 0 else 1) + if g.Speak? then 0 else 1
  {
    assert [f, g][1..] == [g];
    Alone(g);
  }

  lemma FramesHaveEffects(a: Config)
    requires !a.kind.Named?
    ensures Pending(FramesOf(a)) == EffectsOf(a) && HeavyLast(FramesOf(a))
    ensures Counted(FramesOf(a)) == if FramesOf(a) == [] then 0 else 1
    ensures a.kind == Say ==> Light(FramesOf(a))
  {
    assert [Speak(a.id), Finished][1..] == [Finished] && [Speak(a.id), End(a.id)][1..] == [End(a.id)] && [Finished][1..] == [];
    Pair(Speak(a.id), Finished);
    Pair(Speak(a.id), End(a.id));
    Alone(End(a.id));
    Alone(Call(a.id));
    assert [Speak(a.id)] + [End(a.id)] == [Speak(a.id), End(a.id)] && [] + [End(a.id)] == [End(a.id)];
  }

  // ---------------------------------------------------------------- the invariant

  /** What has taken effect and what is in flight make up goal, and what is in flight keeps the count up. */
  ghost predicate Tracks(effects: seq<Effect>, ongoing: nat, ended: bool, q: seq<Frame>, goal: seq<Effect>) {
    effects + Pending(q) == goal && ongoing == Counted(q) + (if ended then 1 else 0) && HeavyLast(q)
  }

  /** Which frames can be where; only a handler that is running has frames still to queue. */
  ghost predicate Placed(s: State) {
    s.past <= s.queued <= |s.flight|
    && (!s.pc.Queueing? ==> s.queued == |s.flight|)
    && (forall i :: 0 <= i < |s.running| ==> s.running[i].Running?)
    && (forall i :: 0 <= i < |s.flight| ==> !s.flight[i].Running?)
    && (forall i :: 0 <= i < s.past ==> !s.flight[i].Speak?)
  }

  ghost predicate EndLast(q: seq<Frame>) {
    q != [] && q[|q| - 1].End?
  }

  ghost predicate Proceeding(pc: Pc) {
    pc.Checking? || pc.Waiting? || pc.Handling? || pc.Failed?
  }

  /** Where the executor is in the list. */
  ghost predicate Follows(s: State, list: seq<Config>, env: Env) {
    s.next <= |list|
    && (s.previous == None <==> s.next == 0)
    && (s.next > 0 ==> s.previous == Some(list[s.next - 1].kind))
    && (forall i :: 0 <= i < s.next - 1 ==> list[i].kind != EndConversation)
    && (Proceeding(s.pc) ==> s.next < |list| && s.previous != Some(EndConversation))
    && (s.pc.Waiting? || s.pc.Handling? ==> Registered(env, list[s.next].kind))
    && (s.pc.LastWait? || s.pc.Returned? ==> s.next == |list| || s.previous == Some(EndConversation))
  }

  /** What the waits have established about what is in flight. */
  ghost predicate Waited(s: State, list: seq<Config>, env: Env, q: seq<Frame>)
    requires Follows(s, list, env)
  {
    (s.ended || EndLast(q) ==> s.previous == Some(EndConversation)) && (s.ended ==> q == [])
    && (s.previous == None || s.previous.value.Named? || s.previous.value.NoKind? ==> q == [])
    && (s.previous == Some(Say) ==> Light(q))
    && (s.pc.Handling? ==> if list[s.next].kind.Named? then q == [] else Light(q))
    && (s.pc.Returned? && s.previous != Some(EndConversation) ==> q == [])
    && (s.pc.Failed? && Registered(env, list[s.next].kind) ==>
          q == [] && list[s.next].kind.Named? && list[s.next].id in env.failing)
  }

  ghost predicate Inv(s: State, list: seq<Config>, env: Env) {
    Follows(s, list, env) && Placed(s) && Waited(s, list, env, InFlight(s))
    && Tracks(s.effects, s.ongoing, s.ended, InFlight(s), Upto(list, s.next))
  }

  /** q' is q with something that took effect gone. */
  ghost predicate Shrinks(q: seq<Frame>, q': seq<Frame>) {
    (q == [] ==> q' == []) && (Light(q) ==> Light(q')) && (EndLast(q') ==> EndLast(q))
  }

  lemma WaitedShrinks(s: State, s': State, list: seq<Config>, env: Env, q: seq<Frame>, q': seq<Frame>)
    requires Follows(s, list, env) && Waited(s, list, env, q) && Shrinks(q, q')
    requires s'.next == s.next && s'.previous == s.previous && s'.pc == s.pc && s'.ended == s.ended
    ensures Follows(s', list, env) && Waited(s', list, env, q')
  {
  }

  /** Taking out of flight what is nearest the end. */
  lemma HeadLeaves(q: seq<Frame>)
    requires q != [] && HeavyLast(q)
    ensures HeavyLast(q[1..]) && Shrinks(q, q[1..])
    ensures !q[0].Speak? && !q[0].Finished? ==> q[1..] == []
  {
  }

  ghost predicate NoSpeech(q: seq<Frame>) {
    forall i :: 0 <= i < |q| ==> !q[i].Speak?
  }

  /** Speech taken out from behind p, which has no effect to come. */
  lemma {:induction false} SpeechLeaves(p: seq<Frame>, f: Frame, q: seq<Frame>)
    requires f.Speak? && HeavyLast(p + [f] + q) && NoSpeech(p)
    ensures HeavyLast(p + q) && Light(p) && q != [] && (Light(p + [f] + q) ==> Light(p + q))
  {
    if p == [] {
      assert p + [f] + q == [f] + q && ([f] + q)[1..] == q && p + q == q;
    } else {
      assert (p + [f] + q)[1..] == p[1..] + [f] + q && (p + q)[1..] == p[1..] + q;
      SpeechLeaves(p[1..], f, q);
    }
  }

  lemma {:induction false} SpeechSounds(all: seq<Frame>, less: seq<Frame>, i: nat)
    requires i < |all| && all[i].Speak? && less == all[..i] + all[i + 1..] && forall j :: 0 <= j < i ==> all[j].Finished?
    ensures Pending(all) == EffectOf(all[i]) + Pending(less) && Counted(all) == Counted(less)
    decreases i
  {
    if i == 0 {
      assert less == all[1..];
    } else {
      assert less[0] == all[0];
      assert less[1..] == all[1..][..i - 1] + all[1..][i..];
      SpeechSounds(all[1..], less[1..], i - 1);
      assert EffectOf(all[0]) == [];
    }
  }

  lemma {:induction false} LightMarks(p: seq<Frame>)
    requires Light(p) && NoSpeech(p)
    ensures forall j :: 0 <= j < |p| ==> p[j].Finished?
  {
    if p != [] {
      LightMarks(p[1..]);
    }
  }

  lemma SpeechTracks(effects: seq<Effect>, ongoing: nat, ended: bool, p: seq<Frame>, f: Frame, q: seq<Frame>, goal: seq<Effect>)
    requires Tracks(effects, ongoing, ended, p + [f] + q, goal) && f.Speak? && NoSpeech(p)
    ensures Tracks(effects + EffectOf(f), ongoing, ended, p + q, goal) && Shrinks(p + [f] + q, p + q)
  {
    SpeechLeaves(p, f, q);
    LightMarks(p);
    SpeechSounds(p + [f] + q, p + q, |p|);
    assert effects + (EffectOf(f) + Pending(p + q)) == effects + EffectOf(f) + Pending(p + q);
  }

  lemma SynthesizePlaced(s: State, list: seq<Config>, env: Env)
    requires Placed(s) && s.past < s.queued
    ensures Placed(Take(s, list, env, Synthesize)) && NoSpeech(s.running + s.flight[..s.past])
  {
  }

  lemma SynthesizeMoves(s: State, list: seq<Config>, env: Env)
    requires s.past < s.queued <= |s.flight|
    ensures var s', p, q := Take(s, list, env, Synthesize), s.running + s.flight[..s.past], s.flight[s.past + 1..];
            InFlight(s) == p + [s.flight[s.past]] + q
            && InFlight(s') == if s.flight[s.past].Speak? then p + q else InFlight(s)
  {
    assert s.flight == s.flight[..s.past] + [s.flight[s.past]] + s.flight[s.past + 1..];
  }

  lemma SynthesizeKeeps(s: State, list: seq<Config>, env: Env)
    requires Inv(s, list, env) && s.past < s.queued
    ensures Inv(Take(s, list, env, Synthesize), list, env)
  {
    var s' := Take(s, list, env, Synthesize);
    var p, f, q := s.running + s.flight[..s.past], s.flight[s.past], s.flight[s.past + 1..];
    SynthesizePlaced(s, list, env);
    SynthesizeMoves(s, list, env);
    if f.Speak? {
      SpeechTracks(s.effects, s.ongoing, s.ended, p, f, q, Upto(list, s.next));
      WaitedShrinks(s, s', list, env, InFlight(s), p + q);
    }
  }

  lemma EndIsFirst(s: State)
    requires Placed(s) && s.past > 0 && HeavyLast(InFlight(s))
    ensures s.running == [] && InFlight(s) == s.flight && HeavyLast(s.flight)
    ensures !s.flight[0].Finished? ==> s.flight == [s.flight[0]]
  {
    assert s.running == [];
    assert InFlight(s) == s.flight;
    assert !s.flight[0].Speak?;
  }

  lemma HeadTracks(effects: seq<Effect>, ongoing: nat, ended: bool, q: seq<Frame>, goal: seq<Effect>)
    requires Tracks(effects, ongoing, ended, q, goal) && q != [] && !q[0].Speak?
    ensures HeavyLast(q[1..]) && effects + EffectOf(q[0]) + Pending(q[1..]) == goal
    ensures ongoing == 1 + Counted(q[1..]) + (if ended then 1 else 0)
  {
    HeadLeaves(q);
    assert effects + (EffectOf(q[0]) + Pending(q[1..])) == effects + EffectOf(q[0]) + Pending(q[1..]);
  }

  lemma ReachEndPlaced(s: State, list: seq<Config>, env: Env)
    requires Placed(s) && s.past > 0
    ensures Placed(Take(s, list, env, ReachEnd))
  {
    var s' := Take(s, list, env, ReachEnd);
    assert s'.flight == s.flight[1..];
  }

  lemma MarkArrives(s: State, list: seq<Config>, env: Env)
    requires Inv(s, list, env) && s.past > 0 && s.flight[0].Finished?
    ensures Inv(Take(s, list, env, ReachEnd), list, env)
  {
    var s' := Take(s, list, env, ReachEnd);
    EndIsFirst(s);
    ReachEndPlaced(s, list, env);
    assert InFlight(s') == s.flight[1..];
    HeadTracks(s.effects, s.ongoing, s.ended, s.flight, Upto(list, s.next));
    HeadLeaves(s.flight);
    assert s.effects + [] == s.effects;
    WaitedShrinks(s, s', list, env, s.flight, s.flight[1..]);
  }

  lemma CallArrives(s: State, list: seq<Config>, env: Env)
    requires Inv(s, list, env) && s.past > 0 && s.flight[0].Call?
    ensures Inv(Take(s, list, env, ReachEnd), list, env)
  {
    var s', id := Take(s, list, env, ReachEnd), s.flight[0].id;
    EndIsFirst(s);
    ReachEndPlaced(s, list, env);
    assert InFlight(s') == [Running(id)] && InFlight(s) == [Call(id)];
    Alone(Running(id));
    Alone(Call(id));
    assert s.effects + [Began(id), Completed(id)] == s'.effects + [Completed(id)];
    assert !Light(InFlight(s));
  }

  lemma EndArrives(s: State, list: seq<Config>, env: Env)
    requires Inv(s, list, env) && s.past > 0 && s.flight[0].End?
    ensures Inv(Take(s, list, env, ReachEnd), list, env)
  {
    var s', id := Take(s, list, env, ReachEnd), s.flight[0].id;
    EndIsFirst(s);
    ReachEndPlaced(s, list, env);
    assert InFlight(s') == [] && InFlight(s) == [End(id)];
    Alone(End(id));
    assert s.effects + [Ended(id)] == s'.effects + Pending([]);
    assert EndLast(InFlight(s)) && !Light(InFlight(s));
  }

  lemma ReachEndKeeps(s: State, list: seq<Config>, env: Env)
    requires Inv(s, list, env) && s.past > 0
    ensures Inv(Take(s, list, env, ReachEnd), list, env)
  {
    match s.flight[0]
    case Finished => MarkArrives(s, list, env);
    case Call(_) => CallArrives(s, list, env);
    case End(_) => EndArrives(s, list, env);
    case _ =>
  }

  lemma HandlerReturnsKeeps(s: State, list: seq<Config>, env: Env)
    requires Inv(s, list, env) && s.running != []
    ensures Inv(Take(s, list, env, HandlerReturns), list, env)
  {
    var s' := Take(s, list, env, HandlerReturns);
    var q := InFlight(s);
    assert q[0] == s.running[0] && q[1..] == InFlight(s');
    HeadLeaves(q);
    HeadTracks(s.effects, s.ongoing, s.ended, q, Upto(list, s.next));
    WaitedShrinks(s, s', list, env, q, q[1..]);
  }

  lemma NothingTracks(effects: seq<Effect>, ongoing: nat, ended: bool, goal: seq<Effect>, more: seq<Effect>)
    requires Tracks(effects, ongoing, ended, [], goal)
    ensures Tracks(effects + more, ongoing, ended, [], goal + more)
  {
    assert effects + Pending([]) == effects && effects + more + Pending([]) == effects + more;
  }

  lemma NamedMoves(s: State, list: seq<Config>, env: Env)
    requires s.pc.Handling? && s.next < |list| && list[s.next].kind.Named? && Placed(s)
    ensures var s', a := Take(s, list, env, Execute), list[s.next];
            InFlight(s') == InFlight(s) && Placed(s') && s'.ongoing == s.ongoing && s'.ended == s.ended
            && if a.id in env.failing then s' == s.(pc := Failed)
               else s'.effects == s.effects + EffectsOf(a) && s'.next == s.next + 1 && s'.previous == Some(a.kind) && s'.pc == Queueing
  {
  }

  lemma NamedWaits(s: State, list: seq<Config>, env: Env)
    requires Follows(s, list, env) && Waited(s, list, env, []) && s.pc.Handling? && list[s.next].kind.Named?
    ensures Follows(Take(s, list, env, Execute), list, env) && Waited(Take(s, list, env, Execute), list, env, [])
  {
  }

  lemma NamedKeeps(s: State, list: seq<Config>, env: Env)
    requires Inv(s, list, env) && s.pc.Handling? && list[s.next].kind.Named?
    ensures Inv(Take(s, list, env, Execute), list, env)
  {
    NamedMoves(s, list, env);
    NamedWaits(s, list, env);
    NothingTracks(s.effects, s.ongoing, s.ended, Upto(list, s.next), EffectsOf(list[s.next]));
  }

  lemma {:induction false} QueuesBehind(q: seq<Frame>, more: seq<Frame>)
    requires Light(q) && HeavyLast(q) && HeavyLast(more)
    ensures HeavyLast(q + more) && (Light(more) ==> Light(q + more)) && (EndLast(q + more) ==> EndLast(more))
  {
    if q == [] {
      assert q + more == more;
    } else {
      assert (q + more)[1..] == q[1..] + more;
      QueuesBehind(q[1..], more);
      if more == [] {
        assert q + more == q;
        NoEndWhenLight(q);
      }
    }
  }

  lemma {:induction false} NoEndWhenLight(q: seq<Frame>)
    requires Light(q)
    ensures !EndLast(q)
  {
    if |q| > 1 {
      NoEndWhenLight(q[1..]);
    }
  }

  lemma Assoc(a: seq<Effect>, b: seq<Effect>, c: seq<Effect>)
    ensures a + (b + c) == a + b + c
  {
  }

  lemma MoreSounds(effects: seq<Effect>, q: seq<Frame>, goal: seq<Effect>, more: seq<Frame>)
    requires effects + Pending(q) == goal
    ensures effects + Pending(q + more) == goal + Pending(more) && Counted(q + more) == Counted(q) + Counted(more)
  {
    PendingConcat(q, more);
    CountedConcat(q, more);
    Assoc(effects, Pending(q), Pending(more));
  }

  lemma MoreTracks(effects: seq<Effect>, ongoing: nat, q: seq<Frame>, goal: seq<Effect>, more: seq<Frame>, added: seq<Effect>, started: nat)
    requires Tracks(effects, ongoing, false, q, goal) && Light(q)
    requires HeavyLast(more) && Counted(more) == started && Pending(more) == added
    ensures Tracks(effects, ongoing + started, false, q + more, goal + added)
    ensures Light(more) ==> Light(q + more)
    ensures EndLast(q + more) ==> EndLast(more)
  {
    QueuesBehind(q, more);
    MoreSounds(effects, q, goal, more);
  }

  lemma BuiltInMoves(s: State, list: seq<Config>, env: Env)
    requires s.pc.Handling? && s.next < |list| && !list[s.next].kind.Named? && Placed(s)
    ensures var s', a := Take(s, list, env, Execute), list[s.next];
            InFlight(s') == InFlight(s) + FramesOf(a) && Placed(s')
            && s'.ongoing == s.ongoing + (if FramesOf(a) == [] then 0 else 1) && s'.ended == s.ended && s'.effects == s.effects
  {
  }

  lemma BuiltInWaits(s: State, list: seq<Config>, env: Env, q: seq<Frame>, q': seq<Frame>)
    requires Follows(s, list, env) && Waited(s, list, env, q) && s.pc.Handling? && !list[s.next].kind.Named?
    requires list[s.next].kind == Say ==> Light(q')
    requires EndLast(q') ==> list[s.next].kind == EndConversation
    ensures Follows(Take(s, list, env, Execute), list, env) && Waited(Take(s, list, env, Execute), list, env, q')
  {
  }

  lemma BuiltInKeeps(s: State, list: seq<Config>, env: Env)
    requires Inv(s, list, env) && s.pc.Handling? && !list[s.next].kind.Named?
    ensures Inv(Take(s, list, env, Execute), list, env)
  {
    var a, q := list[s.next], InFlight(s);
    BuiltInMoves(s, list, env);
    BuiltInTracks(s.effects, s.ongoing, q, Upto(list, s.next), a);
    BuiltInWaits(s, list, env, q, q + FramesOf(a));
  }

  lemma BuiltInTracks(effects: seq<Effect>, ongoing: nat, q: seq<Frame>, goal: seq<Effect>, a: Config)
    requires Tracks(effects, ongoing, false, q, goal) && Light(q) && !a.kind.Named?
    ensures Tracks(effects, ongoing + (if FramesOf(a) == [] then 0 else 1), false, q + FramesOf(a), goal + EffectsOf(a))
    ensures a.kind == Say ==> Light(q + FramesOf(a))
    ensures EndLast(q + FramesOf(a)) ==> a.kind == EndConversation
  {
    FramesHaveEffects(a);
    EndsOnly(a);
    MoreTracks(effects, ongoing, q, goal, FramesOf(a), EffectsOf(a), if FramesOf(a) == [] then 0 else 1);
  }

  lemma EndsOnly(a: Config)
    ensures EndLast(FramesOf(a)) ==> a.kind == EndConversation
  {
  }

  lemma ExecuteMoves(s: State, list: seq<Config>, env: Env)
    requires Enabled(s, list, Execute) && !s.pc.Handling? && Placed(s)
    ensures InFlight(Take(s, list, env, Execute)) == InFlight(s) && Placed(Take(s, list, env, Execute))
  {
  }

  lemma ExecuteWaits(s: State, list: seq<Config>, env: Env, q: seq<Frame>)
    requires Follows(s, list, env) && Waited(s, list, env, q) && Enabled(s, list, Execute) && !s.pc.Handling?
    requires s.ongoing == 0 ==> q == []
    ensures var s' := Take(s, list, env, Execute);
            Follows(s', list, env) && Waited(s', list, env, q)
            && s'.next == s.next && s'.effects == s.effects && s'.ongoing == s.ongoing && s'.ended == s.ended
  {
  }

  lemma ExecuteKeeps(s: State, list: seq<Config>, env: Env)
    requires Inv(s, list, env) && Enabled(s, list, Execute) && !s.pc.Handling?
    ensures Inv(Take(s, list, env, Execute), list, env)
  {
    ExecuteMoves(s, list, env);
    if s.ongoing == 0 {
      NothingCountedNothingLeft(InFlight(s));
    }
    ExecuteWaits(s, list, env, InFlight(s));
  }

  lemma StepKeepsInv(s: State, list: seq<Config>, env: Env, step: Step)
    requires Inv(s, list, env) && Enabled(s, list, step)
    ensures Inv(Take(s, list, env, step), list, env)
  {
    match step
    case Synthesize => SynthesizeKeeps(s, list, env);
    case ReachEnd => ReachEndKeeps(s, list, env);
    case HandlerReturns => HandlerReturnsKeeps(s, list, env);
    case Execute =>
      if !s.pc.Handling? {
        ExecuteKeeps(s, list, env);
      } else if list[s.next].kind.Named? {
        NamedKeeps(s, list, env);
      } else {
        BuiltInKeeps(s, list, env);
      }
  }

  lemma {:induction false} RunKeepsInv(s: State, list: seq<Config>, env: Env, steps: seq<Step>)
    requires Inv(s, list, env) && Legal(s, list, env, steps)
    ensures Inv(Exec(s, list, env, steps), list, env)
    decreases |steps|
  {
    if steps != [] {
      StepKeepsInv(s, list, env, steps[0]);
      RunKeepsInv(Take(s, list, env, steps[0]), list, env, steps[1..]);
    }
  }

  // ---------------------------------------------------------------- the results

  lemma {:induction false} UptoGrows(list: seq<Config>, m: nat, n: nat)
    requires m <= n <= |list|
    ensures Upto(list, m) <= Upto(list, n)
  {
    if m < n {
      UptoGrows(list, m, n - 1);
    }
  }

  lemma {:induction false} ReachIs(list: seq<Config>, n: nat)
    requires n <= |list| && forall i :: 0 <= i < n - 1 ==> list[i].kind != EndConversation
    ensures n <= Reach(list)
    ensures n > 0 && list[n - 1].kind == EndConversation ==> n == Reach(list)
  {
    if n > 1 {
      assert forall i :: 0 <= i < n - 2 ==> list[1..][i] == list[i + 1];
      ReachIs(list[1..], n - 1);
    }
  }

  lemma TracksSoFar(effects: seq<Effect>, ongoing: nat, ended: bool, q: seq<Frame>, goal: seq<Effect>)
    requires Tracks(effects, ongoing, ended, q, goal)
    ensures effects <= goal && (q == [] ==> effects == goal && ongoing == if ended then 1 else 0)
  {
  }

  lemma InvShows(s: State, list: seq<Config>, env: Env)
    requires Inv(s, list, env)
    ensures s.effects <= Upto(list, s.next) && s.effects + Pending(InFlight(s)) == Upto(list, s.next)
    ensures InFlight(s) == [] ==> s.effects == Upto(list, s.next) && (s.previous != Some(EndConversation) ==> s.ongoing == 0)
  {
    TracksSoFar(s.effects, s.ongoing, s.ended, InFlight(s), Upto(list, s.next));
  }

  lemma NotEnded(s: State, list: seq<Config>, env: Env)
    requires Follows(s, list, env) && s.previous != Some(EndConversation)
    ensures forall i :: 0 <= i < s.next ==> list[i].kind != EndConversation
  {
  }

  lemma WhereItIs(s: State, list: seq<Config>, env: Env)
    requires Follows(s, list, env)
    ensures s.next <= Reach(list)
    ensures s.pc.Returned? ==> s.next == Reach(list) && (s.previous != Some(EndConversation) ==> s.next == |list|)
    ensures s.pc.Failed? ==> s.next < Reach(list)
  {
    ReachIs(list, s.next);
    if s.previous != Some(EndConversation) {
      NotEnded(s, list, env);
      if s.next < |list| {
        ReachIs(list, s.next + 1);
      }
    }
  }

  lemma InitHolds(list: seq<Config>, env: Env)
    ensures Inv(Init(list), list, env)
  {
    assert Upto(list, 0) == [];
  }

  /** However the executor and the pipeline interleave: the effects so far are a prefix of those the list asks
      for, in list order, and nothing after the end of the conversation has any. A list that returns has
      brought everything about and left nothing outstanding, unless it ends the conversation, in which case
      all of it is at least in the pipeline, in order. */
  lemma EffectsInListOrder(list: seq<Config>, env: Env, steps: seq<Step>)
    requires Legal(Init(list), list, env, steps)
    ensures var s := Exec(Init(list), list, env, steps);
            s.next <= Reach(list)
            && s.effects <= Upto(list, s.next) <= Upto(list, Reach(list))
            && (s.pc.Returned? ==> s.next == Reach(list) && s.effects + Pending(InFlight(s)) == Upto(list, Reach(list)))
            && (s.pc.Returned? && s.previous != Some(EndConversation) ==> s.effects == Upto(list, |list|) && s.ongoing == 0)
  {
    InitHolds(list, env);
    RunKeepsInv(Init(list), list, env, steps);
    var s := Exec(Init(list), list, env, steps);
    InvShows(s, list, env);
    WhereItIs(s, list, env);
    UptoGrows(list, s.next, Reach(list));
  }

  /** The executor has gone past good actions only, and stopped at a bad one if at all. */
  ghost predicate PastGood(s: State, list: seq<Config>, env: Env) {
    s.next <= |list| && (forall i :: 0 <= i < s.next ==> Good(env, list[i]))
    && (s.pc.Failed? ==> s.next < |list| && !Good(env, list[s.next]))
    && (s.pc.Waiting? || s.pc.Handling? ==> s.next < |list| && Registered(env, list[s.next].kind))
  }

  lemma ExecuteGood(s: State, list: seq<Config>, env: Env)
    requires PastGood(s, list, env) && Enabled(s, list, Execute)
    ensures PastGood(Execution(s, list, env), list, env)
  {
  }

  lemma {:induction false} RunKeepsGood(s: State, list: seq<Config>, env: Env, steps: seq<Step>)
    requires PastGood(s, list, env) && Legal(s, list, env, steps)
    ensures PastGood(Exec(s, list, env, steps), list, env)
    decreases |steps|
  {
    if steps != [] {
      var s' := Take(s, list, env, steps[0]);
      if steps[0].Execute? {
        ExecuteGood(s, list, env);
      }
      assert PastGood(s', list, env);
      RunKeepsGood(s', list, env, steps[1..]);
    }
  }

  /** A list stops with an error exactly at its first action that is missing its type, is not registered, or
      fails. One that fails finds everything before it done and nothing outstanding. */
  lemma StopsAtTheFirstBadAction(list: seq<Config>, env: Env, steps: seq<Step>)
    requires Legal(Init(list), list, env, steps)
    ensures var s := Exec(Init(list), list, env, steps);
            s.next <= |list| && (forall i :: 0 <= i < s.next ==> Good(env, list[i]))
            && (s.pc.Failed? ==>
                  s.next < Reach(list) && !Good(env, list[s.next])
                  && (Registered(env, list[s.next].kind) ==> s.effects == Upto(list, s.next) && s.ongoing == 0))
            && (s.pc.Returned? ==> forall i :: 0 <= i < Reach(list) ==> Good(env, list[i]))
  {
    InitHolds(list, env);
    RunKeepsInv(Init(list), list, env, steps);
    RunKeepsGood(Init(list), list, env, steps);
    var s := Exec(Init(list), list, env, steps);
    WhereItIs(s, list, env);
    InvShows(s, list, env);
  }

  // ---------------------------------------------------------------- every run ends

  /** What is left to do, weighed so that every step brings the end nearer. */
  function Work(s: State, list: seq<Config>): int {
    30 * (|list| - s.next) + 4 * |s.flight| - s.queued - s.past + |s.running|
    + match s.pc
      case Queueing => 5
      case Checking => 3
      case Waiting => 2
      case Handling => 1
      case LastWait => 2
      case _ => 0
  }

  lemma StepIsProgress(s: State, list: seq<Config>, env: Env, step: Step)
    requires Enabled(s, list, step) && Placed(s) && (s.pc.Handling? ==> s.next < |list|)
    ensures Work(Take(s, list, env, step), list) < Work(s, list)
  {
    if step.Execute? && s.pc.Handling? {
      assert |FramesOf(list[s.next])| <= 2;
    }
  }

  lemma {:induction false} RunIsProgress(s: State, list: seq<Config>, env: Env, steps: seq<Step>)
    requires Inv(s, list, env) && Legal(s, list, env, steps)
    ensures |steps| + Work(Exec(s, list, env, steps), list) <= Work(s, list)
    decreases |steps|
  {
    if steps != [] {
      StepIsProgress(s, list, env, steps[0]);
      StepKeepsInv(s, list, env, steps[0]);
      RunIsProgress(Take(s, list, env, steps[0]), list, env, steps[1..]);
    }
  }

  /** No wait is for something that cannot happen. */
  lemma NeverStuck(s: State, list: seq<Config>, env: Env)
    requires Inv(s, list, env) && forall step :: !Enabled(s, list, step)
    ensures (s.pc.Failed? || s.pc.Returned?) && InFlight(s) == []
  {
    assert !Enabled(s, list, Synthesize) && !Enabled(s, list, ReachEnd) && !Enabled(s, list, HandlerReturns);
    assert !Enabled(s, list, Execute);
    assert InFlight(s) == [];
    assert Counted([]) == 0;
  }

  /** Runs are bounded, and one that can go no further has returned with every effect of the list brought
      about, or has stopped at its first bad action. */
  lemma ListCompletes(list: seq<Config>, env: Env, steps: seq<Step>)
    requires Legal(Init(list), list, env, steps)
    ensures |steps| <= 30 * |list| + 3
    ensures var s := Exec(Init(list), list, env, steps);
            (forall step :: !Enabled(s, list, step)) ==>
              (s.pc.Failed? || s.pc.Returned?)
              && (s.pc.Returned? <==> forall i :: 0 <= i < Reach(list) ==> Good(env, list[i]))
              && (s.pc.Returned? ==> s.effects == Upto(list, Reach(list)))
  {
    InitHolds(list, env);
    RunIsProgress(Init(list), list, env, steps);
    RunKeepsInv(Init(list), list, env, steps);
    StopsAtTheFirstBadAction(list, env, steps);
    var s := Exec(Init(list), list, env, steps);
    if forall step :: !Enabled(s, list, step) {
      NeverStuck(s, list, env);
      EffectsInListOrder(list, env, steps);
      assert s.effects + Pending([]) == s.effects;
    }
  }

  // ---------------------------------------------------------------- the manager

  datatype Error = MissingType | NotRegistered | HandlerFailed

  /** The first n actions ran, and previous is the type of the last. */
  ghost predicate WentPast(list: seq<Config>, n: nat, env: Env, previous: Option<Kind>)
    requires n <= |list|
  {
    (forall j :: 0 <= j < n ==> Good(env, list[j]))
    && (forall j :: 0 <= j < n - 1 ==> list[j].kind != EndConversation)
    && previous == if n == 0 then None else Some(list[n - 1].kind)
  }

  lemma WentOn(list: seq<Config>, n: nat, env: Env, previous: Option<Kind>)
    requires n < |list| && WentPast(list, n, env, previous) && previous != Some(EndConversation) && Good(env, list[n])
    ensures WentPast(list, n + 1, env, Some(list[n].kind))
  {
  }

  lemma UptoNext(before: seq<Effect>, list: seq<Config>, n: nat)
    requires n < |list|
    ensures before + Upto(list, n) + EffectsOf(list[n]) == before + Upto(list, n + 1)
  {
  }

  class ActionManager {
    var names: set<nat>
    var ongoing: nat
    /** The frames of its own in the pipeline. */
    var queued: seq<Frame>
    ghost var ended: bool
    ghost var effects: seq<Effect>

    ghost predicate Valid()
      reads this
    {
      ongoing == Counted(queued) + (if ended then 1 else 0) && HeavyLast(queued)
    }

    ghost predicate Idle()
      reads this
    {
      ongoing == 0 && queued == [] && !ended
    }

    /** Everything asked of the pipeline, done or not. */
    ghost function Asked(): seq<Effect>
      reads this
    {
      effects + Pending(queued)
    }

    ghost predicate CanGoOn()
      reads this
    {
      Valid() && !ended && !EndLast(queued)
    }

    constructor ()
      ensures Idle() && names == {} && effects == []
    {
      names, ongoing, queued := {}, 0, [];
      ended, effects := false, [];
    }

    /** Registers the handler an action brings, for a type nothing has registered. */
    method RegisterFromConfig(a: Config) returns (err: Option<Error>)
      modifies this`names
      ensures err == None <==> Registered(Env(old(names), {}), a.kind) || (a.kind.Named? && a.handler)
      ensures err == None <==> Registered(Env(names, {}), a.kind)
      ensures old(names) <= names && forall n :: n in names - old(names) ==> a.kind == Named(n)
    {
      match a.kind
      case NoKind => return Some(MissingType);
      case Named(name) =>
        if name in names {
          return None;
        }
        if !a.handler {
          return Some(NotRegistered);
        }
        names := names + {name};
        return None;
      case _ => return None;
    }

    method StartAction()
      modifies this`ongoing
      ensures ongoing == old(ongoing) + 1
    {
      ongoing := ongoing + 1;
    }

    method FinishAction()
      modifies this`ongoing
      ensures ongoing == Finish(old(ongoing))
    {
      if ongoing > 0 {
        ongoing := ongoing - 1;
      }
    }

    method QueueFrame(f: Frame)
      modifies this`queued
      ensures queued == old(queued) + [f]
    {
      queued := queued + [f];
    }

    /** A built-in handler has queued the frames of a, and counted its start if there are any. */
    ghost predicate Queued(a: Config, q: seq<Frame>, n: nat)
      reads this
    {
      queued == q + FramesOf(a) && ongoing == n + if FramesOf(a) == [] then 0 else 1
    }

    method HandleTTSSay(a: Config)
      requires a.kind == Say
      modifies this`ongoing, this`queued
      ensures Queued(a, old(queued), old(ongoing))
    {
      if !a.text {
        assert queued + [] == queued;
        return;
      }
      StartAction();
      QueueFrame(Speak(a.id));
      QueueFrame(Finished);
      assert queued == old(queued) + [Speak(a.id), Finished];
    }

    method HandleEndConversation(a: Config)
      requires a.kind == EndConversation
      modifies this`ongoing, this`queued
      ensures Queued(a, old(queued), old(ongoing))
    {
      StartAction();
      if a.text {
        QueueFrame(Speak(a.id));
      }
      QueueFrame(End(a.id));
      assert queued == old(queued) + FramesOf(a);
    }

    method HandleFunction(a: Config)
      requires a.kind == Function
      modifies this`ongoing, this`queued
      ensures Queued(a, old(queued), old(ongoing))
    {
      if !a.handler {
        assert queued + [] == queued;
        return;
      }
      StartAction();
      QueueFrame(Call(a.id));
    }

    method HandleBuiltIn(a: Config)
      requires CanGoOn() && Light(queued) && (a.kind == Say || a.kind == EndConversation || a.kind == Function)
      modifies this`ongoing, this`queued
      ensures Valid() && (a.kind != EndConversation ==> CanGoOn()) && (a.kind == Say ==> Light(queued))
      ensures Asked() == old(Asked()) + EffectsOf(a)
    {
      ghost var q := queued;
      FramesHaveEffects(a);
      MoreSounds(effects, q, Asked(), FramesOf(a));
      EndsOnly(a);
      match a.kind {
        case Say => HandleTTSSay(a);
        case EndConversation => HandleEndConversation(a);
        case Function => HandleFunction(a);
        case _ =>
      }
      QueuesBehind(q, FramesOf(a));
    }

    /** What the pipeline does while the executor waits: one frame, where it takes effect. */
    method Pump()
      requires CanGoOn() && queued != []
      modifies this`ongoing, this`queued, this`effects
      ensures CanGoOn() && Asked() == old(Asked()) && queued == old(queued)[1..]
    {
      var f := queued[0];
      ghost var q, done := queued, effects;
      queued := queued[1..];
      assert Pending(q) == EffectOf(f) + Pending(queued);
      HeadLeaves(q);
      effects := effects + EffectOf(f);
      assert done + (EffectOf(f) + Pending(queued)) == effects + Pending(queued);
      if !f.Speak? {
        FinishAction();
      }
    }

    method WaitForOngoing(previous: Option<Kind>, upcoming: Option<Kind>)
      requires CanGoOn()
      modifies this`ongoing, this`queued, this`effects
      ensures CanGoOn() && Asked() == old(Asked()) && (NeedsWait(previous, upcoming) ==> Idle())
      ensures !NeedsWait(previous, upcoming) ==> queued == old(queued) && effects == old(effects) && ongoing == old(ongoing)
    {
      var wait := false;
      match previous {
        case Some(Say) =>
          if upcoming != Some(Say) && upcoming != Some(EndConversation) && upcoming != Some(Function) {
            wait := true;
          }
        case Some(Function) => wait := true;
        case _ =>
      }
      if !wait {
        return;
      }
      while ongoing > 0
        invariant CanGoOn() && Asked() == old(Asked())
        decreases |queued|
      {
        Pump();
      }
      NothingCountedNothingLeft(queued);
    }

    ghost predicate Waited(previous: Option<Kind>)
      reads this
    {
      if previous == Some(Say) then Light(queued) else previous == Some(Function) || Idle()
    }

    /** One turn of the loop in executeActions. */
    method ExecuteOne(a: Config, previous: Option<Kind>, failing: set<nat>) returns (err: Option<Error>)
      requires CanGoOn() && Waited(previous)
      modifies this`ongoing, this`queued, this`effects
      ensures err == None <==> Good(Env(names, failing), a)
      ensures Valid() && (a.kind != EndConversation || err != None ==> CanGoOn())
      ensures Asked() == old(Asked()) + if err == None then EffectsOf(a) else []
      ensures err == None ==> Waited(Some(a.kind)) || a.kind == EndConversation
    {
      if a.kind == NoKind {
        return Some(MissingType);
      }
      if a.kind.Named? && a.kind.name !in names {
        return Some(NotRegistered);
      }
      WaitForOngoing(previous, Some(a.kind));
      if !a.kind.Named? {
        HandleBuiltIn(a);
        return None;
      }
      if a.id in failing {
        return Some(HandlerFailed);
      }
      ghost var was := Asked();
      effects := effects + [Did(a.id)];
      assert was == old(Asked()) && Pending(queued) == [] && Asked() == was + [Did(a.id)];
      return None;
    }

    /** The loop in executeActions, which goes past n actions. */
    method ExecuteList(actions: seq<Config>, failing: set<nat>) returns (err: Option<Error>, n: nat, previous: Option<Kind>)
      requires Idle()
      modifies this`ongoing, this`queued, this`effects
      ensures n <= |actions| && Asked() == old(Asked()) + Upto(actions, n)
      ensures WentPast(actions, n, Env(names, failing), previous)
      ensures err != None ==> n < |actions| && !Good(Env(names, failing), actions[n]) && previous != Some(EndConversation)
      ensures err == None ==> n == |actions| || previous == Some(EndConversation)
      ensures err == None && previous != Some(EndConversation) ==> CanGoOn() && Waited(previous)
    {
      err, n, previous := None, 0, None;
      ghost var asked, env := Asked(), Env(names, failing);
      assert asked + [] == asked;
      while n < |actions|
        invariant n <= |actions| && CanGoOn() && Waited(previous)
        invariant Asked() == asked + Upto(actions, n)
        invariant WentPast(actions, n, env, previous) && previous != Some(EndConversation) && err == None
      {
        var a := actions[n];
        ghost var was := Asked();
        err := ExecuteOne(a, previous, failing);
        if err != None {
          assert was + [] == was;
          return;
        }
        UptoNext(asked, actions, n);
        WentOn(actions, n, env, previous);
        previous := Some(a.kind);
        n := n + 1;
        if a.kind == EndConversation {
          return;
        }
      }
    }

    /** executeActions, the pipeline moving only while it waits: what was asked for is what the list asks for,
        in order, up to the end of the conversation or the first action that cannot run. */
    method ExecuteActions(actions: seq<Config>, failing: set<nat>) returns (err: Option<Error>)
      requires Idle()
      modifies this`ongoing, this`queued, this`effects
      ensures err == None ==> Asked() == old(Asked()) + Upto(actions, Reach(actions))
      ensures err == None && (forall i :: 0 <= i < |actions| ==> actions[i].kind != EndConversation) ==>
                Idle() && Asked() == effects
      ensures err == None <==> forall i :: 0 <= i < Reach(actions) ==> Good(Env(names, failing), actions[i])
      ensures err != None ==>
                exists i :: 0 <= i < Reach(actions) && !Good(Env(names, failing), actions[i])
                            && Asked() == old(Asked()) + Upto(actions, i)
    {
      var n: nat, previous: Option<Kind>;
      err, n, previous := ExecuteList(actions, failing);
      ReachIs(actions, n);
      if err != None {
        ReachIs(actions, n + 1);
        return;
      }
      if previous == Some(EndConversation) {
        return;
      }
      WaitForOngoing(previous, None);
      assert effects + Pending([]) == effects;
    }
  }
}
