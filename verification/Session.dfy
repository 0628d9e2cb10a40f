/**
 The eval session (eval/session.go): a reader translates the bot's messages into events and queues them for
 the matcher, dropping what an interruption makes stale, and the matcher claims function calls in any order.
 */
module Session {
  import opened Wrappers

  /** The bot's messages. A chunk of text is None when its payload does not parse. */
  datatype Incoming =
    | BotReady
    | UserStartedSpeaking
    | UserStoppedSpeaking
    | BotInterrupted
    | UserTranscription(final: bool, said: string)
    | LLMStarted
    | LLMText(chunk: Option<string>)
    | LLMStopped
    | TTSText(spoken: string)
    | FunctionCall(name: string)
    | Unknown

  datatype Event =
    | BotIsReady
    | UserStarted
    | UserStopped
    | Interrupted
    | Transcription(said: string)
    | ResponseStarted
    | Response(text: string)
    | Speech(spoken: string)
    | Call(name: string)

  const EVENT_BUFFER: nat := 256

  predicate Interrupts(m: Incoming) {
    m.UserStartedSpeaking? || m.BotInterrupted?
  }

  // ---------------------------------------------------------------- what a message means, from the history

  /** An interruption came after the latest start of a response. */
  ghost predicate CutOff(h: seq<Incoming>) {
    exists i :: 0 <= i < |h| && Interrupts(h[i]) && forall j :: i < j < |h| ==> !h[j].LLMStarted?
  }

  predicate Bounds(m: Incoming) {
    m.LLMStarted? || m.LLMStopped?
  }

  function Chunks(h: seq<Incoming>): string {
    if h == [] then ""
    else
      var m := h[|h| - 1];
      Chunks(h[..|h| - 1]) + if m.LLMText? && m.chunk.Some? then m.chunk.value else ""
  }

  /** Where the text of the response in progress begins: behind the latest start or stop. */
  function Bound(h: seq<Incoming>): (k: nat)
    ensures k <= |h| && (k > 0 ==> Bounds(h[k - 1])) && forall j :: k <= j < |h| ==> !Bounds(h[j])
  {
    if h == [] then 0 else if Bounds(h[|h| - 1]) then |h| else Bound(h[..|h| - 1])
  }

  /** The event message m stands for after history h, if any. */
  ghost function Meaning(h: seq<Incoming>, m: Incoming): Option<Event> {
    match m
    case BotReady => Some(BotIsReady)
    case UserStartedSpeaking => Some(UserStarted)
    case UserStoppedSpeaking => Some(UserStopped)
    case BotInterrupted => Some(Interrupted)
    case UserTranscription(final, said) => if final then Some(Transcription(said)) else None
    case LLMStarted => Some(ResponseStarted)
    case LLMText(_) => None
    case LLMStopped => if CutOff(h) then None else Some(Response(Chunks(h[Bound(h)..])))
    case TTSText(spoken) => Some(Speech(spoken))
    case FunctionCall(name) => Some(Call(name))
    case Unknown => None
  }

  /** The reader's two variables say what the history does. */
  ghost predicate Remembers(h: seq<Incoming>, awaiting: bool, buffer: string) {
    awaiting == CutOff(h) && buffer == if awaiting then "" else Chunks(h[Bound(h)..])
  }

  lemma CutOffSnoc(h: seq<Incoming>, m: Incoming)
    ensures CutOff(h + [m]) <==> Interrupts(m) || (CutOff(h) && !m.LLMStarted?)
  {
    var more := h + [m];
    if CutOff(more) && !Interrupts(m) {
      var i :| 0 <= i < |more| && Interrupts(more[i]) && forall j :: i < j < |more| ==> !more[j].LLMStarted?;
      assert more[|h|] == m && i < |h| && h[i] == more[i];
      assert forall j :: i < j < |h| ==> h[j] == more[j];
    }
    if Interrupts(m) {
      assert Interrupts(more[|h|]);
    } else if CutOff(h) && !m.LLMStarted? {
      var i :| 0 <= i < |h| && Interrupts(h[i]) && forall j :: i < j < |h| ==> !h[j].LLMStarted?;
      assert Interrupts(more[i]) && forall j :: i < j < |more| ==> !more[j].LLMStarted?;
    }
  }

  lemma ChunksSnoc(h: seq<Incoming>, m: Incoming)
    ensures var more := h + [m];
            Chunks(more[Bound(more)..]) ==
            if Bounds(m) then "" else Chunks(h[Bound(h)..]) + if m.LLMText? && m.chunk.Some? then m.chunk.value else ""
  {
    var more := h + [m];
    assert more[..|h|] == h && more[|h|] == m;
    if !Bounds(m) {
      assert more[Bound(h)..] == h[Bound(h)..] + [m];
      assert (h[Bound(h)..] + [m])[..|h| - Bound(h)] == h[Bound(h)..];
    }
  }

  function Joined(chunks: seq<string>): string {
    if chunks == [] then "" else Joined(chunks[..|chunks| - 1]) + chunks[|chunks| - 1]
  }

  function Texts(chunks: seq<string>): seq<Incoming> {
    seq(|chunks|, i requires 0 <= i < |chunks| => LLMText(Some(chunks[i])))
  }

  lemma {:induction false} WhileInProgress(h: seq<Incoming>, chunks: seq<string>)
    ensures var more := h + [LLMStarted] + Texts(chunks);
            !CutOff(more) && Chunks(more[Bound(more)..]) == Joined(chunks)
  {
    if chunks == [] {
      assert h + [LLMStarted] + Texts(chunks) == h + [LLMStarted];
      CutOffSnoc(h, LLMStarted);
      ChunksSnoc(h, LLMStarted);
    } else {
      var n := |chunks| - 1;
      var before := h + [LLMStarted] + Texts(chunks[..n]);
      WhileInProgress(h, chunks[..n]);
      CutOffSnoc(before, LLMText(Some(chunks[n])));
      ChunksSnoc(before, LLMText(Some(chunks[n])));
      assert h + [LLMStarted] + Texts(chunks) == before + [LLMText(Some(chunks[n]))];
    }
  }

  /** Whatever came before, a response is its chunks, in order and complete. */
  lemma ResponseIsItsChunks(h: seq<Incoming>, chunks: seq<string>)
    ensures Meaning(h + [LLMStarted] + Texts(chunks), LLMStopped) == Some(Response(Joined(chunks)))
  {
    WhileInProgress(h, chunks);
  }

  /** And there is none if the user or the bot's own interruption cut it off. */
  lemma CutResponseIsNone(h: seq<Incoming>, m: Incoming, after: seq<Incoming>)
    requires m == UserStartedSpeaking || m == BotInterrupted
    requires forall j :: 0 <= j < |after| ==> !after[j].LLMStarted?
    ensures Meaning(h + [m] + after, LLMStopped) == None
  {
    var more := h + [m] + after;
    assert more[|h|] == m;
    assert Interrupts(more[|h|]) && forall j :: |h| < j < |more| ==> !more[j].LLMStarted?;
  }

  // ---------------------------------------------------------------- the reader

  /** The user's transcriptions among q, in order. */
  function Transcriptions(q: seq<Event>): seq<Event> {
    if q == [] then []
    else Transcriptions(q[..|q| - 1]) + if q[|q| - 1].Transcription? then [q[|q| - 1]] else []
  }

  /** Of an interruption's queue the transcriptions stay, every one of them as often as it is there, */
  lemma {:induction false} TranscriptionsStay(q: seq<Event>, e: Event)
    ensures multiset(Transcriptions(q))[e] == if e.Transcription? then multiset(q)[e] else 0
  {
    if q != [] {
      var n := |q| - 1;
      TranscriptionsStay(q[..n], e);
      assert q == q[..n] + [q[n]];
    }
  }

  /** and in order: at says where each was. */
  lemma {:induction false} TranscriptionsKeepOrder(q: seq<Event>) returns (at: seq<nat>)
    ensures |at| == |Transcriptions(q)| && forall i, j :: 0 <= i < j < |at| ==> at[i] < at[j]
    ensures forall i :: 0 <= i < |at| ==> at[i] < |q| && Transcriptions(q)[i] == q[at[i]]
  {
    if q == [] {
      at := [];
    } else {
      var n := |q| - 1;
      at := TranscriptionsKeepOrder(q[..n]);
      if q[n].Transcription? {
        at := at + [n];
      }
    }
  }

  class Reader {
    var llmBuf: string
    var awaitingLLMRestart: bool
    /** The channel the matcher reads. */
    var events: seq<Event>
    ghost var history: seq<Incoming>

    ghost predicate Valid()
      reads this
    {
      Remembers(history, awaitingLLMRestart, llmBuf) && |events| <= EVENT_BUFFER
    }

    constructor ()
      ensures Valid() && history == [] && events == []
    {
      llmBuf, awaitingLLMRestart, events, history := "", false, [], [];
    }

    /** An interruption leaves exactly the user's transcriptions queued, in order: putting them back never
        finds the channel full. */
    method DiscardInterruptedOutput()
      requires |events| <= EVENT_BUFFER
      modifies this`llmBuf, this`events
      ensures llmBuf == "" && events == Transcriptions(old(events)) && |events| <= EVENT_BUFFER
    {
      llmBuf := "";
      var preserved: seq<Event> := [];
      ghost var q, n: nat := events, 0;
      var drained := true;
      while drained
        invariant n <= |q| && events == q[n..] && preserved == Transcriptions(q[..n]) && |preserved| <= n
        invariant llmBuf == "" && (!drained ==> events == [])
        decreases |events| + if drained then 1 else 0
      {
        if |events| > 0 {
          var ev := events[0];
          events := events[1..];
          assert q[..n + 1][..n] == q[..n];
          n := n + 1;
          if ev.Transcription? {
            preserved := preserved + [ev];
          }
        } else {
          drained := false;
        }
      }
      assert q[..n] == q;
      var i := 0;
      while i < |preserved|
        invariant i <= |preserved| && events == preserved[..i] && llmBuf == ""
      {
        if |events| < EVENT_BUFFER {
          events := events + [preserved[i]];
        }
        i := i + 1;
      }
    }

    /** translate and translateLLM: the event is the one the history gives the message. */
    method Translate(m: Incoming) returns (ev: Option<Event>)
      requires Valid()
      modifies this
      ensures Valid() && history == old(history) + [m] && ev == Meaning(old(history), m)
      ensures events == if m.UserStartedSpeaking? || m.BotInterrupted? then Transcriptions(old(events)) else old(events)
      ensures match m
              case BotReady => ev == Some(BotIsReady)
              case UserStartedSpeaking => ev == Some(UserStarted)
              case UserStoppedSpeaking => ev == Some(UserStopped)
              case BotInterrupted => ev == Some(Interrupted)
              case UserTranscription(final, said) => ev == if final then Some(Transcription(said)) else None
              case LLMStarted => ev == Some(ResponseStarted)
              case LLMStopped => ev == if old(awaitingLLMRestart) then None else Some(Response(old(llmBuf)))
              case TTSText(spoken) => ev == Some(Speech(spoken))
              case FunctionCall(name) => ev == Some(Call(name))
              case _ => ev == None
    {
      CutOffSnoc(history, m);
      ChunksSnoc(history, m);
      history := history + [m];
      match m
      case BotReady => return Some(BotIsReady);
      case UserStartedSpeaking =>
        DiscardInterruptedOutput();
        awaitingLLMRestart := true;
        return Some(UserStarted);
      case BotInterrupted =>
        DiscardInterruptedOutput();
        awaitingLLMRestart := true;
        return Some(Interrupted);
      case UserStoppedSpeaking => return Some(UserStopped);
      case UserTranscription(final, said) =>
        if !final {
          return None;
        }
        return Some(Transcription(said));
      case LLMStarted =>
        awaitingLLMRestart := false;
        llmBuf := "";
        return Some(ResponseStarted);
      case LLMText(chunk) =>
        if awaitingLLMRestart {
          return None;
        }
        if chunk.Some? {
          llmBuf := llmBuf + chunk.value;
        }
        return None;
      case LLMStopped =>
        if awaitingLLMRestart {
          llmBuf := "";
          return None;
        }
        var text := llmBuf;
        llmBuf := "";
        return Some(Response(text));
      case TTSText(spoken) => return Some(Speech(spoken));
      case FunctionCall(name) => return Some(Call(name));
      case Unknown => return None;
    }

    /** One turn of readLoop, the channel having room. */
    method Read(m: Incoming)
      requires Valid() && |events| < EVENT_BUFFER
      modifies this
      ensures Valid() && history == old(history) + [m]
      ensures var kept := if Interrupts(m) then Transcriptions(old(events)) else old(events);
              events == kept + match Meaning(old(history), m) case Some(ev) => [ev] case None => []
    {
      TranscriptionsFit(events);
      var ev := Translate(m);
      if ev.Some? {
        events := events + [ev.value];
      }
    }
  }

  lemma {:induction false} TranscriptionsFit(q: seq<Event>)
    ensures |Transcriptions(q)| <= |q|
  {
    if q != [] {
      TranscriptionsFit(q[..|q| - 1]);
    }
  }

  // ---------------------------------------------------------------- whole runs of reader and matcher

  /** An event with the number of the message it came from. */
  type Tagged = (Event, nat)

  /** Where the reader is: about to read, emptying the channel into what it keeps, putting that back, or
      sending the event e it is translating a message to. */
  datatype Pc = Ready | Draining(e: Tagged, kept: seq<Tagged>) | Restoring(e: Tagged, kept: seq<Tagged>) | Sending(e: Tagged)

  /** taken is what the matcher received; overtook says it received a transcription past one the reader kept
      in its hands. */
  datatype State = State(history: seq<Incoming>, queue: seq<Tagged>, pc: Pc, taken: seq<Tagged>, overtook: bool)

  /** The reader reads a message; the reader's next channel operation; the matcher receives. */
  datatype Move = Reads(m: Incoming) | Channel | Takes

  const INIT := State([], [], Ready, [], false)

  predicate Enabled(s: State, move: Move) {
    match move
    case Reads(_) => s.pc.Ready?
    case Channel => !s.pc.Ready? && (s.pc.Sending? ==> |s.queue| < EVENT_BUFFER)
    case Takes => s.queue != []
  }

  ghost function Step(s: State, move: Move): State
    requires Enabled(s, move)
  {
    match move
    case Takes =>
      s.(queue := s.queue[1..], taken := s.taken + [s.queue[0]],
         overtook := s.overtook || (s.pc.Draining? && s.pc.kept != [] && s.queue[0].0.Transcription?))
    case Reads(m) =>
      s.(history := s.history + [m],
         pc := match Meaning(s.history, m)
               case None => Ready
               case Some(ev) => if Interrupts(m) then Draining((ev, |s.history|), []) else Sending((ev, |s.history|)))
    case Channel =>
      match s.pc
      case Ready => s
      case Draining(e, kept) =>
        if s.queue == [] then s.(pc := Restoring(e, kept))
        else s.(queue := s.queue[1..], pc := Draining(e, kept + if s.queue[0].0.Transcription? then [s.queue[0]] else []))
      case Restoring(e, kept) =>
        if kept == [] then s.(pc := Sending(e))
        else s.(queue := if |s.queue| < EVENT_BUFFER then s.queue + [kept[0]] else s.queue, pc := Restoring(e, kept[1..]))
      case Sending(e) => s.(queue := s.queue + [e], pc := Ready)
  }

  ghost predicate Legal(s: State, moves: seq<Move>)
    decreases |moves|
  {
    moves == [] || (Enabled(s, moves[0]) && Legal(Step(s, moves[0]), moves[1..]))
  }

  ghost function Exec(s: State, moves: seq<Move>): State
    requires Legal(s, moves)
    decreases |moves|
  {
    if moves == [] then s else Exec(Step(s, moves[0]), moves[1..])
  }

  /** An event means what its message meant. */
  ghost predicate Means(s: State, e: Tagged) {
    e.1 < |s.history| && Meaning(s.history[..e.1], s.history[e.1]) == Some(e.0)
  }

  /** It is a transcription, or came after every interruption. */
  ghost predicate Current(s: State, e: Tagged) {
    e.0.Transcription? || forall j :: e.1 < j < |s.history| ==> !Interrupts(s.history[j])
  }

  predicate AllTranscriptions(q: seq<Tagged>) {
    forall k :: 0 <= k < |q| ==> q[k].0.Transcription?
  }

  /** What the reader holds and has yet to send or send back. */
  function InHand(pc: Pc): seq<Tagged> {
    match pc
    case Draining(e, kept) => kept + [e]
    case Restoring(e, kept) => kept + [e]
    case Sending(e) => [e]
    case Ready => []
  }

  /** Nothing is invented; there is room to put back what is kept; and outside a discard in progress nothing
      the bot put out before the latest interruption is queued. */
  ghost predicate Fresh(s: State) {
    (forall k :: 0 <= k < |s.queue| ==> Means(s, s.queue[k]))
    && (forall k :: 0 <= k < |InHand(s.pc)| ==> Means(s, InHand(s.pc)[k]) && Current(s, InHand(s.pc)[k]))
    && |s.queue| <= EVENT_BUFFER
    && (!s.pc.Draining? ==> forall k :: 0 <= k < |s.queue| ==> Current(s, s.queue[k]))
    && (s.pc.Draining? || s.pc.Restoring? ==>
          |s.queue| + |s.pc.kept| <= EVENT_BUFFER && AllTranscriptions(s.pc.kept) && !s.pc.e.0.Transcription?)
  }

  lemma ReadKeepsFresh(s: State, m: Incoming)
    requires Fresh(s) && s.pc.Ready?
    ensures Fresh(Step(s, Reads(m)))
  {
    var s' := Step(s, Reads(m));
    forall k | 0 <= k < |s.queue| ensures Means(s', s.queue[k]) {
      assert Means(s, s.queue[k]);
      assert s'.history[..s.queue[k].1] == s.history[..s.queue[k].1];
    }
    assert s'.history[..|s.history|] == s.history;
    assert s'.pc.Draining? ==> InHand(s'.pc) == [s'.pc.e];
    if !Interrupts(m) {
      forall k | 0 <= k < |s.queue| ensures Current(s', s.queue[k]) {
        assert Current(s, s.queue[k]);
      }
    }
  }

  lemma DrainKeepsFresh(s: State)
    requires Fresh(s) && s.pc.Draining?
    ensures Fresh(Step(s, Channel))
  {
    var s', hand := Step(s, Channel), InHand(s.pc);
    assert hand[|hand| - 1] == s.pc.e;
    if s.queue != [] {
      assert Means(s, s.queue[0]);
      forall k | 0 <= k < |InHand(s'.pc)| ensures Means(s', InHand(s'.pc)[k]) && Current(s', InHand(s'.pc)[k]) {
        if k < |s.pc.kept| {
          assert InHand(s'.pc)[k] == hand[k];
        } else {
          assert InHand(s'.pc)[k] == s.queue[0] || InHand(s'.pc)[k] == s.pc.e;
        }
      }
    }
  }

  lemma RestoreKeepsFresh(s: State)
    requires Fresh(s) && s.pc.Restoring?
    ensures Fresh(Step(s, Channel))
  {
    var s', hand := Step(s, Channel), InHand(s.pc);
    if s.pc.kept != [] {
      assert Means(s, hand[0]) && Current(s, hand[0]);
      assert InHand(s'.pc) == hand[1..];
    } else {
      assert hand == [s.pc.e];
    }
  }

  lemma ChannelKeepsFresh(s: State)
    requires Fresh(s) && Enabled(s, Channel)
    ensures Fresh(Step(s, Channel))
  {
    match s.pc
    case Draining(_, _) => DrainKeepsFresh(s);
    case Restoring(_, _) => RestoreKeepsFresh(s);
    case Sending(_) => assert Means(s, InHand(s.pc)[0]) && Current(s, InHand(s.pc)[0]);
    case Ready =>
  }

  lemma TakeKeepsFresh(s: State)
    requires Fresh(s) && Enabled(s, Takes)
    ensures Fresh(Step(s, Takes))
  {
    var s' := Step(s, Takes);
    assert forall k :: 0 <= k < |s'.queue| ==> s'.queue[k] == s.queue[k + 1];
    assert InHand(s'.pc) == InHand(s.pc);
  }

  lemma {:induction false} RunKeepsFresh(s: State, moves: seq<Move>)
    requires Fresh(s) && Legal(s, moves)
    ensures Fresh(Exec(s, moves))
    decreases |moves|
  {
    if moves != [] {
      match moves[0] {
        case Reads(m) => ReadKeepsFresh(s, m);
        case Channel => ChannelKeepsFresh(s);
        case Takes => TakeKeepsFresh(s);
      }
      RunKeepsFresh(Step(s, moves[0]), moves[1..]);
    }
  }

  /** In every run of reader and matcher, each receive and send a step of its own: what is queued is what its
      messages meant; outside a discard in progress nothing the bot put out before the latest interruption is
      left to match; and putting a transcription back never finds the channel full. */
  lemma NothingStaleQueued(moves: seq<Move>)
    requires Legal(INIT, moves)
    ensures Fresh(Exec(INIT, moves))
    ensures Exec(INIT, moves).pc.Restoring? && Exec(INIT, moves).pc.kept != [] ==> |Exec(INIT, moves).queue| < EVENT_BUFFER
  {
    RunKeepsFresh(INIT, moves);
  }

  /** So a queued response holds text from after the latest interruption only. */
  lemma ResponseIsFresh(moves: seq<Move>, k: nat)
    requires Legal(INIT, moves) && !Exec(INIT, moves).pc.Draining?
    requires k < |Exec(INIT, moves).queue| && Exec(INIT, moves).queue[k].0.Response?
    ensures var history, at := Exec(INIT, moves).history, Exec(INIT, moves).queue[k].1;
            at < |history|
            && Exec(INIT, moves).queue[k].0.text == Chunks(history[..at][Bound(history[..at])..])
            && forall i :: 0 <= i < |history| && Interrupts(history[i]) ==> i < Bound(history[..at])
  {
    NothingStaleQueued(moves);
    var s := Exec(INIT, moves);
    var at := s.queue[k].1;
    assert Means(s, s.queue[k]) && Current(s, s.queue[k]);
    var h := s.history[..at];
    forall i | 0 <= i < |s.history| && Interrupts(s.history[i]) ensures i < Bound(h) {
      assert s.history[at] == LLMStopped;
      assert Interrupts(h[i]);
      var st :| i < st < |h| && h[st].LLMStarted?;
      assert Bounds(h[st]);
    }
  }

  // ---------------------------------------------------------------- the order of transcriptions

  /** The transcriptions among q, in order. */
  function Spoken(q: seq<Tagged>): seq<Tagged> {
    if q == [] then [] else (if q[0].0.Transcription? then [q[0]] else []) + Spoken(q[1..])
  }

  /** The transcriptions still to be received, in the order they will be if none is overtaken. */
  function Still(s: State): seq<Tagged> {
    if s.pc.Draining? then s.pc.kept + Spoken(s.queue) else Spoken(s.queue) + Spoken(InHand(s.pc))
  }

  /** Every transcription so far: those received, then those still to be. */
  function Line(s: State): seq<Tagged> {
    Spoken(s.taken) + Still(s)
  }

  ghost predicate Ascending(q: seq<Tagged>) {
    forall i, j :: 0 <= i < j < |q| ==> q[i].1 < q[j].1
  }

  /** Of two transcriptions the later message's was received first. */
  ghost predicate Inverted(got: seq<Tagged>, still: seq<Tagged>) {
    (exists p, q :: 0 <= p < q < |got| && got[p].1 > got[q].1)
    || exists p, q :: 0 <= p < |got| && 0 <= q < |still| && got[p].1 > still[q].1
  }

  lemma {:induction false} SpokenConcat(p: seq<Tagged>, q: seq<Tagged>)
    ensures Spoken(p + q) == Spoken(p) + Spoken(q)
  {
    if p == [] {
      assert p + q == q;
    } else {
      assert (p + q)[1..] == p[1..] + q;
      SpokenConcat(p[1..], q);
      SeqAssoc(if p[0].0.Transcription? then [p[0]] else [], Spoken(p[1..]), Spoken(q));
    }
  }

  lemma {:induction false} SpokenAll(q: seq<Tagged>)
    requires AllTranscriptions(q)
    ensures Spoken(q) == q
  {
    if q != [] {
      SpokenAll(q[1..]);
    }
  }

  lemma SpokenOne(e: Tagged)
    ensures Spoken([e]) == if e.0.Transcription? then [e] else []
  {
    assert [e][1..] == [];
  }

  lemma {:induction false} SpokenMember(q: seq<Tagged>, n: nat)
    requires forall k :: 0 <= k < |q| ==> q[k].1 < n
    ensures forall k :: 0 <= k < |Spoken(q)| ==> Spoken(q)[k].1 < n
  {
    if q != [] {
      SpokenMember(q[1..], n);
    }
  }

  lemma DrainedKeepsLine(s: State)
    requires Fresh(s) && s.pc.Draining? && s.queue == []
    ensures Still(Step(s, Channel)) == Still(s)
  {
    var kept, e := s.pc.kept, s.pc.e;
    SpokenAll(kept);
    SpokenConcat(kept, [e]);
    SpokenOne(e);
    assert Spoken(kept + [e]) == kept;
    assert kept + [] == kept && [] + kept == kept;
  }

  lemma DrainKeepsLine(s: State)
    requires s.pc.Draining? && s.queue != []
    ensures Still(Step(s, Channel)) == Still(s)
  {
    var head := if s.queue[0].0.Transcription? then [s.queue[0]] else [];
    SeqAssoc(s.pc.kept, head, Spoken(s.queue[1..]));
  }

  lemma SeqAssoc(a: seq<Tagged>, b: seq<Tagged>, c: seq<Tagged>)
    ensures a + (b + c) == (a + b) + c
  {
  }

  lemma RestoreKeepsLine(s: State)
    requires Fresh(s) && s.pc.Restoring?
    ensures Still(Step(s, Channel)) == Still(s)
  {
    var kept, hand := s.pc.kept, InHand(s.pc);
    if kept == [] {
      assert hand == [s.pc.e];
    } else {
      var rest := kept[1..] + [s.pc.e];
      assert hand == [kept[0]] + rest;
      SpokenConcat(s.queue, [kept[0]]);
      SpokenConcat([kept[0]], rest);
      SeqAssoc(Spoken(s.queue), Spoken([kept[0]]), Spoken(rest));
    }
  }

  lemma SendKeepsLine(s: State)
    requires s.pc.Sending? && Enabled(s, Channel)
    ensures Still(Step(s, Channel)) == Still(s)
  {
    SpokenConcat(s.queue, [s.pc.e]);
    assert Spoken(s.queue + [s.pc.e]) + Spoken([]) == Spoken(s.queue) + Spoken([s.pc.e]);
  }

  /** The reader's own channel operations leave the line of transcriptions as it is. */
  lemma ChannelKeepsLine(s: State)
    requires Fresh(s) && Enabled(s, Channel)
    ensures Still(Step(s, Channel)) == Still(s)
  {
    match s.pc
    case Draining(_, _) =>
      if s.queue == [] {
        DrainedKeepsLine(s);
      } else {
        DrainKeepsLine(s);
      }
    case Restoring(_, _) => RestoreKeepsLine(s);
    case Sending(_) => SendKeepsLine(s);
    case Ready =>
  }

  /** A message read adds at most its own transcription, at the end. */
  lemma ReadExtendsLine(s: State, m: Incoming)
    requires Fresh(s) && s.pc.Ready?
    ensures var s' := Step(s, Reads(m));
            Still(s') == Still(s)
            || exists e: Tagged :: e.1 == |s.history| && Still(s') == Still(s) + [e]
  {
    var s' := Step(s, Reads(m));
    assert Still(s) == Spoken(s.queue) + Spoken([]) == Spoken(s.queue);
    if s'.pc.Sending? {
      SpokenOne(s'.pc.e);
      if s'.pc.e.0.Transcription? {
        assert Still(s') == Still(s) + [s'.pc.e];
      } else {
        assert Still(s') == Spoken(s.queue) + [];
      }
    } else if s'.pc.Draining? {
      assert Still(s') == [] + Spoken(s.queue);
    }
  }

  /** Every transcription in the line came from a message read. */
  ghost predicate LineBelow(s: State) {
    (forall k :: 0 <= k < |Spoken(s.taken)| ==> Spoken(s.taken)[k].1 < |s.history|)
    && forall k :: 0 <= k < |Still(s)| ==> Still(s)[k].1 < |s.history|
  }

  /** The matcher taking the next event. */
  lemma TakeMovesLine(s: State)
    requires Fresh(s) && Enabled(s, Takes)
    ensures var s', e := Step(s, Takes), s.queue[0];
            Spoken(s'.taken) == Spoken(s.taken) + (if e.0.Transcription? then [e] else [])
            && (if !e.0.Transcription? then Still(s') == Still(s)
                else if s.pc.Draining? then
                  Still(s) == s.pc.kept + ([e] + Spoken(s'.queue)) && Still(s') == s.pc.kept + Spoken(s'.queue)
                else Still(s) == [e] + Still(s'))
  {
    var e, rest := s.queue[0], s.queue[1..];
    SpokenConcat(s.taken, [e]);
    SpokenOne(e);
    assert Step(s, Takes).queue == rest && Step(s, Takes).taken == s.taken + [e];
    assert Spoken(s.queue) == (if e.0.Transcription? then [e] + Spoken(rest) else Spoken(rest));
    if e.0.Transcription? && !s.pc.Draining? {
      SeqAssoc([e], Spoken(rest), Spoken(InHand(s.pc)));
    }
  }

  /** In order, or out of order for good. */
  ghost predicate OrderInv(s: State) {
    LineBelow(s) && (if s.overtook then Inverted(Spoken(s.taken), Still(s)) else Ascending(Line(s)))
  }

  lemma ReadKeepsOrder(s: State, m: Incoming)
    requires Fresh(s) && s.pc.Ready? && OrderInv(s)
    ensures OrderInv(Step(s, Reads(m)))
  {
    var s' := Step(s, Reads(m));
    ReadExtendsLine(s, m);
    if Still(s') != Still(s) {
      var e: Tagged :| e.1 == |s.history| && Still(s') == Still(s) + [e];
      if s.overtook {
        StaysInverted(Spoken(s.taken), Still(s), Spoken(s.taken), Still(s'));
      } else {
        assert Line(s') == Line(s) + [e];
        LineIsBelow(s);
      }
    }
  }

  lemma LineIsBelow(s: State)
    requires LineBelow(s)
    ensures forall k :: 0 <= k < |Line(s)| ==> Line(s)[k].1 < |s.history|
  {
  }

  lemma StaysInverted(got: seq<Tagged>, still: seq<Tagged>, got': seq<Tagged>, still': seq<Tagged>)
    requires Inverted(got, still) && got <= got'
    requires forall x :: x in still ==> x in still' || x in got'[|got|..]
    ensures Inverted(got', still')
  {
    if p, q :| 0 <= p < q < |got| && got[p].1 > got[q].1 {
      assert got'[p].1 > got'[q].1;
    } else {
      var p, q :| 0 <= p < |got| && 0 <= q < |still| && got[p].1 > still[q].1;
      assert still[q] in still;
      if still[q] in still' {
        var k :| 0 <= k < |still'| && still'[k] == still[q];
        assert got'[p].1 > still'[k].1;
      } else {
        var k :| 0 <= k < |got'[|got|..]| && got'[|got|..][k] == still[q];
        assert got'[p].1 > got'[|got| + k].1;
      }
    }
  }

  lemma TakeKeepsOrder(s: State)
    requires Fresh(s) && Enabled(s, Takes) && OrderInv(s)
    ensures OrderInv(Step(s, Takes))
  {
    var s', e := Step(s, Takes), s.queue[0];
    var got, still, got', still' := Spoken(s.taken), Still(s), Spoken(s'.taken), Still(s');
    TakeMovesLine(s);
    if !e.0.Transcription? {
      assert got' == got;
    } else {
      TakeKeepsBelow(s, e);
      assert got' == got + [e];
      if s.overtook {
        StaysInverted(got, still, got', still');
      } else if s'.overtook {
        Overtakes(s, e);
      } else {
        FirstMoves(got, still, e, still');
      }
    }
  }

  lemma FirstMoves(got: seq<Tagged>, still: seq<Tagged>, e: Tagged, rest: seq<Tagged>)
    requires still == [e] + rest
    ensures (got + [e]) + rest == got + still
  {
  }

  lemma TakeKeepsBelow(s: State, e: Tagged)
    requires Fresh(s) && Enabled(s, Takes) && LineBelow(s) && e == s.queue[0] && e.0.Transcription?
    ensures LineBelow(Step(s, Takes))
  {
    var s', still := Step(s, Takes), Still(s);
    TakeMovesLine(s);
    var n := if s.pc.Draining? then |s.pc.kept| else 0;
    assert still[n] == e;
    forall k | 0 <= k < |Still(s')| ensures Still(s')[k].1 < |s.history| {
      assert Still(s')[k] == still[if k < n then k else k + 1];
    }
  }

  lemma Overtakes(s: State, e: Tagged)
    requires s.queue != [] && s.pc.Draining? && s.pc.kept != [] && Ascending(Line(s))
    requires Still(s) == s.pc.kept + ([e] + Spoken(s.queue[1..]))
    ensures Inverted(Spoken(s.taken) + [e], s.pc.kept + Spoken(s.queue[1..]))
  {
    var got, kept := Spoken(s.taken), s.pc.kept;
    assert Line(s)[|got|] == kept[0] && Line(s)[|got| + |kept|] == e;
    assert (got + [e])[|got|].1 > (kept + Spoken(s.queue[1..]))[0].1;
  }

  lemma {:induction false} RunKeepsOrder(s: State, moves: seq<Move>)
    requires Fresh(s) && OrderInv(s) && Legal(s, moves)
    ensures OrderInv(Exec(s, moves))
    decreases |moves|
  {
    if moves != [] {
      match moves[0] {
        case Reads(m) =>
          ReadKeepsFresh(s, m);
          ReadKeepsOrder(s, m);
        case Channel =>
          ChannelKeepsFresh(s);
          ChannelKeepsLine(s);
        case Takes =>
          TakeKeepsFresh(s);
          TakeKeepsOrder(s);
      }
      RunKeepsOrder(Step(s, moves[0]), moves[1..]);
    }
  }

  lemma InvertedIsNotAscending(got: seq<Tagged>, still: seq<Tagged>)
    requires Inverted(got, still)
    ensures !Ascending(got + still)
  {
    var line := got + still;
    if p, q :| 0 <= p < q < |got| && got[p].1 > got[q].1 {
      assert line[p].1 > line[q].1;
    } else {
      var p, q :| 0 <= p < |got| && 0 <= q < |still| && got[p].1 > still[q].1;
      assert line[p].1 > line[|got| + q].1;
    }
  }

  /** The matcher receives the user's transcriptions in the order they were said if and only if it never
      received one while the reader, in the middle of a discard, held an earlier one: those received, followed
      by those still to come, are then in order, and otherwise not. */
  lemma TranscriptionsInOrderIff(moves: seq<Move>)
    requires Legal(INIT, moves)
    ensures Ascending(Line(Exec(INIT, moves))) <==> !Exec(INIT, moves).overtook
  {
    RunKeepsOrder(INIT, moves);
    var s := Exec(INIT, moves);
    if s.overtook {
      InvertedIsNotAscending(Spoken(s.taken), Still(s));
    }
  }

  // ---------------------------------------------------------------- claiming calls

  /** The names of the calls among the events. */
  function CallNames(q: seq<Event>): seq<string> {
    if q == [] then [] else (if q[0].Call? then [q[0].name] else []) + CallNames(q[1..])
  }

  /** An empty name claims any call. */
  predicate Claims(want: string, name: string) {
    want == "" || name == want
  }

  class Matcher {
    /** Calls read while looking for another. */
    var pendingCalls: seq<string>
    /** What arrives before the deadline and has not been read. */
    var events: seq<Event>

    constructor (events: seq<Event>)
      ensures pendingCalls == [] && this.events == events
    {
      pendingCalls := [];
      this.events := events;
    }

    /** The calls there are to claim. */
    ghost function Open(): multiset<string>
      reads this
    {
      multiset(pendingCalls) + multiset(CallNames(events))
    }

    /** Claims one of the calls read earlier. */
    method ClaimPending(name: string) returns (claimed: Option<string>)
      modifies this`pendingCalls
      ensures claimed.Some? ==>
                Claims(name, claimed.value) && claimed.value in multiset(old(pendingCalls))
                && multiset(old(pendingCalls)) == multiset(pendingCalls) + multiset{claimed.value}
      ensures claimed == None ==> pendingCalls == old(pendingCalls) && NoneClaimed(name, pendingCalls)
      ensures claimed.Some? ==> exists i :: 0 <= i < |old(pendingCalls)| && old(pendingCalls)[i] == claimed.value
                                          && NoneClaimed(name, old(pendingCalls)[..i])
                                          && pendingCalls == old(pendingCalls)[..i] + old(pendingCalls)[i + 1..]
    {
      var i := 0;
      while i < |pendingCalls|
        invariant i <= |pendingCalls| && pendingCalls == old(pendingCalls)
        invariant NoneClaimed(name, pendingCalls[..i])
      {
        if Claims(name, pendingCalls[i]) {
          claimed := Some(pendingCalls[i]);
          WithoutOne(pendingCalls, i);
          pendingCalls := pendingCalls[..i] + pendingCalls[i + 1..];
          return;
        }
        i := i + 1;
      }
      assert pendingCalls[..i] == pendingCalls;
      return None;
    }

    /** Reads on, putting the calls it does not claim with the others: up to the first call it claims, what is
        behind that staying queued, or to the end. */
    method ReadOn(name: string) returns (claimed: Option<string>, ghost read: nat)
      requires NoneClaimed(name, pendingCalls)
      modifies this
      ensures claimed.Some? ==> Claims(name, claimed.value) && old(Open()) == Open() + multiset{claimed.value}
      ensures claimed == None ==> Open() == old(Open()) && events == [] && NoneClaimed(name, pendingCalls)
      ensures read <= |old(events)| && NoneClaimed(name, CallNames(old(events)[..read]))
      ensures pendingCalls == old(pendingCalls) + CallNames(old(events)[..read])
      ensures if claimed == None then read == |old(events)|
              else read < |old(events)| && old(events)[read] == Call(claimed.value) && events == old(events)[read + 1..]
    {
      ghost var p, q := pendingCalls, events;
      read := 0;
      while true
        invariant read <= |q| && events == q[read..]
        invariant pendingCalls == p + CallNames(q[..read]) && NoneClaimed(name, CallNames(q[..read]))
        decreases |events|
      {
        if |events| == 0 {
          AllRead(p, q);
          assert q[..read] == q;
          return None, read;
        }
        var ev := events[0];
        NextCall(q, read);
        events := events[1..];
        if !ev.Call? {
          read := read + 1;
          continue;
        }
        if Claims(name, ev.name) {
          ClaimedOne(p, q, read);
          return Some(ev.name), read;
        }
        pendingCalls := pendingCalls + [ev.name];
        read := read + 1;
      }
    }

    method NextFunctionCall(name: string) returns (claimed: Option<string>)
      modifies this
      ensures claimed.Some? ==> Claims(name, claimed.value) && old(Open()) == Open() + multiset{claimed.value}
      ensures claimed == None ==> Open() == old(Open()) && forall c :: c in Open() ==> !Claims(name, c)
      ensures !NoneClaimed(name, old(pendingCalls)) ==> events == old(events)
      ensures NoneClaimed(name, old(pendingCalls)) && claimed.Some? ==>
                exists k :: 0 <= k < |old(events)| && old(events)[k] == Call(claimed.value) && events == old(events)[k + 1..]
                            && NoneClaimed(name, CallNames(old(events)[..k]))
    {
      claimed := ClaimPending(name);
      if claimed.Some? {
        return;
      }
      ghost var read: nat;
      claimed, read := ReadOn(name);
      if claimed == None {
        assert Open() == multiset(pendingCalls);
      }
    }

    /** With every expected call named, it passes exactly when the expected names are among the calls pending
        or arriving before the deadline, each as often as it is expected, whatever the order. Whatever the
        outcome, what was claimed and what is still open make up what there was to claim. */
    method MatchFunctionCalls(wanted: seq<string>) returns (passed: bool, matched: seq<string>)
      modifies this
      ensures old(Open()) == Open() + multiset(matched)
      ensures passed <==> |matched| == |wanted|
      ensures Fits(wanted, matched)
      ensures AllNamed(wanted) ==> (passed <==> multiset(wanted) <= old(Open()))
    {
      matched := [];
      ghost var all := Open();
      var i := 0;
      while i < |wanted|
        invariant |matched| == i && Fits(wanted, matched)
        invariant all == Open() + multiset(matched)
      {
        ghost var was := Open();
        var claimed := NextFunctionCall(wanted[i]);
        if claimed == None {
          NotAmong(wanted, matched, all, was);
          return false, matched;
        }
        OneMore(all, was, matched, claimed.value, Open());
        FitsOneMore(wanted, matched, claimed.value);
        matched := matched + [claimed.value];
        i := i + 1;
      }
      AllAmong(wanted, matched, all, Open());
      return true, matched;
    }
  }

  /** Each call matched is one the expectation in its place claims. */
  predicate Fits(wanted: seq<string>, matched: seq<string>) {
    |matched| <= |wanted| && forall j :: 0 <= j < |matched| ==> Claims(wanted[j], matched[j])
  }

  lemma FitsOneMore(wanted: seq<string>, matched: seq<string>, c: string)
    requires Fits(wanted, matched) && |matched| < |wanted| && Claims(wanted[|matched|], c)
    ensures Fits(wanted, matched + [c])
  {
  }

  lemma OneMore(all: multiset<string>, was: multiset<string>, matched: seq<string>, c: string, open: multiset<string>)
    requires all == was + multiset(matched) && was == open + multiset{c}
    ensures all == open + multiset(matched + [c])
  {
  }

  lemma AllAmong(wanted: seq<string>, matched: seq<string>, all: multiset<string>, open: multiset<string>)
    requires Fits(wanted, matched) && |matched| == |wanted| && all == open + multiset(matched)
    ensures AllNamed(wanted) ==> multiset(wanted) <= all
  {
    if AllNamed(wanted) {
      assert matched == wanted;
    }
  }

  predicate NoneClaimed(name: string, q: seq<string>) {
    forall j :: 0 <= j < |q| ==> !Claims(name, q[j])
  }

  /** No expected call takes just any call. */
  predicate AllNamed(wanted: seq<string>) {
    forall i :: 0 <= i < |wanted| ==> wanted[i] != ""
  }

  lemma WithoutOne(q: seq<string>, i: nat)
    requires i < |q|
    ensures multiset(q) == multiset(q[..i] + q[i + 1..]) + multiset{q[i]}
  {
    assert q == q[..i] + [q[i]] + q[i + 1..];
  }

  lemma {:induction false} NextCall(q: seq<Event>, k: nat)
    requires k < |q|
    ensures CallNames(q[..k + 1]) == CallNames(q[..k]) + if q[k].Call? then [q[k].name] else []
  {
    if k == 0 {
      assert q[..1][1..] == [] && q[..0] == [];
    } else {
      NextCall(q[1..], k - 1);
      assert q[..k + 1][1..] == q[1..][..k] && q[..k][1..] == q[1..][..k - 1];
    }
  }

  lemma {:induction false} CallsSplit(q: seq<Event>, k: nat)
    requires k <= |q|
    ensures CallNames(q) == CallNames(q[..k]) + CallNames(q[k..])
  {
    if k > 0 {
      CallsSplit(q[1..], k - 1);
      assert q[..k][1..] == q[1..][..k - 1] && q[k..] == q[1..][k - 1..];
    }
  }

  /** What is open when everything has been read. */
  lemma AllRead(pending: seq<string>, q: seq<Event>)
    ensures multiset(pending + CallNames(q)) + multiset(CallNames([])) == multiset(pending) + multiset(CallNames(q))
  {
  }

  /** And when the k-th event was claimed. */
  lemma ClaimedOne(pending: seq<string>, q: seq<Event>, k: nat)
    requires k < |q| && q[k].Call?
    ensures multiset(pending) + multiset(CallNames(q))
            == multiset(pending + CallNames(q[..k])) + multiset(CallNames(q[k + 1..])) + multiset{q[k].name}
  {
    CallsSplit(q, k);
    assert q[k..][1..] == q[k + 1..];
  }

  /** A name that is gone once its predecessors are claimed is not there often enough. */
  lemma NotAmong(wanted: seq<string>, matched: seq<string>, all: multiset<string>, open: multiset<string>)
    requires |matched| < |wanted| && all == open + multiset(matched) && Fits(wanted, matched)
    requires forall c :: c in open ==> !Claims(wanted[|matched|], c)
    ensures AllNamed(wanted) ==> !(multiset(wanted) <= all)
  {
    if AllNamed(wanted) {
      var i := |matched|;
      assert matched == wanted[..i];
      assert wanted == wanted[..i] + [wanted[i]] + wanted[i + 1..];
      assert wanted[i] !in open;
      assert multiset(wanted)[wanted[i]] >= all[wanted[i]] + 1;
    }
  }
}
