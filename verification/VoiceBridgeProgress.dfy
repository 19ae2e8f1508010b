/** What the realtime voice bridge's steps bring about: creates that are sent, kept or withheld,
    interruptions that take effect, and what a new connection forgets. */
module VoiceBridgeProgress {
  import opened Options
  import opened VoiceBridge
  import opened VoiceBridgeDelivery

  // ---------------------------------------------------------------- creates

  /** Nothing stands in the way of a response. */
  predicate Idle(g: Gate) { !g.responseActive && !g.createInFlight && !g.cancelInFlight && g.continuing == {} }

  /** From `g`, with `m` noted first, a create went out (on the wire if the socket is open). */
  predicate Requested(g: Gate, noted: seq<Mark>, open: bool, after: Gate) {
    && after.trace == g.trace + noted + (if open then [SentCreate] else [])
    && after.createInFlight && !after.createPending
  }

  /** Main theorem. The end of a response sends the deferred create, unless a tool call continues, in
      which case it stays deferred; without a deferred create nothing is sent. */
  lemma EndSendsDeferred(cfg: Config, s: State)
    ensures var g, after := s.gate, Step(cfg, s, OnEnded).gate;
            && !after.responseActive && !after.cancelInFlight && after.continuing == g.continuing
            && (if g.createPending && g.continuing == {} then Requested(g, [ServerEnded], s.link.wsOpen, after)
                else after.trace == g.trace + [ServerEnded] && !after.createInFlight
                     && after.createPending == g.createPending)
  {
  }

  /** So does a refused cancel, unless a create is in flight. */
  lemma RefusedCancelSendsDeferred(cfg: Config, s: State)
    ensures var g, after := s.gate, Step(cfg, s, OnNoActiveResponseError).gate;
            && !after.responseActive && !after.cancelInFlight && after.continuing == g.continuing
            && (if g.createPending && g.continuing == {} && !g.createInFlight
                then Requested(g, [ServerNoActiveError], s.link.wsOpen, after)
                else after.trace == g.trace + [ServerNoActiveError] && after.createInFlight == g.createInFlight
                     && after.createPending == g.createPending)
  {
  }

  /** A user message, or the final result of a tool call that is not suppressed, requests a response: at
      once when nothing is in the way (the call itself no longer is), otherwise deferred. */
  lemma RequestsAreMade(cfg: Config, s: State, callId: string)
    ensures var g, after := s.gate, Step(cfg, s, UserMessage).gate;
            if Idle(g) then Requested(g, [], s.link.wsOpen, after)
            else after == g.(createPending := true)
    ensures var g, after := s.gate, Step(cfg, s, ToolResult(callId, false, false)).gate;
            && after.continuing == g.continuing - {callId}
            && (if Idle(g.(continuing := g.continuing - {callId})) then Requested(g, [], s.link.wsOpen, after)
                else after.createPending && after.trace == g.trace)
  {
    assert s.gate.trace + [] == s.gate.trace;
  }

  /** A result that will continue only adds its call to those in the way; a suppressed final one only
      takes it out. */
  lemma OtherResultsRequestNothing(cfg: Config, s: State, callId: string, suppress: bool)
    ensures Step(cfg, s, ToolResult(callId, true, suppress)).gate == s.gate.(continuing := s.gate.continuing + {callId})
    ensures Step(cfg, s, ToolResult(callId, false, true)).gate == s.gate.(continuing := s.gate.continuing - {callId})
  {
  }

  /** What the server says of responses: a created one is active and no longer in flight; a create it
      refuses because one is active is deferred. */
  lemma ServerReportsCount(cfg: Config, s: State)
    ensures var after := Step(cfg, s, OnCreated).gate;
            after.responseActive && !after.createInFlight && after.createPending == s.gate.createPending
    ensures var after := Step(cfg, s, OnActiveResponseError).gate;
            after.responseActive && !after.createInFlight && after.createPending
  {
  }

  /** Main theorem. No step forgets a deferred create: it stays deferred until it is sent, or until a new
      connection starts afresh. */
  lemma DeferredIsNeverForgotten(cfg: Config, s: State, e: Event)
    requires s.gate.createPending && !e.Open?
    ensures var after := Step(cfg, s, e).gate;
            || after.createPending
            || (after.createInFlight && s.gate.trace <= after.trace
                && (s.link.wsOpen ==> after.trace != [] && after.trace[|after.trace| - 1] == SentCreate))
  {
    match e
    case OnEnded => EndSendsDeferred(cfg, s);
    case OnNoActiveResponseError => RefusedCancelSendsDeferred(cfg, s);
    case UserMessage => RequestsAreMade(cfg, s, "");
    case ToolResult(id, willContinue, suppress) => RequestsAreMade(cfg, s, id);
    case Interrupt(force, playback) => InterruptTakesEffect(cfg, s, force, playback);
    case OnSpeechStarted => InterruptTakesEffect(cfg, s, false, false);
    case OnSessionUpdated => assert Step(cfg, s, e).gate == s.gate;
    case _ =>
  }

  // ---------------------------------------------------------------- interruptions and playback

  /** The item being played can be cut off. */
  predicate CanCut(p: Playback, force: bool, playback: bool) {
    p.lastItem.Some? && (force || (p.startedAt.Some? && (p.marks > 0 || playback)))
  }

  function Played(p: Playback): int {
    var ms := p.mediaTime - if p.startedAt.Some? then p.startedAt.value else 0;
    if ms < 0 then 0 else ms
  }

  /** Main theorem. A barge-in is ignored only if it is not forced and would cut off an item that has
      played less than the minimum. Any other cancels the active response once, if audio is playing, and
      forgets the item if it can be cut off. */
  lemma InterruptTakesEffect(cfg: Config, s: State, force: bool, playback: bool)
    ensures var cut := CanCut(s.play, force, playback);
            var after := Step(cfg, s, Interrupt(force, playback));
            if !force && cut && Played(s.play) < cfg.minBargeInAudioEndMs then after == s
            else
              && after == s.(gate := after.gate, play := after.play)
              && after.play == (if cut then s.play.(marks := 0, lastItem := None, startedAt := None) else s.play)
              && (if playback && s.gate.responseActive && !s.gate.cancelInFlight then
                    after.gate == s.gate.(cancelInFlight := true,
                                          trace := s.gate.trace + if s.link.wsOpen then [SentCancel] else [])
                  else after.gate == s.gate)
  {
    assert s.gate.trace + [] == s.gate.trace;
  }

  /** Speech interrupts as an unforced barge-in without playback, if the configuration says so. */
  lemma SpeechInterrupts(cfg: Config, s: State)
    ensures Step(cfg, s, OnSpeechStarted)
         == if cfg.interruptOnSpeech then Step(cfg, s, Interrupt(false, false)) else s
  {
  }

  /** Audio of a new item starts the playback clock, as does any audio while the clock is stopped; each
      piece is one mark to be acknowledged. */
  lemma AudioIsTracked(cfg: Config, s: State, item: Option<string>)
    ensures var p, after := s.play, Step(cfg, s, OnAudio(item));
            var fresh' := item.Some? && item.value != "" && item != p.lastItem;
            && after.gate.responseActive && after.play.marks == p.marks + 1 && after.play.mediaTime == p.mediaTime
            && after.play.lastItem == (if fresh' then item else p.lastItem)
            && after.play.startedAt == (if fresh' || p.startedAt.None? then Some(p.mediaTime) else p.startedAt)
    ensures Step(cfg, s, AcknowledgeMark).play
         == s.play.(marks := if s.play.marks > 0 then s.play.marks - 1 else 0)
    ensures forall ts :: Step(cfg, s, MediaTime(ts)).play == s.play.(mediaTime := ts)
  {
  }

  // ---------------------------------------------------------------- connections

  /** A new connection has nothing in the way of a response, remembers no delivered item and no buffered
      arguments, and waits for its configuration; queued audio is kept. */
  lemma OpenStartsAfresh(cfg: Config, s: State)
    ensures var t := Step(cfg, s, Open);
            && Idle(t.gate) && !t.gate.createPending && t.gate.trace == s.gate.trace + [Opened]
            && t.tools.buffers == map[] && t.tools.delivered == {} && t.tools.calls == []
            && t.play.marks == 0 && t.play.lastItem.None? && t.play.startedAt.None?
            && t.link == Link(true, true, false) && t.audio == s.audio
  {
  }

  /** Audio goes upstream only after the configuration, and not once the connection is lost. */
  lemma LinkDecidesAudio(cfg: Config, s: State, chunk: Chunk)
    ensures Step(cfg, s, Submit(chunk)).audio.upstream
         == s.audio.upstream + if s.link.connected && s.link.configured && s.link.wsOpen then [chunk] else []
    ensures Step(cfg, s, OnSessionUpdated).link == s.link.(configured := true)
    ensures forall e :: e == Closed || e == Close ==>
              !Step(cfg, s, e).link.connected && !Step(cfg, s, e).link.configured
    ensures !Step(cfg, s, Closing).link.wsOpen && !Step(cfg, s, Close).link.wsOpen
  {
    assert s.audio.upstream + [] == s.audio.upstream;
  }

  // ---------------------------------------------------------------- who is called

  /** The first delta of an item brings the name and call id that go with its arguments; later ones add
      text only. */
  lemma DeltasKeepTheName(
    cfg: Config, s: State, k: string, name: Option<string>, call: Option<string>, text: string)
    requires Named(k) && text != ""
    ensures var t, after := s.tools, Step(cfg, s, OnArgsDelta(Some(k), name, call, Some(text))).tools.buffers;
            && k in after
            && (if k in t.buffers then after[k].name == t.buffers[k].name && after[k].callId == t.buffers[k].callId
                else after[k].name == name.GetOr("") && after[k].callId == call.GetOr(""))
  {
  }

  /** The first of two texts that is not empty, if any. */
  function FirstText(a: string, b: Option<string>, otherwise: string): string {
    if a != "" then a else if b.Some? && b.value != "" then b.value else otherwise
  }

  /** Main theorem. A call delivered by `function_call_arguments.done` has the buffered name and call id,
      else those of the event, else no name and the item's own id; one delivered by
      `conversation.item.done` has the event's. */
  lemma CallsAreNamed(
    cfg: Config, s: State, k: string, name: Option<string>, call: Option<string>, arguments: Option<string>)
    requires Named(k) && cfg.hasToolCallHandler && k !in s.tools.delivered
    ensures var t, calls := s.tools, Step(cfg, s, OnArgsDone(Some(k), name, call, arguments)).tools.calls;
            var b := if k in t.buffers then t.buffers[k] else ToolBuffer("", "", "");
            && |calls| == |t.calls| + 1
            && calls[|t.calls|].name == FirstText(b.name, name, "")
            && calls[|t.calls|].callId == FirstText(b.callId, call, k)
    ensures var t, calls := s.tools, Step(cfg, s, OnItemDone(Some(k), name, call, arguments)).tools.calls;
            && |calls| == |t.calls| + 1
            && calls[|t.calls|].name == FirstText("", name, "") && calls[|t.calls|].callId == FirstText("", call, k)
  {
  }
}
