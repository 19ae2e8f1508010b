/** The OpenAI realtime voice bridge (extensions/openai/realtime-voice-provider.ts): gating of
    `response.create` and `response.cancel`, tool-call arguments, and queued audio. The bridge's
    fields are grouped by the concern they serve. */
module VoiceBridge {
  import opened Options

  const MAX_QUEUED_AUDIO: nat := 320

  datatype Config = Config(hasToolCallHandler: bool, minBargeInAudioEndMs: int, interruptOnSpeech: bool)

  datatype Link = Link(wsOpen: bool, connected: bool, configured: bool)

  /** JavaScript's `a || b` on optional strings. */
  function Or(a: Option<string>, b: Option<string>): Option<string> {
    if a.Some? && a.value != "" then a else b
  }

  // ---------------------------------------------------------------- response gating

  /** History, in order: requests put on the wire, and what the server and the socket did. */
  datatype Mark =
    | SentCreate | SentCancel
    | ServerCreated | ServerEnded | ServerActiveError | ServerNoActiveError
    | Opened

  datatype Gate = Gate(
    responseActive: bool, createInFlight: bool, cancelInFlight: bool, createPending: bool,
    continuing: set<string>, trace: seq<Mark>)

  function Log(g: Gate, m: Mark): Gate { g.(trace := g.trace + [m]) }

  /** `sendEvent` writes only while the socket is open. */
  function Send(g: Gate, open: bool, m: Mark): Gate { if open then Log(g, m) else g }

  predicate Blocked(g: Gate) {
    g.responseActive || g.createInFlight || g.cancelInFlight || g.continuing != {}
  }

  function RequestResponseCreate(g: Gate, open: bool): Gate {
    if Blocked(g) then g.(createPending := true)
    else Send(g.(createPending := false, createInFlight := true), open, SentCreate)
  }

  function FlushPendingResponseCreate(g: Gate, open: bool): Gate {
    if !g.createPending then g else RequestResponseCreate(g.(createPending := false), open)
  }

  function SubmitToolResult(g: Gate, open: bool, callId: string, willContinue: bool, suppress: bool): Gate {
    if willContinue then g.(continuing := g.continuing + {callId})
    else
      var rest := g.(continuing := g.continuing - {callId});
      if suppress then rest else RequestResponseCreate(rest, open)
  }

  function ResponseEnded(g: Gate, open: bool): Gate {
    FlushPendingResponseCreate(
      Log(g, ServerEnded).(responseActive := false, createInFlight := false, cancelInFlight := false), open)
  }

  function ActiveResponseError(g: Gate): Gate {
    Log(g, ServerActiveError).(responseActive := true, createInFlight := false, createPending := true)
  }

  function NoActiveResponseError(g: Gate, open: bool): Gate {
    FlushPendingResponseCreate(
      Log(g, ServerNoActiveError).(responseActive := false, cancelInFlight := false), open)
  }

  function CancelFor(g: Gate, open: bool, playback: bool): Gate {
    if playback && g.responseActive && !g.cancelInFlight
    then Send(g, open, SentCancel).(cancelInFlight := true) else g
  }

  // ---------------------------------------------------------------- playback

  datatype Playback = Playback(marks: nat, lastItem: Option<string>, startedAt: Option<int>, mediaTime: int)

  function AudioDelta(p: Playback, itemId: Option<string>): Playback {
    var changed := itemId.Some? && itemId.value != "" && itemId != p.lastItem;
    p.(lastItem := if changed then itemId else p.lastItem,
       startedAt := if changed || p.startedAt.None? then Some(p.mediaTime) else p.startedAt,
       marks := p.marks + 1)
  }

  predicate Interrupts(p: Playback, force: bool, playback: bool) {
    p.lastItem.Some? && ((p.startedAt.Some? && (p.marks > 0 || playback)) || force)
  }

  function PlayedMs(p: Playback): int {
    var elapsed := p.mediaTime - p.startedAt.GetOr(0);
    if elapsed < 0 then 0 else elapsed
  }

  predicate TooEarly(cfg: Config, p: Playback, force: bool, playback: bool) {
    !force && Interrupts(p, force, playback) && PlayedMs(p) < cfg.minBargeInAudioEndMs
  }

  function BargeInGate(cfg: Config, g: Gate, p: Playback, open: bool, force: bool, playback: bool): Gate {
    if TooEarly(cfg, p, force, playback) then g else CancelFor(g, open, playback)
  }

  function BargeInPlay(cfg: Config, p: Playback, force: bool, playback: bool): Playback {
    if Interrupts(p, force, playback) && !TooEarly(cfg, p, force, playback)
    then p.(marks := 0, lastItem := None, startedAt := None) else p
  }

  function BargeIn(cfg: Config, s: State, force: bool, playback: bool): State {
    s.(gate := BargeInGate(cfg, s.gate, s.play, s.link.wsOpen, force, playback),
       play := BargeInPlay(cfg, s.play, force, playback))
  }

  // ---------------------------------------------------------------- tool calls

  datatype ToolBuffer = ToolBuffer(name: string, callId: string, args: string)

  /** A tool call handed to `onToolCall`, with the key it was deduplicated by. */
  datatype Call = Call(key: string, itemId: string, callId: string, name: string, rawArgs: Option<string>)

  /** History of argument events, in order. */
  datatype Feed = Delta(itemId: Option<string>, text: string) | Finished(key: string) | Reset

  datatype Tools = Tools(buffers: map<string, ToolBuffer>, delivered: set<string>, calls: seq<Call>, fed: seq<Feed>)

  function ArgumentsDelta(
    t: Tools, itemId: Option<string>, name: Option<string>, callId: Option<string>, delta: Option<string>): Tools
  {
    var key := itemId.GetOr("unknown");
    var text := delta.GetOr("");
    var fed := t.fed + [Delta(itemId, text)];
    if key in t.buffers && text != "" then
      var b := t.buffers[key];
      t.(buffers := t.buffers[key := b.(args := b.args + text)], fed := fed)
    else if itemId.Some? && itemId.value != "" then
      t.(buffers := t.buffers[key := ToolBuffer(name.GetOr(""), callId.GetOr(""), text)], fed := fed)
    else t.(fed := fed)
  }

  function DedupeKey(
    itemId: Option<string>, callId: Option<string>, name: Option<string>, rawArgs: Option<string>): string
  {
    var fallback := name.GetOr("") + ":" + rawArgs.GetOr("");
    Or(itemId, Or(callId, Some(fallback))).GetOr(fallback)
  }

  function EmitToolCallOnce(
    cfg: Config, t: Tools, itemId: Option<string>, callId: Option<string>, name: Option<string>,
    rawArgs: Option<string>): Tools
  {
    var item := Or(itemId, Or(callId, Some("unknown"))).GetOr("unknown");
    var call := Or(callId, Some(item)).GetOr(item);
    var key := DedupeKey(itemId, callId, name, rawArgs);
    if !cfg.hasToolCallHandler || key in t.delivered then t
    else t.(delivered := t.delivered + {key}, calls := t.calls + [Call(key, item, call, name.GetOr(""), rawArgs)])
  }

  function ArgumentsDone(
    cfg: Config, t: Tools, itemId: Option<string>, callId: Option<string>, name: Option<string>,
    arguments: Option<string>): Tools
  {
    var key := itemId.GetOr("unknown");
    var emitted :=
      if key in t.buffers then
        var b := t.buffers[key];
        EmitToolCallOnce(
          cfg, t, itemId, Or(Some(b.callId), callId), Or(Some(b.name), name), Or(Some(b.args), arguments))
      else EmitToolCallOnce(cfg, t, itemId, callId, name, arguments);
    emitted.(buffers := emitted.buffers - {key}, fed := emitted.fed + [Finished(key)])
  }

  // ---------------------------------------------------------------- audio

  type Chunk = int // one audio buffer

  /** History: one `sendAudio` from the caller, whether it was kept, and how many were queued. */
  datatype Submission = Submission(chunk: Chunk, kept: bool, queued: nat)

  datatype Audio = Audio(pending: seq<Chunk>, submitted: seq<Submission>, upstream: seq<Chunk>)

  predicate Ready(l: Link) { l.connected && l.configured && l.wsOpen }

  function SendAudio(a: Audio, ready: bool, chunk: Chunk): Audio {
    if ready then a.(upstream := a.upstream + [chunk])
    else if |a.pending| < MAX_QUEUED_AUDIO then a.(pending := a.pending + [chunk])
    else a
  }

  function SubmitAudio(a: Audio, ready: bool, chunk: Chunk): Audio {
    var kept := ready || |a.pending| < MAX_QUEUED_AUDIO;
    SendAudio(a.(submitted := a.submitted + [Submission(chunk, kept, |a.pending|)]), ready, chunk)
  }

  function SendAll(a: Audio, ready: bool, chunks: seq<Chunk>): Audio {
    if chunks == [] then a
    else SendAudio(SendAll(a, ready, chunks[..|chunks| - 1]), ready, chunks[|chunks| - 1])
  }

  // ---------------------------------------------------------------- the bridge

  datatype State = State(link: Link, gate: Gate, play: Playback, tools: Tools, audio: Audio)

  const Initial := State(
    Link(false, false, false), Gate(false, false, false, false, {}, []), Playback(0, None, None, 0),
    Tools(map[], {}, [], []), Audio([], [], []))

  /** The socket opened: `resetRealtimeSessionState`, then `session.update`. Queued audio stays. */
  function SocketOpened(s: State): State {
    State(
      Link(true, true, false),
      Gate(false, false, false, false, {}, s.gate.trace + [Opened]),
      Playback(0, None, None, s.play.mediaTime),
      Tools(map[], {}, [], s.tools.fed + [Reset]),
      s.audio)
  }

  /** `session.updated`: the queue is taken out and every chunk sent again. */
  function SessionUpdated(s: State): State {
    var link := s.link.(configured := true);
    s.(link := link, audio := SendAll(s.audio.(pending := []), Ready(link), s.audio.pending))
  }

  datatype Event =
    | Open
    | Closing                                  // the current socket leaves OPEN, or a new one connects
    | Closed                                   // the close event of this or an earlier socket
    | Close                                    // `close()`
    | Submit(chunk: Chunk)
    | UserMessage
    | ToolResult(callId: string, willContinue: bool, suppress: bool)
    | AcknowledgeMark
    | MediaTime(ts: int)
    | Interrupt(force: bool, playback: bool)
    | OnSessionUpdated
    | OnCreated
    | OnAudio(itemId: Option<string>)          // an output audio delta that carries audio
    | OnSpeechStarted
    | OnEnded                                  // response.done or response.cancelled
    | OnArgsDelta(item: Option<string>, name: Option<string>, call: Option<string>, delta: Option<string>)
    | OnArgsDone(item: Option<string>, name: Option<string>, call: Option<string>, arguments: Option<string>)
    | OnItemDone(item: Option<string>, name: Option<string>, call: Option<string>, arguments: Option<string>)
    | OnActiveResponseError
    | OnNoActiveResponseError

  function Step(cfg: Config, s: State, e: Event): State {
    var open := s.link.wsOpen;
    match e
    case Open => SocketOpened(s)
    case Closing => s.(link := s.link.(wsOpen := false))
    case Closed => s.(link := s.link.(connected := false, configured := false))
    case Close => s.(link := Link(false, false, false))
    case Submit(chunk) => s.(audio := SubmitAudio(s.audio, Ready(s.link), chunk))
    case UserMessage => s.(gate := RequestResponseCreate(s.gate, open))
    case ToolResult(id, willContinue, suppress) =>
      s.(gate := SubmitToolResult(s.gate, open, id, willContinue, suppress))
    case AcknowledgeMark => if s.play.marks == 0 then s else s.(play := s.play.(marks := s.play.marks - 1))
    case MediaTime(ts) => s.(play := s.play.(mediaTime := ts))
    case Interrupt(force, playback) => BargeIn(cfg, s, force, playback)
    case OnSessionUpdated => SessionUpdated(s)
    case OnCreated => s.(gate := Log(s.gate, ServerCreated).(responseActive := true, createInFlight := false))
    case OnAudio(item) => s.(gate := s.gate.(responseActive := true), play := AudioDelta(s.play, item))
    case OnSpeechStarted => if cfg.interruptOnSpeech then BargeIn(cfg, s, false, false) else s
    case OnEnded => s.(gate := ResponseEnded(s.gate, open))
    case OnArgsDelta(item, name, call, delta) => s.(tools := ArgumentsDelta(s.tools, item, name, call, delta))
    case OnArgsDone(item, name, call, arguments) =>
      s.(tools := ArgumentsDone(cfg, s.tools, item, call, name, arguments))
    case OnItemDone(item, name, call, arguments) =>
      s.(tools := EmitToolCallOnce(cfg, s.tools, item, if call.Some? then call else item, name, arguments))
    case OnActiveResponseError => s.(gate := ActiveResponseError(s.gate))
    case OnNoActiveResponseError => s.(gate := NoActiveResponseError(s.gate, open))
  }

  function Run(cfg: Config, events: seq<Event>): State {
    if events == [] then Initial else Step(cfg, Run(cfg, events[..|events| - 1]), events[|events| - 1])
  }
}
