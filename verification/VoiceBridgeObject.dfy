/** The bridge object: its fields as the class declares them, one method per operation. A valid bridge
    is in the state its history of events leads to, so the theorems about runs hold of it. */
module VoiceBridgeObject {
  import opened Options
  import opened VoiceBridge
  import VoiceBridgeGating
  import VoiceBridgeDelivery

  class OpenAIRealtimeVoiceBridge {
    const config: Config
    var wsOpen: bool
    var connected: bool
    var sessionConfigured: bool
    var responseActive: bool
    var responseCreateInFlight: bool
    var responseCancelInFlight: bool
    var responseCreatePending: bool
    var continuingToolCallIds: set<string>
    var markQueue: nat
    var lastAssistantItemId: Option<string>
    var responseStartTimestamp: Option<int>
    var latestMediaTimestamp: int
    var toolCallBuffers: map<string, ToolBuffer>
    var deliveredToolCallKeys: set<string>
    var pendingAudio: seq<Chunk>
    ghost var trace: seq<Mark>
    ghost var calls: seq<Call>
    ghost var fed: seq<Feed>
    ghost var submitted: seq<Submission>
    ghost var upstream: seq<Chunk>
    ghost var history: seq<Event>

    ghost predicate Valid()
      reads this
    {
      View() == Run(config, history)
    }

    ghost function GateView(): Gate
      reads this`responseActive, this`responseCreateInFlight, this`responseCancelInFlight,
            this`responseCreatePending, this`continuingToolCallIds, this`trace
    {
      Gate(responseActive, responseCreateInFlight, responseCancelInFlight, responseCreatePending,
           continuingToolCallIds, trace)
    }

    ghost function PlayView(): Playback
      reads this`markQueue, this`lastAssistantItemId, this`responseStartTimestamp, this`latestMediaTimestamp
    {
      Playback(markQueue, lastAssistantItemId, responseStartTimestamp, latestMediaTimestamp)
    }

    ghost function ToolsView(): Tools
      reads this`toolCallBuffers, this`deliveredToolCallKeys, this`calls, this`fed
    {
      Tools(toolCallBuffers, deliveredToolCallKeys, calls, fed)
    }

    ghost function AudioView(): Audio
      reads this`pendingAudio, this`submitted, this`upstream
    {
      Audio(pendingAudio, submitted, upstream)
    }

    ghost function LinkView(): Link
      reads this`wsOpen, this`connected, this`sessionConfigured
    {
      Link(wsOpen, connected, sessionConfigured)
    }

    ghost function View(): State
      reads this
    {
      State(LinkView(), GateView(), PlayView(), ToolsView(), AudioView())
    }

    constructor (config: Config)
      ensures this.config == config && Valid() && history == []
    {
      this.config := config;
      wsOpen, connected, sessionConfigured := false, false, false;
      responseActive, responseCreateInFlight := false, false;
      responseCancelInFlight, responseCreatePending := false, false;
      continuingToolCallIds, toolCallBuffers, deliveredToolCallKeys := {}, map[], {};
      markQueue, lastAssistantItemId, responseStartTimestamp, latestMediaTimestamp := 0, None, None, 0;
      pendingAudio, trace, calls, fed, submitted, upstream, history := [], [], [], [], [], [], [];
    }

    /** `e` led from `before`, where the history leads, to the present state. */
    ghost method Record(before: State, e: Event)
      requires View() == Step(config, before, e)
      requires before == Run(config, history)
      modifies this`history
      ensures Valid() && history == old(history) + [e]
    {
      assert (history + [e])[..|history|] == history;
      history := history + [e];
    }

    // -------------------------------------------------------------- what a valid bridge guarantees

    /** Two creates, or two cancels, on the wire have a release between them. */
    lemma OneRequestAtATime(r: VoiceBridgeGating.Request, i: nat, j: nat)
      requires Valid() && i < j < |trace|
      requires VoiceBridgeGating.Sends(trace[i], r) && VoiceBridgeGating.Sends(trace[j], r)
      ensures exists k :: i < k < j && VoiceBridgeGating.Releases(trace[k], r)
    {
      VoiceBridgeGating.OneAtATime(config, history, r, i, j);
    }

    /** No item was handed over twice, and each call's arguments are explained by its completion. */
    lemma CallsAreExplained(i: nat)
      requires Valid() && i < |calls|
      ensures forall j :: 0 <= j < |calls| && j != i && calls[i].itemId != "unknown" ==>
                calls[j].itemId != calls[i].itemId
      ensures exists n: nat :: VoiceBridgeDelivery.Explains(config, history, n, calls[i])
    {
      VoiceBridgeDelivery.AlwaysOnce(config, history);
      VoiceBridgeDelivery.ArgumentsAreOwnDeltas(config, history, i);
    }

    /** What was sent upstream and then what is queued is what was submitted and not dropped. */
    lemma AudioIsInOrder()
      requires Valid()
      ensures VoiceBridgeDelivery.KeptChunks(submitted) == upstream + pendingAudio
      ensures connected && sessionConfigured && wsOpen ==> pendingAudio == []
      ensures |pendingAudio| <= MAX_QUEUED_AUDIO
      ensures forall i :: 0 <= i < |submitted| && !submitted[i].kept ==> submitted[i].queued == MAX_QUEUED_AUDIO
    {
      VoiceBridgeDelivery.AlwaysInOrder(config, history);
    }

    // -------------------------------------------------------------- connection

    method ResetRealtimeSessionState()
      modifies this`responseActive, this`responseCreateInFlight, this`responseCancelInFlight,
               this`responseCreatePending, this`continuingToolCallIds, this`trace, this`markQueue,
               this`lastAssistantItemId, this`responseStartTimestamp, this`toolCallBuffers,
               this`deliveredToolCallKeys, this`calls, this`fed
      ensures !responseActive && !responseCreateInFlight && !responseCancelInFlight && !responseCreatePending
      ensures continuingToolCallIds == {} && trace == old(trace) + [Opened]
      ensures markQueue == 0 && lastAssistantItemId == None && responseStartTimestamp == None
      ensures toolCallBuffers == map[] && deliveredToolCallKeys == {} && calls == [] && fed == old(fed) + [Reset]
    {
      markQueue := 0;
      responseStartTimestamp := None;
      lastAssistantItemId := None;
      responseActive := false;
      responseCreateInFlight := false;
      responseCancelInFlight := false;
      responseCreatePending := false;
      continuingToolCallIds := {};
      trace := trace + [Opened];
      toolCallBuffers := map[];
      deliveredToolCallKeys := {};
      fed := fed + [Reset];
      calls := [];
    }

    method OnSocketOpen()
      requires Valid()
      modifies this
      ensures Valid() && history == old(history) + [Open]
    {
      ghost var before := View();
      ResetRealtimeSessionState();
      wsOpen := true;
      connected := true;
      sessionConfigured := false;
      Record(before, Open);
    }

    method OnSocketClose()
      requires Valid()
      modifies this`connected, this`sessionConfigured, this`history
      ensures Valid() && history == old(history) + [Closed]
    {
      ghost var before := View();
      connected := false;
      sessionConfigured := false;
      Record(before, Closed);
    }

    /** The socket closes, or `doConnect` puts a connecting one in its place. */
    method OnSocketNotOpen()
      requires Valid()
      modifies this`wsOpen, this`history
      ensures Valid() && history == old(history) + [Closing]
    {
      ghost var before := View();
      wsOpen := false;
      Record(before, Closing);
    }

    method Close()
      requires Valid()
      modifies this`wsOpen, this`connected, this`sessionConfigured, this`history
      ensures Valid() && history == old(history) + [Event.Close]
    {
      ghost var before := View();
      connected := false;
      sessionConfigured := false;
      wsOpen := false;
      Record(before, Event.Close);
    }

    // -------------------------------------------------------------- response gating

    method RequestResponseCreate()
      modifies this`responseCreatePending, this`responseCreateInFlight, this`trace
      ensures GateView() == VoiceBridge.RequestResponseCreate(old(GateView()), wsOpen)
    {
      if responseActive || responseCreateInFlight || responseCancelInFlight || |continuingToolCallIds| > 0 {
        responseCreatePending := true;
        return;
      }
      responseCreatePending := false;
      responseCreateInFlight := true;
      if wsOpen { trace := trace + [SentCreate]; }
    }

    method FlushPendingResponseCreate()
      modifies this`responseCreatePending, this`responseCreateInFlight, this`trace
      ensures GateView() == VoiceBridge.FlushPendingResponseCreate(old(GateView()), wsOpen)
    {
      if !responseCreatePending {
        return;
      }
      responseCreatePending := false;
      RequestResponseCreate();
    }

    method SendUserMessage()
      requires Valid()
      modifies this`responseCreatePending, this`responseCreateInFlight, this`trace, this`history
      ensures Valid() && history == old(history) + [UserMessage]
    {
      ghost var before := View();
      RequestResponseCreate();
      Record(before, UserMessage);
    }

    method SubmitToolResult(callId: string, willContinue: bool, suppressResponse: bool)
      requires Valid()
      modifies this`continuingToolCallIds, this`responseCreatePending, this`responseCreateInFlight, this`trace,
               this`history
      ensures Valid() && history == old(history) + [ToolResult(callId, willContinue, suppressResponse)]
    {
      ghost var before := View();
      TrackToolResult(callId, willContinue, suppressResponse);
      Record(before, ToolResult(callId, willContinue, suppressResponse));
    }

    method TrackToolResult(callId: string, willContinue: bool, suppressResponse: bool)
      modifies this`continuingToolCallIds, this`responseCreatePending, this`responseCreateInFlight, this`trace
      ensures GateView()
           == VoiceBridge.SubmitToolResult(old(GateView()), wsOpen, callId, willContinue, suppressResponse)
    {
      if willContinue {
        continuingToolCallIds := continuingToolCallIds + {callId};
        return;
      }
      continuingToolCallIds := continuingToolCallIds - {callId};
      if suppressResponse {
        return;
      }
      RequestResponseCreate();
    }

    method OnResponseCreated()
      requires Valid()
      modifies this`responseActive, this`responseCreateInFlight, this`trace, this`history
      ensures Valid() && history == old(history) + [OnCreated]
    {
      ghost var before := View();
      StartResponse();
      Record(before, OnCreated);
    }

    method StartResponse()
      modifies this`responseActive, this`responseCreateInFlight, this`trace
      ensures GateView() == Log(old(GateView()), ServerCreated).(responseActive := true, createInFlight := false)
    {
      trace := trace + [ServerCreated];
      responseActive := true;
      responseCreateInFlight := false;
    }

    method OnResponseEnded()
      requires Valid()
      modifies this`responseActive, this`responseCreateInFlight, this`responseCancelInFlight,
               this`responseCreatePending, this`trace, this`history
      ensures Valid() && history == old(history) + [OnEnded]
    {
      ghost var before := View();
      EndResponse();
      Record(before, OnEnded);
    }

    method EndResponse()
      modifies this`responseActive, this`responseCreateInFlight, this`responseCancelInFlight,
               this`responseCreatePending, this`trace
      ensures GateView() == ResponseEnded(old(GateView()), wsOpen)
    {
      trace := trace + [ServerEnded];
      responseActive := false;
      responseCreateInFlight := false;
      responseCancelInFlight := false;
      FlushPendingResponseCreate();
    }

    method OnActiveResponseError()
      requires Valid()
      modifies this`responseActive, this`responseCreateInFlight, this`responseCreatePending, this`trace,
               this`history
      ensures Valid() && history == old(history) + [Event.OnActiveResponseError]
    {
      ghost var before := View();
      DeferRefusedCreate();
      Record(before, Event.OnActiveResponseError);
    }

    method DeferRefusedCreate()
      modifies this`responseActive, this`responseCreateInFlight, this`responseCreatePending, this`trace
      ensures GateView() == ActiveResponseError(old(GateView()))
    {
      trace := trace + [ServerActiveError];
      responseActive := true;
      responseCreateInFlight := false;
      responseCreatePending := true;
    }

    method OnNoActiveResponseError()
      requires Valid()
      modifies this`responseActive, this`responseCreateInFlight, this`responseCancelInFlight,
               this`responseCreatePending, this`trace, this`history
      ensures Valid() && history == old(history) + [Event.OnNoActiveResponseError]
    {
      ghost var before := View();
      DropRefusedCancel();
      Record(before, Event.OnNoActiveResponseError);
    }

    method DropRefusedCancel()
      modifies this`responseActive, this`responseCreateInFlight, this`responseCancelInFlight,
               this`responseCreatePending, this`trace
      ensures GateView() == NoActiveResponseError(old(GateView()), wsOpen)
    {
      trace := trace + [ServerNoActiveError];
      responseActive := false;
      responseCancelInFlight := false;
      FlushPendingResponseCreate();
    }

    method CancelActiveResponse(audioPlaybackActive: bool)
      modifies this`responseCancelInFlight, this`trace
      ensures GateView() == CancelFor(old(GateView()), wsOpen, audioPlaybackActive)
    {
      if audioPlaybackActive && responseActive && !responseCancelInFlight {
        if wsOpen { trace := trace + [SentCancel]; }
        responseCancelInFlight := true;
      }
    }

    method HandleBargeIn(force: bool, audioPlaybackActive: bool)
      requires Valid()
      modifies this`responseCancelInFlight, this`trace, this`markQueue, this`lastAssistantItemId,
               this`responseStartTimestamp, this`history
      ensures Valid() && history == old(history) + [Event.Interrupt(force, audioPlaybackActive)]
    {
      ghost var before := View();
      Interrupt(force, audioPlaybackActive);
      Record(before, Event.Interrupt(force, audioPlaybackActive));
    }

    method OnSpeechStarted()
      requires Valid()
      modifies this`responseCancelInFlight, this`trace, this`markQueue, this`lastAssistantItemId,
               this`responseStartTimestamp, this`history
      ensures Valid() && history == old(history) + [Event.OnSpeechStarted]
    {
      ghost var before := View();
      if config.interruptOnSpeech {
        Interrupt(false, false);
      }
      Record(before, Event.OnSpeechStarted);
    }

    method Interrupt(force: bool, audioPlaybackActive: bool)
      modifies this`responseCancelInFlight, this`trace, this`markQueue, this`lastAssistantItemId,
               this`responseStartTimestamp
      ensures View() == BargeIn(config, old(View()), force, audioPlaybackActive)
    {
      CancelAndTruncate(force, audioPlaybackActive);
    }

    /** A barge-in that comes too early changes nothing; any other forgets the item being played, and
        cancels the response only if audio is playing. */
    method CancelAndTruncate(force: bool, audioPlaybackActive: bool)
      modifies this`responseCancelInFlight, this`trace, this`markQueue, this`lastAssistantItemId,
               this`responseStartTimestamp
      ensures GateView()
           == BargeInGate(config, old(GateView()), old(PlayView()), wsOpen, force, audioPlaybackActive)
      ensures PlayView() == BargeInPlay(config, old(PlayView()), force, audioPlaybackActive)
    {
      var shouldInterrupt := lastAssistantItemId.Some?
        && ((responseStartTimestamp.Some? && (markQueue > 0 || audioPlaybackActive)) || force);
      var elapsed := latestMediaTimestamp - responseStartTimestamp.GetOr(0);
      var audioEndMs := if elapsed < 0 then 0 else elapsed;
      if !force && shouldInterrupt && audioEndMs < config.minBargeInAudioEndMs {
        return;
      }
      CancelActiveResponse(audioPlaybackActive);
      if shouldInterrupt {
        markQueue := 0;
        lastAssistantItemId := None;
        responseStartTimestamp := None;
      }
    }

    method OnOutputAudio(itemId: Option<string>)
      requires Valid()
      modifies this`lastAssistantItemId, this`responseStartTimestamp, this`responseActive, this`markQueue,
               this`history
      ensures Valid() && history == old(history) + [OnAudio(itemId)]
    {
      ghost var before := View();
      TrackPlayback(itemId);
      responseActive := true;
      Record(before, OnAudio(itemId));
    }

    method TrackPlayback(itemId: Option<string>)
      modifies this`lastAssistantItemId, this`responseStartTimestamp, this`markQueue
      ensures PlayView() == AudioDelta(old(PlayView()), itemId)
    {
      if itemId.Some? && itemId.value != "" && itemId != lastAssistantItemId {
        lastAssistantItemId := itemId;
        responseStartTimestamp := Some(latestMediaTimestamp);
      } else if responseStartTimestamp.None? {
        responseStartTimestamp := Some(latestMediaTimestamp);
      }
      markQueue := markQueue + 1;
    }

    method AcknowledgeMark()
      requires Valid()
      modifies this`markQueue, this`history
      ensures Valid() && history == old(history) + [Event.AcknowledgeMark]
    {
      ghost var before := View();
      if markQueue > 0 {
        markQueue := markQueue - 1;
      }
      Record(before, Event.AcknowledgeMark);
    }

    method SetMediaTimestamp(ts: int)
      requires Valid()
      modifies this`latestMediaTimestamp, this`history
      ensures Valid() && history == old(history) + [MediaTime(ts)]
    {
      ghost var before := View();
      latestMediaTimestamp := ts;
      Record(before, MediaTime(ts));
    }

    // -------------------------------------------------------------- tool calls

    method OnArgumentsDelta(itemId: Option<string>, name: Option<string>, callId: Option<string>, delta: Option<string>)
      requires Valid()
      modifies this`toolCallBuffers, this`fed, this`history
      ensures Valid() && history == old(history) + [OnArgsDelta(itemId, name, callId, delta)]
    {
      ghost var before := View();
      BufferArguments(itemId, name, callId, delta);
      Record(before, OnArgsDelta(itemId, name, callId, delta));
    }

    method BufferArguments(itemId: Option<string>, name: Option<string>, callId: Option<string>, delta: Option<string>)
      modifies this`toolCallBuffers, this`fed
      ensures ToolsView() == ArgumentsDelta(old(ToolsView()), itemId, name, callId, delta)
    {
      var key := itemId.GetOr("unknown");
      fed := fed + [Delta(itemId, delta.GetOr(""))];
      if key in toolCallBuffers && delta.GetOr("") != "" {
        var existing := toolCallBuffers[key];
        toolCallBuffers := toolCallBuffers[key := existing.(args := existing.args + delta.GetOr(""))];
      } else if itemId.Some? && itemId.value != "" {
        toolCallBuffers :=
          toolCallBuffers[itemId.value := ToolBuffer(name.GetOr(""), callId.GetOr(""), delta.GetOr(""))];
      }
    }

    method EmitToolCallOnce(
      itemId: Option<string>, callId: Option<string>, name: Option<string>, rawArgs: Option<string>)
      modifies this`deliveredToolCallKeys, this`calls
      ensures ToolsView() == VoiceBridge.EmitToolCallOnce(config, old(ToolsView()), itemId, callId, name, rawArgs)
    {
      if !config.hasToolCallHandler {
        return;
      }
      var item := Or(itemId, Or(callId, Some("unknown"))).GetOr("unknown");
      var call := Or(callId, Some(item)).GetOr(item);
      var key := DedupeKey(itemId, callId, name, rawArgs);
      if key in deliveredToolCallKeys {
        return;
      }
      deliveredToolCallKeys := deliveredToolCallKeys + {key};
      calls := calls + [Call(key, item, call, name.GetOr(""), rawArgs)];
    }

    method OnArgumentsDone(
      itemId: Option<string>, name: Option<string>, callId: Option<string>, arguments: Option<string>)
      requires Valid()
      modifies this`toolCallBuffers, this`deliveredToolCallKeys, this`calls, this`fed, this`history
      ensures Valid() && history == old(history) + [OnArgsDone(itemId, name, callId, arguments)]
    {
      ghost var before := View();
      FinishArguments(itemId, name, callId, arguments);
      Record(before, OnArgsDone(itemId, name, callId, arguments));
    }

    method FinishArguments(
      itemId: Option<string>, name: Option<string>, callId: Option<string>, arguments: Option<string>)
      modifies this`toolCallBuffers, this`deliveredToolCallKeys, this`calls, this`fed
      ensures ToolsView() == ArgumentsDone(config, old(ToolsView()), itemId, callId, name, arguments)
    {
      var key := itemId.GetOr("unknown");
      if key in toolCallBuffers {
        var b := toolCallBuffers[key];
        EmitToolCallOnce(itemId, Or(Some(b.callId), callId), Or(Some(b.name), name), Or(Some(b.args), arguments));
      } else {
        EmitToolCallOnce(itemId, callId, name, arguments);
      }
      toolCallBuffers := toolCallBuffers - {key};
      fed := fed + [Finished(key)];
    }

    method OnConversationItemDone(
      itemId: Option<string>, name: Option<string>, callId: Option<string>, arguments: Option<string>)
      requires Valid()
      modifies this`deliveredToolCallKeys, this`calls, this`history
      ensures Valid() && history == old(history) + [OnItemDone(itemId, name, callId, arguments)]
    {
      ghost var before := View();
      EmitToolCallOnce(itemId, if callId.Some? then callId else itemId, name, arguments);
      Record(before, OnItemDone(itemId, name, callId, arguments));
    }

    // -------------------------------------------------------------- audio

    /** `sendAudio`, which the flush of queued audio calls too. */
    method SendAudio(audio: Chunk)
      modifies this`pendingAudio, this`upstream
      ensures AudioView() == VoiceBridge.SendAudio(old(AudioView()), Ready(LinkView()), audio)
    {
      if !connected || !sessionConfigured || !wsOpen {
        if |pendingAudio| < MAX_QUEUED_AUDIO {
          pendingAudio := pendingAudio + [audio];
        }
        return;
      }
      upstream := upstream + [audio];
    }

    /** `sendAudio` called from outside. */
    method SubmitAudio(audio: Chunk)
      requires Valid()
      modifies this`pendingAudio, this`submitted, this`upstream, this`history
      ensures Valid() && history == old(history) + [Submit(audio)]
    {
      ghost var before := View();
      submitted := submitted
        + [Submission(audio, Ready(LinkView()) || |pendingAudio| < MAX_QUEUED_AUDIO, |pendingAudio|)];
      SendAudio(audio);
      Record(before, Submit(audio));
    }

    method OnSessionUpdated()
      requires Valid()
      modifies this`sessionConfigured, this`pendingAudio, this`upstream, this`history
      ensures Valid() && history == old(history) + [Event.OnSessionUpdated]
    {
      ghost var before := View();
      FlushQueuedAudio();
      Record(before, Event.OnSessionUpdated);
    }

    /** The queue is taken out and every chunk sent again, which keeps it all and in order. */
    method FlushQueuedAudio()
      modifies this`sessionConfigured, this`pendingAudio, this`upstream
      ensures LinkView() == old(LinkView()).(configured := true)
      ensures AudioView() == SendAll(old(AudioView()).(pending := []), Ready(LinkView()), old(pendingAudio))
      ensures |old(pendingAudio)| <= MAX_QUEUED_AUDIO ==>
                upstream + pendingAudio == old(upstream + pendingAudio)
    {
      sessionConfigured := true;
      var chunks := pendingAudio;
      pendingAudio := [];
      ghost var emptied := AudioView();
      for n := 0 to |chunks|
        invariant LinkView() == old(LinkView()).(configured := true)
        invariant AudioView() == SendAll(emptied, Ready(LinkView()), chunks[..n])
      {
        assert chunks[..n + 1][..n] == chunks[..n];
        SendAudio(chunks[n]);
      }
      assert chunks[..|chunks|] == chunks;
      if |chunks| <= MAX_QUEUED_AUDIO {
        VoiceBridgeDelivery.SendAllDrains(emptied, Ready(LinkView()), chunks);
      }
    }
  }
}
