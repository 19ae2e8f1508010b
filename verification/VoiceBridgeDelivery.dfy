/** What the realtime voice bridge delivers: tool calls once each with their own arguments, and audio
    in order. */
module VoiceBridgeDelivery {
  import opened Options
  import opened VoiceBridge

  // ---------------------------------------------------------------- argument demultiplexing

  /** Item ids that name an item of their own: the empty id is never buffered, and "unknown" is what
      the bridge substitutes for a missing one. */
  predicate Named(k: string) { k != "" && k != "unknown" }

  /** Everything the server sent for item `k` since the item last finished or the socket reopened. */
  function Whole(fed: seq<Feed>, k: string): string {
    if fed == [] then ""
    else
      var init, last := fed[..|fed| - 1], fed[|fed| - 1];
      match last
      case Delta(item, text) => if item == Some(k) then Whole(init, k) + text else Whole(init, k)
      case Finished(key) => if key == k then "" else Whole(init, k)
      case Reset => ""
  }

  /** The part of it the bridge keeps: an empty delta starts the item over. */
  function Kept(fed: seq<Feed>, k: string): string {
    if fed == [] then ""
    else
      var init, last := fed[..|fed| - 1], fed[|fed| - 1];
      match last
      case Delta(item, text) =>
        if item != Some(k) then Kept(init, k) else if text == "" then "" else Kept(init, k) + text
      case Finished(key) => if key == k then "" else Kept(init, k)
      case Reset => ""
  }

  /** No empty delta for `k` arrives while text of that item is already buffered. */
  predicate NoEmptyAfterText(fed: seq<Feed>, k: string) {
    if fed == [] then true
    else
      var init, last := fed[..|fed| - 1], fed[|fed| - 1];
      match last
      case Delta(item, text) =>
        NoEmptyAfterText(init, k) && (item == Some(k) && text == "" ==> Whole(init, k) == "")
      case Finished(key) => key == k || NoEmptyAfterText(init, k)
      case Reset => true
  }

  /** Exactly when nothing of an item is lost. */
  lemma {:induction false} KeptIsWholeIff(fed: seq<Feed>, k: string)
    ensures Kept(fed, k) == Whole(fed, k) <==> NoEmptyAfterText(fed, k)
    ensures |Kept(fed, k)| <= |Whole(fed, k)|
    ensures |Kept(fed, k)| == |Whole(fed, k)| ==> Kept(fed, k) == Whole(fed, k)
  {
    if fed != [] {
      var init, last := fed[..|fed| - 1], fed[|fed| - 1];
      KeptIsWholeIff(init, k);
      if last.Delta? && last.itemId == Some(k) {
        assert |Kept(init, k) + last.text| == |Kept(init, k)| + |last.text|;
        assert |Whole(init, k) + last.text| == |Whole(init, k)| + |last.text|;
        if last.text == "" { assert Whole(init, k) + "" == Whole(init, k); }
      }
    }
  }

  predicate DemuxedAt(t: Tools, k: string) {
    Named(k) ==> (if k in t.buffers then t.buffers[k].args else "") == Kept(t.fed, k)
  }

  ghost predicate Demuxed(t: Tools) { forall k :: DemuxedAt(t, k) }

  lemma FedGrows(fed: seq<Feed>, m: Feed)
    ensures (fed + [m])[..|fed + [m]| - 1] == fed && (fed + [m])[|fed + [m]| - 1] == m
  {
  }

  lemma DeltaDemuxed(t: Tools, item: Option<string>, name: Option<string>, call: Option<string>, delta: Option<string>)
    requires Demuxed(t)
    ensures Demuxed(ArgumentsDelta(t, item, name, call, delta))
  {
    FedGrows(t.fed, Delta(item, delta.GetOr("")));
    forall k ensures DemuxedAt(ArgumentsDelta(t, item, name, call, delta), k) { assert DemuxedAt(t, k); }
  }

  lemma DoneDemuxed(
    cfg: Config, t: Tools, item: Option<string>, call: Option<string>, name: Option<string>, arguments: Option<string>)
    requires Demuxed(t)
    ensures Demuxed(ArgumentsDone(cfg, t, item, call, name, arguments))
  {
    FedGrows(t.fed, Finished(item.GetOr("unknown")));
    forall k ensures DemuxedAt(ArgumentsDone(cfg, t, item, call, name, arguments), k) { assert DemuxedAt(t, k); }
  }

  lemma OpenDemuxed(cfg: Config, s: State)
    ensures Demuxed(Step(cfg, s, Open).tools)
  {
    FedGrows(s.tools.fed, Reset);
  }

  /** Only these events touch the argument buffers. */
  lemma OtherEventsKeepBuffers(cfg: Config, s: State, e: Event)
    requires !e.Open? && !e.OnArgsDelta? && !e.OnArgsDone?
    ensures var t := Step(cfg, s, e).tools; t.buffers == s.tools.buffers && t.fed == s.tools.fed
  {
  }

  lemma SameBuffersDemuxed(t: Tools, u: Tools)
    requires Demuxed(t) && u.buffers == t.buffers && u.fed == t.fed
    ensures Demuxed(u)
  {
    forall k ensures DemuxedAt(u, k) { assert DemuxedAt(t, k); }
  }

  lemma DeltaStepDemuxed(
    cfg: Config, s: State, item: Option<string>, name: Option<string>, call: Option<string>, delta: Option<string>)
    requires Demuxed(s.tools)
    ensures Demuxed(Step(cfg, s, OnArgsDelta(item, name, call, delta)).tools)
  {
    DeltaDemuxed(s.tools, item, name, call, delta);
  }

  lemma DoneStepDemuxed(
    cfg: Config, s: State, item: Option<string>, name: Option<string>, call: Option<string>, arguments: Option<string>)
    requires Demuxed(s.tools)
    ensures Demuxed(Step(cfg, s, OnArgsDone(item, name, call, arguments)).tools)
  {
    DoneDemuxed(cfg, s.tools, item, call, name, arguments);
  }

  lemma OtherStepDemuxed(cfg: Config, s: State, e: Event)
    requires Demuxed(s.tools) && !e.Open? && !e.OnArgsDelta? && !e.OnArgsDone?
    ensures Demuxed(Step(cfg, s, e).tools)
  {
    OtherEventsKeepBuffers(cfg, s, e);
    SameBuffersDemuxed(s.tools, Step(cfg, s, e).tools);
  }

  lemma StepDemuxed(cfg: Config, s: State, e: Event)
    requires Demuxed(s.tools)
    ensures Demuxed(Step(cfg, s, e).tools)
  {
    match e
    case Open => OpenDemuxed(cfg, s);
    case OnArgsDelta(item, name, call, delta) => DeltaStepDemuxed(cfg, s, item, name, call, delta);
    case OnArgsDone(item, name, call, arguments) => DoneStepDemuxed(cfg, s, item, name, call, arguments);
    case _ => OtherStepDemuxed(cfg, s, e);
  }

  lemma {:induction false} AlwaysDemuxed(cfg: Config, events: seq<Event>)
    ensures Demuxed(Run(cfg, events).tools)
  {
    if events != [] {
      AlwaysDemuxed(cfg, events[..|events| - 1]);
      StepDemuxed(cfg, Run(cfg, events[..|events| - 1]), events[|events| - 1]);
    }
  }

  // ---------------------------------------------------------------- at most once

  /** Keys are delivered once each, and a call's key is its item id unless it has none. */
  predicate Once(t: Tools) {
    && (forall i, j :: 0 <= i < j < |t.calls| ==> t.calls[i].key != t.calls[j].key)
    && (forall i :: 0 <= i < |t.calls| ==> t.calls[i].key in t.delivered)
    && (forall k :: k in t.delivered ==> exists i :: 0 <= i < |t.calls| && t.calls[i].key == k)
    && (forall i :: 0 <= i < |t.calls| ==> t.calls[i].key == t.calls[i].itemId || t.calls[i].itemId == "unknown")
  }

  lemma EmitOnce(
    cfg: Config, t: Tools, item: Option<string>, call: Option<string>, name: Option<string>, rawArgs: Option<string>)
    requires Once(t)
    ensures Once(EmitToolCallOnce(cfg, t, item, call, name, rawArgs))
  {
    var after, key := EmitToolCallOnce(cfg, t, item, call, name, rawArgs), DedupeKey(item, call, name, rawArgs);
    if after != t {
      assert after.calls[|t.calls|].key == key;
      forall k | k in after.delivered ensures exists i :: 0 <= i < |after.calls| && after.calls[i].key == k {
        if k in t.delivered {
          var i :| 0 <= i < |t.calls| && t.calls[i].key == k;
          assert after.calls[i] == t.calls[i];
        }
      }
    }
  }

  lemma DoneOnce(
    cfg: Config, t: Tools, item: Option<string>, call: Option<string>, name: Option<string>, arguments: Option<string>)
    requires Once(t)
    ensures Once(ArgumentsDone(cfg, t, item, call, name, arguments))
  {
    var key := item.GetOr("unknown");
    if key in t.buffers {
      var b := t.buffers[key];
      EmitOnce(cfg, t, item, Or(Some(b.callId), call), Or(Some(b.name), name), Or(Some(b.args), arguments));
    } else {
      EmitOnce(cfg, t, item, call, name, arguments);
    }
  }

  lemma StepOnce(cfg: Config, s: State, e: Event)
    requires Once(s.tools)
    ensures Once(Step(cfg, s, e).tools)
  {
    match e
    case OnArgsDone(item, name, call, arguments) => DoneOnce(cfg, s.tools, item, call, name, arguments);
    case OnItemDone(item, name, call, arguments) =>
      EmitOnce(cfg, s.tools, item, if call.Some? then call else item, name, arguments);
    case Open =>
    case _ => SameCallsOnce(s.tools, Step(cfg, s, e).tools);
  }

  lemma SameCallsOnce(t: Tools, u: Tools)
    requires Once(t) && u.calls == t.calls && u.delivered == t.delivered
    ensures Once(u)
  {
  }

  lemma {:induction false} AlwaysOnce(cfg: Config, events: seq<Event>)
    ensures Once(Run(cfg, events).tools)
  {
    if events != [] {
      AlwaysOnce(cfg, events[..|events| - 1]);
      StepOnce(cfg, Run(cfg, events[..|events| - 1]), events[|events| - 1]);
    }
  }

  /** Main theorem. Within a connection no item is delivered twice, whichever of its completion
      events came first or how often they repeat. */
  lemma DeliveredAtMostOnce(cfg: Config, events: seq<Event>, i: nat, j: nat)
    requires var calls := Run(cfg, events).tools.calls;
             i < j < |calls| && calls[i].itemId != "unknown" && calls[j].itemId != "unknown"
    ensures var calls := Run(cfg, events).tools.calls; calls[i].itemId != calls[j].itemId
  {
    AlwaysOnce(cfg, events);
  }

  /** The completion events of an item. */
  predicate Completes(e: Event, k: string) {
    (e.OnArgsDone? && e.item == Some(k)) || (e.OnItemDone? && e.item == Some(k))
  }

  /** Main theorem. A completion delivers the item if it was not delivered since the socket opened,
      and changes nothing that was delivered before. */
  lemma CompletionDelivers(cfg: Config, events: seq<Event>, e: Event, k: string)
    requires cfg.hasToolCallHandler && k != "" && Completes(e, k)
    ensures var before, after := Run(cfg, events).tools.calls, Step(cfg, Run(cfg, events), e).tools.calls;
            if exists c :: c in before && c.key == k then after == before
            else |after| == |before| + 1 && after[..|before|] == before && after[|before|].itemId == k
  {
    AlwaysOnce(cfg, events);
    var t := Run(cfg, events).tools;
    if k in t.delivered {
      var i :| 0 <= i < |t.calls| && t.calls[i].key == k;
      assert t.calls[i] in t.calls;
    }
  }

  // ---------------------------------------------------------------- what a call is delivered with

  /** The arguments a completion of `k` hands over: `function_call_arguments.done` takes the buffered
      text if there is any, `conversation.item.done` never looks at the buffer. */
  function Handed(t: Tools, e: Event, k: string): Option<string>
    requires Completes(e, k)
  {
    if e.OnArgsDone? && Kept(t.fed, k) != "" then Some(Kept(t.fed, k)) else e.arguments
  }

  /** When that is everything the server sent for `k`. */
  predicate HandsAll(t: Tools, e: Event, k: string)
    requires Completes(e, k)
  {
    if e.OnArgsDone? && Kept(t.fed, k) != "" then NoEmptyAfterText(t.fed, k)
    else e.arguments == Some(Whole(t.fed, k))
  }

  lemma HandsAllIff(t: Tools, e: Event, k: string)
    requires Completes(e, k)
    ensures Handed(t, e, k) == Some(Whole(t.fed, k)) <==> HandsAll(t, e, k)
  {
    KeptIsWholeIff(t.fed, k);
  }

  /** Step `n` of the run delivered exactly `c`. */
  predicate DeliveredAt(cfg: Config, events: seq<Event>, n: nat, c: Call)
    requires n < |events|
  {
    var s := Run(cfg, events[..n]);
    && (events[n].OnArgsDone? || events[n].OnItemDone?)
    && Step(cfg, s, events[n]).tools.calls == s.tools.calls + [c]
  }

  lemma DeliveredHere(cfg: Config, s: State, e: Event)
    ensures var before, after := s.tools.calls, Step(cfg, s, e).tools.calls;
            || after == before || after == []
            || ((e.OnArgsDone? || e.OnItemDone?) && exists c :: after == before + [c])
  {
    var before, after := s.tools.calls, Step(cfg, s, e).tools.calls;
    if (e.OnArgsDone? || e.OnItemDone?) && after != before {
      assert after == before + [after[|before|]];
    }
  }

  lemma {:induction false} EveryCallWasDelivered(cfg: Config, events: seq<Event>, i: nat)
    requires i < |Run(cfg, events).tools.calls|
    ensures exists n: nat | n < |events| :: DeliveredAt(cfg, events, n, Run(cfg, events).tools.calls[i])
  {
    var last, calls := |events| - 1, Run(cfg, events).tools.calls;
    var init := events[..last];
    var before := Run(cfg, init).tools.calls;
    DeliveredHere(cfg, Run(cfg, init), events[last]);
    if i < |before| {
      EveryCallWasDelivered(cfg, init, i);
      var n: nat :| n < |init| && DeliveredAt(cfg, init, n, before[i]);
      assert events[..n] == init[..n];
      assert DeliveredAt(cfg, events, n, calls[i]);
    } else {
      assert DeliveredAt(cfg, events, last, calls[i]);
    }
  }

  lemma HandedOver(cfg: Config, events: seq<Event>, e: Event, k: string, c: Call)
    requires Named(k) && Completes(e, k)
    requires var s := Run(cfg, events); Step(cfg, s, e).tools.calls == s.tools.calls + [c]
    ensures c.itemId == k && c.rawArgs == Handed(Run(cfg, events).tools, e, k)
  {
    AlwaysDemuxed(cfg, events);
    assert DemuxedAt(Run(cfg, events).tools, k);
    assert c == Step(cfg, Run(cfg, events), e).tools.calls[|Run(cfg, events).tools.calls|];
  }

  /** What step `n` of a run delivered, told from the events before it. */
  ghost predicate Explains(cfg: Config, events: seq<Event>, n: nat, c: Call) {
    n < |events| && DeliveredAt(cfg, events, n, c) &&
    forall k :: Named(k) && Completes(events[n], k) ==>
      var t := Run(cfg, events[..n]).tools;
      && c.itemId == k && c.rawArgs == Handed(t, events[n], k)
      && (c.rawArgs == Some(Whole(t.fed, k)) <==> HandsAll(t, events[n], k))
  }

  /** Main theorem. Every tool call of every run was delivered by a completion event. A named item's
      call has exactly the arguments `Handed` says, for either kind of completion, and these are all
      the server sent for the item, in order and without any other item's deltas, if and only if
      `HandsAll`. */
  lemma ArgumentsAreOwnDeltas(cfg: Config, events: seq<Event>, i: nat)
    requires i < |Run(cfg, events).tools.calls|
    ensures exists n: nat :: Explains(cfg, events, n, Run(cfg, events).tools.calls[i])
  {
    EveryCallWasDelivered(cfg, events, i);
    var c := Run(cfg, events).tools.calls[i];
    var n: nat :| n < |events| && DeliveredAt(cfg, events, n, c);
    var t := Run(cfg, events[..n]).tools;
    forall k | Named(k) && Completes(events[n], k)
      ensures c.itemId == k && c.rawArgs == Handed(t, events[n], k)
      ensures c.rawArgs == Some(Whole(t.fed, k)) <==> HandsAll(t, events[n], k)
    {
      HandedOver(cfg, events[..n], events[n], k, c);
      HandsAllIff(t, events[n], k);
    }
    assert Explains(cfg, events, n, c);
  }

  /** The other direction: a completion of an undelivered named item delivers it with `Handed`. */
  lemma CompletionHandsOver(cfg: Config, events: seq<Event>, e: Event, k: string)
    requires Named(k) && Completes(e, k)
    requires cfg.hasToolCallHandler && k !in Run(cfg, events).tools.delivered
    ensures var t, calls := Run(cfg, events).tools, Step(cfg, Run(cfg, events), e).tools.calls;
            && |calls| == |t.calls| + 1 && calls[|t.calls|].itemId == k
            && calls[|t.calls|].rawArgs == Handed(t, e, k)
            && (calls[|t.calls|].rawArgs == Some(Whole(t.fed, k)) <==> HandsAll(t, e, k))
  {
    var t, calls := Run(cfg, events).tools, Step(cfg, Run(cfg, events), e).tools.calls;
    assert calls == t.calls + [calls[|t.calls|]];
    HandedOver(cfg, events, e, k, calls[|t.calls|]);
    HandsAllIff(t, e, k);
  }

  /** The tool state after one more argument event of item `k`. */
  lemma RunDelta(cfg: Config, events: seq<Event>, k: string, text: string)
    ensures Run(cfg, events + [TextOf(k, text)]).tools
         == ArgumentsDelta(Run(cfg, events).tools, Some(k), None, None, Some(text))
  {
    assert (events + [TextOf(k, text)])[..|events|] == events;
  }

  lemma RunDone(cfg: Config, events: seq<Event>, k: string, arguments: Option<string>)
    ensures Run(cfg, events + [OnArgsDone(Some(k), None, None, arguments)]).tools
         == ArgumentsDone(cfg, Run(cfg, events).tools, Some(k), None, None, arguments)
  {
    assert (events + [OnArgsDone(Some(k), None, None, arguments)])[..|events|] == events;
  }

  function TextOf(k: string, text: string): Event { OnArgsDelta(Some(k), None, None, Some(text)) }

  /** `conversation.item.done` without arguments loses the deltas for good: the later done event, which
      has them, counts as a repetition. */
  lemma ItemDoneLosesDeltas(cfg: Config, k: string, text: string)
    requires cfg.hasToolCallHandler && Named(k) && text != ""
    ensures var events := [] + [TextOf(k, text)] + [OnItemDone(Some(k), None, None, None)];
            var calls := Run(cfg, events + [OnArgsDone(Some(k), None, None, Some(text))]).tools.calls;
            |calls| == 1 && calls[0].itemId == k && calls[0].rawArgs == None
  {
    var delta, done := [] + [TextOf(k, text)], OnItemDone(Some(k), None, None, None);
    RunDelta(cfg, [], k, text);
    assert (delta + [done])[..|delta|] == delta;
    RunDone(cfg, delta + [done], k, Some(text));
  }

  /** An empty delta between two others loses the first, even if the done event repeats both. */
  lemma EmptyDeltaLosesText(cfg: Config, k: string, first: string, second: string)
    requires cfg.hasToolCallHandler && Named(k) && first != "" && second != ""
    ensures var deltas := [] + [TextOf(k, first)] + [TextOf(k, "")] + [TextOf(k, second)];
            var calls := Run(cfg, deltas + [OnArgsDone(Some(k), None, None, Some(first + second))]).tools.calls;
            |calls| == 1 && calls[0].itemId == k && calls[0].rawArgs == Some(second)
  {
    var one := [] + [TextOf(k, first)];
    RunDelta(cfg, [], k, first);
    RunDelta(cfg, one, k, "");
    assert Run(cfg, one + [TextOf(k, "")]).tools.buffers[k] == ToolBuffer("", "", "");
    RunDelta(cfg, one + [TextOf(k, "")], k, second);
    assert "" + second == second;
    RunDone(cfg, one + [TextOf(k, "")] + [TextOf(k, second)], k, Some(first + second));
  }

  /** Without empty deltas nothing is ever lost. */
  lemma {:induction false} NonEmptyDeltasSuffice(fed: seq<Feed>, k: string)
    requires forall m :: m in fed && m.Delta? && m.itemId == Some(k) ==> m.text != ""
    ensures NoEmptyAfterText(fed, k) && Kept(fed, k) == Whole(fed, k)
  {
    if fed != [] {
      NonEmptyDeltasSuffice(fed[..|fed| - 1], k);
      assert fed[|fed| - 1] in fed;
    }
    KeptIsWholeIff(fed, k);
  }

  // ---------------------------------------------------------------- audio

  /** The chunks that were not dropped, in order of submission. */
  function KeptChunks(submitted: seq<Submission>): seq<Chunk> {
    if submitted == [] then []
    else
      var init, last := submitted[..|submitted| - 1], submitted[|submitted| - 1];
      if last.kept then KeptChunks(init) + [last.chunk] else KeptChunks(init)
  }

  predicate InOrder(a: Audio, ready: bool) {
    && KeptChunks(a.submitted) == a.upstream + a.pending
    && |a.pending| <= MAX_QUEUED_AUDIO
    && (ready ==> a.pending == [])
    && (forall i :: 0 <= i < |a.submitted| && !a.submitted[i].kept ==> a.submitted[i].queued == MAX_QUEUED_AUDIO)
  }

  lemma SubmitKeeps(a: Audio, ready: bool, chunk: Chunk)
    requires InOrder(a, ready)
    ensures InOrder(SubmitAudio(a, ready, chunk), ready)
  {
    var after := SubmitAudio(a, ready, chunk);
    assert after.submitted[..|after.submitted| - 1] == a.submitted;
    assert a.upstream + a.pending + [chunk] == a.upstream + (a.pending + [chunk]);
    if ready { assert a.upstream + a.pending == a.upstream && a.upstream + [chunk] + [] == a.upstream + [chunk]; }
  }

  lemma {:induction false} SendAllDrains(a: Audio, ready: bool, chunks: seq<Chunk>)
    requires a.pending == [] && |chunks| <= MAX_QUEUED_AUDIO
    ensures var after := SendAll(a, ready, chunks);
            after == if ready then a.(upstream := a.upstream + chunks) else a.(pending := chunks)
  {
    if chunks == [] {
      assert a.upstream + chunks == a.upstream;
    } else {
      var init, last := chunks[..|chunks| - 1], chunks[|chunks| - 1];
      SendAllDrains(a, ready, init);
      assert init + [last] == chunks;
      assert (a.upstream + init) + [last] == a.upstream + chunks;
    }
  }

  /** The queue is empty whenever the bridge could send, so nothing is overtaken. */
  lemma {:induction false} AlwaysInOrder(cfg: Config, events: seq<Event>)
    ensures InOrder(Run(cfg, events).audio, Ready(Run(cfg, events).link))
  {
    if events != [] {
      var s, e := Run(cfg, events[..|events| - 1]), events[|events| - 1];
      AlwaysInOrder(cfg, events[..|events| - 1]);
      match e
      case Submit(chunk) => SubmitKeeps(s.audio, Ready(s.link), chunk);
      case OnSessionUpdated =>
        var ready := Ready(s.link.(configured := true));
        SendAllDrains(s.audio.(pending := []), ready, s.audio.pending);
        assert s.audio.upstream + s.audio.pending + [] == s.audio.upstream + s.audio.pending;
      case _ => assert Step(cfg, s, e).audio == s.audio;
    }
  }

  /** Main theorem. Over any run with any reconnects, the audio sent upstream followed by the audio
      still queued is exactly what the caller submitted, in order, minus the dropped chunks; a chunk
      is dropped only when 320 earlier ones are queued. */
  lemma AudioArrivesInOrder(cfg: Config, events: seq<Event>)
    ensures var a := Run(cfg, events).audio;
            && KeptChunks(a.submitted) == a.upstream + a.pending
            && |a.pending| <= 320
            && forall i :: 0 <= i < |a.submitted| && !a.submitted[i].kept ==> a.submitted[i].queued == 320
  {
    AlwaysInOrder(cfg, events);
  }
}
