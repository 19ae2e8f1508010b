/** The LSP session: request table, response dispatch, timeouts and disposal
    (src/agents/agent-bundle-lsp-runtime.ts). Each `await` ends one step. */
module LspSession {
  import opened Options
  import opened Json
  import opened LspFraming

  /** How the promise of one request ends. */
  datatype Settlement =
    | Resolved(result: Option<Json>)
    | Failed(error: Json)
    | TimedOut
    | Disposed

  /** `pending` and `timers` are keyed by request id. `settled`, `received` and `decoded` are history:
      every settlement in order, every byte and every message of the stream. */
  datatype State = State(
    buffer: Bytes, requestId: nat, pending: map<int, string>, timers: set<int>,
    initialized: bool, disposed: bool,
    settled: seq<(int, Settlement)>, received: Bytes, decoded: seq<Json>)

  const Initial := State([], 0, map[], {}, false, false, [], [], [])

  function Send(s: State, rpc: string): State {
    var id := s.requestId + 1;
    s.(requestId := id, pending := s.pending[id := rpc], timers := s.timers + {id})
  }

  function Settle(s: State, id: int, how: Settlement): State {
    s.(pending := s.pending - {id}, timers := s.timers - {id}, settled := s.settled + [(id, how)])
  }

  /** The timer callback; a cleared timer never fires. */
  function TimerFires(s: State, id: int): State {
    if id !in s.timers then s
    else if id in s.pending then Settle(s, id, TimedOut)
    else s.(timers := s.timers - {id})
  }

  /** The request a message answers: its `id`, when that is a number. */
  function AnswerId(msg: Json): Option<int> {
    if !msg.Obj? then None
    else match Field(msg.fields, "id") { case Some(Num(n)) => Some(n) case _ => None }
  }

  function AnswerOf(msg: Json): Settlement
    requires msg.Obj?
  {
    match Field(msg.fields, "error")
    case Some(e) => Failed(e)
    case None => Resolved(Field(msg.fields, "result"))
  }

  function Dispatch(s: State, msg: Json): State {
    match AnswerId(msg)
    case None => s
    case Some(id) => if id in s.pending then Settle(s, id, AnswerOf(msg)) else s
  }

  function DispatchAll(s: State, messages: seq<Json>): State {
    if messages == [] then s
    else Dispatch(DispatchAll(s, messages[..|messages| - 1]), messages[|messages| - 1])
  }

  function Data(decode: Decoder, s: State, chunk: Bytes): State {
    var p := Parse(decode, s.buffer + chunk);
    DispatchAll(s.(buffer := p.remaining, received := s.received + chunk, decoded := s.decoded + p.messages),
                p.messages)
  }

  /** `disposeSession` up to its `await`: a second call returns at once. */
  function DisposeBegin(s: State): State {
    if s.disposed then s
    else
      var marked := s.(disposed := true);
      if s.initialized then Send(marked, "shutdown") else marked
  }

  /** Reject the pending requests with ids up to `upTo`, in insertion (that is, id) order. */
  function RejectUpTo(s: State, upTo: nat): (r: State)
    ensures forall id :: id in r.pending <==> id in s.pending && !(1 <= id <= upTo)
  {
    if upTo == 0 then s
    else
      var done := RejectUpTo(s, upTo - 1);
      if upTo in s.pending then Settle(done, upTo, Disposed) else done
  }

  /** The rest of `disposeSession`. */
  function DisposeEnd(s: State): State {
    RejectUpTo(s, s.requestId).(pending := map[])
  }

  datatype Event =
    | Request(rpc: string)
    | Arrival(chunk: Bytes)
    | Timeout(id: int)
    | MarkInitialized
    | BeginDispose
    | EndDispose

  function Step(decode: Decoder, s: State, e: Event): State {
    match e
    case Request(rpc) => Send(s, rpc)
    case Arrival(chunk) => Data(decode, s, chunk)
    case Timeout(id) => TimerFires(s, id)
    case MarkInitialized => s.(initialized := true)
    case BeginDispose => DisposeBegin(s)
    case EndDispose => DisposeEnd(s)
  }

  function Run(decode: Decoder, events: seq<Event>): State {
    if events == [] then Initial
    else Step(decode, Run(decode, events[..|events| - 1]), events[|events| - 1])
  }

  // ---------------------------------------------------------------- settle once

  predicate SettledIn(s: State, id: int) { exists k :: 0 <= k < |s.settled| && s.settled[k].0 == id }

  /** Ids `1..requestId` are split between the request table and the settlements, each settled once;
      a timer is armed exactly for the pending ones. */
  predicate Accounted(s: State) {
    && s.timers == s.pending.Keys
    && (forall id :: id in s.pending ==> 1 <= id <= s.requestId && !SettledIn(s, id))
    && (forall k :: 0 <= k < |s.settled| ==> 1 <= s.settled[k].0 <= s.requestId)
    && (forall j, k :: 0 <= j < k < |s.settled| ==> s.settled[j].0 != s.settled[k].0)
    && (forall id: int :: 1 <= id <= s.requestId ==> id in s.pending || SettledIn(s, id))
  }

  lemma SettleKeeps(s: State, id: int, how: Settlement)
    requires Accounted(s) && id in s.pending
    ensures Accounted(Settle(s, id, how))
  {
    var t := Settle(s, id, how);
    assert t.settled[|s.settled|] == (id, how);
    forall i: int | 1 <= i <= t.requestId ensures i in t.pending || SettledIn(t, i) {
      if SettledIn(s, i) {
        var k :| 0 <= k < |s.settled| && s.settled[k].0 == i;
        assert t.settled[k].0 == i;
      }
    }
    forall i | i in t.pending ensures !SettledIn(t, i) {
      assert !SettledIn(s, i);
    }
  }

  lemma SendKeeps(s: State, rpc: string)
    requires Accounted(s)
    ensures Accounted(Send(s, rpc))
  {
    var t := Send(s, rpc);
    forall i: int | 1 <= i <= t.requestId ensures i in t.pending || SettledIn(t, i) {
      if i <= s.requestId && SettledIn(s, i) {
        var k :| 0 <= k < |s.settled| && s.settled[k].0 == i;
        assert t.settled[k].0 == i;
      }
    }
    forall i | i in t.pending ensures !SettledIn(t, i) {
      assert i in s.pending || i == t.requestId;
    }
  }

  lemma {:induction false} DispatchAllKeeps(s: State, messages: seq<Json>)
    requires Accounted(s)
    ensures Accounted(DispatchAll(s, messages))
    ensures var t := DispatchAll(s, messages);
            t == s.(pending := t.pending, timers := t.timers, settled := t.settled)
  {
    if messages != [] {
      var init := messages[..|messages| - 1];
      DispatchAllKeeps(s, init);
      var t := DispatchAll(s, init);
      var id := AnswerId(messages[|messages| - 1]);
      if id.Some? && id.value in t.pending {
        SettleKeeps(t, id.value, AnswerOf(messages[|messages| - 1]));
      }
    }
  }

  lemma {:induction false} RejectAccounted(s: State, upTo: nat)
    requires Accounted(s)
    ensures Accounted(RejectUpTo(s, upTo))
  {
    if upTo > 0 {
      var done := RejectUpTo(s, upTo - 1);
      RejectAccounted(s, upTo - 1);
      if upTo in s.pending {
        SettleKeeps(done, upTo, Disposed);
        assert RejectUpTo(s, upTo) == Settle(done, upTo, Disposed);
      } else {
        assert RejectUpTo(s, upTo) == done;
      }
    }
  }

  lemma {:induction false} RejectFrame(s: State, upTo: nat)
    ensures var t := RejectUpTo(s, upTo);
            && t == s.(pending := t.pending, timers := t.timers, settled := t.settled)
            && s.settled <= t.settled
            && (forall k :: |s.settled| <= k < |t.settled| ==> t.settled[k].1 == Disposed)
  {
    if upTo > 0 { RejectFrame(s, upTo - 1); }
  }

  /** Disposal rejects exactly the requests that were pending, and leaves all else alone. */
  lemma RejectKeeps(s: State, upTo: nat)
    requires Accounted(s)
    ensures var t := RejectUpTo(s, upTo);
            && Accounted(t)
            && t == s.(pending := t.pending, timers := t.timers, settled := t.settled)
            && s.settled <= t.settled
            && forall k :: |s.settled| <= k < |t.settled| ==> t.settled[k].1 == Disposed
  {
    RejectAccounted(s, upTo);
    RejectFrame(s, upTo);
  }

  lemma DisposeEndKeeps(s: State)
    requires Accounted(s)
    ensures Accounted(DisposeEnd(s)) && DisposeEnd(s).pending == map[]
    ensures forall id :: id in s.pending ==> SettledIn(DisposeEnd(s), id)
  {
    RejectKeeps(s, s.requestId);
    assert RejectUpTo(s, s.requestId).pending == map[];
  }

  lemma StepAccounted(decode: Decoder, s: State, e: Event)
    requires Accounted(s)
    ensures Accounted(Step(decode, s, e))
  {
    match e
    case Request(rpc) => SendKeeps(s, rpc);
    case Arrival(chunk) =>
      var p := Parse(decode, s.buffer + chunk);
      var t := s.(buffer := p.remaining, received := s.received + chunk, decoded := s.decoded + p.messages);
      assert Accounted(t) by { SameTable(s, t); }
      DispatchAllKeeps(t, p.messages);
    case Timeout(id) => if id in s.pending { SettleKeeps(s, id, TimedOut); }
    case MarkInitialized => SameTable(s, s.(initialized := true));
    case BeginDispose =>
      SameTable(s, s.(disposed := true));
      SendKeeps(s.(disposed := true), "shutdown");
    case EndDispose => DisposeEndKeeps(s);
  }

  lemma SameTable(s: State, t: State)
    requires Accounted(s)
    requires t.requestId == s.requestId && t.pending == s.pending && t.timers == s.timers
    requires t.settled == s.settled
    ensures Accounted(t)
  {
    forall id ensures SettledIn(t, id) == SettledIn(s, id) {
    }
  }

  /** Every request settles at most once, and is pending until it does, under any interleaving of
      sends, data chunks, timers and disposal. */
  lemma {:induction false} SettleOnce(decode: Decoder, events: seq<Event>)
    ensures Accounted(Run(decode, events))
  {
    if events != [] {
      SettleOnce(decode, events[..|events| - 1]);
      StepAccounted(decode, Run(decode, events[..|events| - 1]), events[|events| - 1]);
    }
  }

  // ---------------------------------------------------------------- what a settlement says

  /** A response settlement was sent by the server for that very request. */
  predicate Answered(s: State, k: nat)
    requires k < |s.settled|
  {
    s.settled[k].1.Resolved? || s.settled[k].1.Failed?
    ==> exists m :: m in s.decoded && AnswerId(m) == Some(s.settled[k].0) && AnswerOf(m) == s.settled[k].1
  }

  /** The stream so far is decoded completely, however it was split into chunks. */
  predicate StreamDecoded(decode: Decoder, s: State) {
    && Parse(decode, s.received) == Parsed(s.decoded, s.buffer)
    && NextFrame(s.buffer) == Wait
  }

  predicate Justified(s: State) { forall k :: 0 <= k < |s.settled| ==> Answered(s, k) }

  lemma {:induction false} DispatchJustified(s: State, messages: seq<Json>)
    requires Justified(s) && forall m :: m in messages ==> m in s.decoded
    ensures Justified(DispatchAll(s, messages))
    ensures DispatchAll(s, messages).decoded == s.decoded
  {
    if messages != [] {
      var init, last := messages[..|messages| - 1], messages[|messages| - 1];
      DispatchJustified(s, init);
      var t, u := DispatchAll(s, init), DispatchAll(s, messages);
      assert last in s.decoded;
      forall k | 0 <= k < |u.settled| ensures Answered(u, k) {
        if k < |t.settled| { assert Answered(t, k) && u.settled[k] == t.settled[k]; }
      }
    }
  }

  lemma DataJustified(decode: Decoder, s: State, chunk: Bytes)
    requires Accounted(s) && Justified(s) && StreamDecoded(decode, s)
    ensures Justified(Data(decode, s, chunk)) && StreamDecoded(decode, Data(decode, s, chunk))
  {
    var p := Parse(decode, s.buffer + chunk);
    var t := s.(buffer := p.remaining, received := s.received + chunk, decoded := s.decoded + p.messages);
    forall k | 0 <= k < |t.settled| ensures Answered(t, k) {
      assert Answered(s, k);
    }
    DispatchJustified(t, p.messages);
    SameTable(s, t);
    DispatchAllKeeps(t, p.messages);
    ChunkingIndependence(decode, s.received, chunk);
    RemainderHoldsNoFrame(s.buffer + chunk);
  }

  lemma StepJustified(decode: Decoder, s: State, e: Event)
    requires Accounted(s) && Justified(s) && StreamDecoded(decode, s)
    ensures Justified(Step(decode, s, e)) && StreamDecoded(decode, Step(decode, s, e))
  {
    var t := Step(decode, s, e);
    if e.Arrival? {
      DataJustified(decode, s, e.chunk);
    } else {
      if e.EndDispose? { RejectKeeps(s, s.requestId); }
      assert t.decoded == s.decoded && t.received == s.received && t.buffer == s.buffer;
      forall k | 0 <= k < |t.settled| ensures Answered(t, k) {
        if k < |s.settled| { assert Answered(s, k) && t.settled[k] == s.settled[k]; }
      }
    }
  }

  /** In every run each resolve or reject carries a response the server sent for that request, the
      messages acted on are those of the whole byte stream in order, and the stored buffer is its
      unparsed tail, which never holds a complete frame. */
  lemma {:induction false} ResponsesAreTheServers(decode: Decoder, events: seq<Event>)
    ensures Justified(Run(decode, events)) && StreamDecoded(decode, Run(decode, events))
  {
    if events == [] {
      assert IndexOfSeparator([]) == None;
    } else {
      var before := events[..|events| - 1];
      ResponsesAreTheServers(decode, before);
      SettleOnce(decode, before);
      StepJustified(decode, Run(decode, before), events[|events| - 1]);
    }
  }

  // ---------------------------------------------------------------- every answer settles

  /** A message whose `id` is the number `id`. */
  predicate Answers(msg: Json, id: int) { msg.Obj? && Field(msg.fields, "id") == Some(Num(id)) }

  predicate FirstAnswer(messages: seq<Json>, k: nat, id: int) {
    k < |messages| && Answers(messages[k], id) && forall j :: 0 <= j < k ==> !Answers(messages[j], id)
  }

  /** What an answer does to its request: an `error` field rejects it, otherwise `result` resolves it. */
  function Outcome(msg: Json): Settlement
    requires msg.Obj?
  {
    match Field(msg.fields, "error")
    case Some(e) => Failed(e)
    case None => Resolved(Field(msg.fields, "result"))
  }

  /** Requests without an answer stay pending. */
  lemma {:induction false} UnansweredWaits(s: State, messages: seq<Json>, id: int)
    requires id in s.pending && forall j :: 0 <= j < |messages| ==> !Answers(messages[j], id)
    ensures id in DispatchAll(s, messages).pending
  {
    if messages != [] { UnansweredWaits(s, messages[..|messages| - 1], id); }
  }

  /** The first answer to a pending request takes it off the table and settles it with what it says. */
  lemma {:induction false} AnswerSettles(s: State, messages: seq<Json>, k: nat, id: int)
    requires id in s.pending && FirstAnswer(messages, k, id)
    ensures var t := DispatchAll(s, messages);
            id !in t.pending && (id, Outcome(messages[k])) in t.settled
  {
    var init := messages[..|messages| - 1];
    if k < |init| {
      AnswerSettles(s, init, k, id);
    } else {
      UnansweredWaits(s, init, id);
      var t := DispatchAll(s, messages);
      assert t.settled[|t.settled| - 1] == (id, Outcome(messages[k]));
    }
  }

  /** From `s` to `t` every request pending was settled by its first answer among `messages`, or is still
      pending if there was none. */
  ghost predicate AllAnswered(s: State, messages: seq<Json>, t: State) {
    && (forall id: int, k: nat :: id in s.pending && FirstAnswer(messages, k, id) ==>
          id !in t.pending && (id, Outcome(messages[k])) in t.settled)
    && (forall id: int :: id in s.pending && (forall j :: 0 <= j < |messages| ==> !Answers(messages[j], id)) ==>
          id in t.pending)
  }

  /** Main theorem. A chunk that completes an answer settles its request, whatever else it carries and
      however the answer was divided; a request the chunk does not answer stays pending. */
  lemma ArrivalSettles(decode: Decoder, s: State, chunk: Bytes)
    ensures AllAnswered(s, Parse(decode, s.buffer + chunk).messages, Step(decode, s, Arrival(chunk)))
  {
    var p := Parse(decode, s.buffer + chunk);
    var u := s.(buffer := p.remaining, received := s.received + chunk, decoded := s.decoded + p.messages);
    forall id: int, k: nat | id in s.pending && FirstAnswer(p.messages, k, id)
      ensures id !in DispatchAll(u, p.messages).pending
      ensures (id, Outcome(p.messages[k])) in DispatchAll(u, p.messages).settled
    {
      AnswerSettles(u, p.messages, k, id);
    }
    forall id: int | id in s.pending && (forall j :: 0 <= j < |p.messages| ==> !Answers(p.messages[j], id))
      ensures id in DispatchAll(u, p.messages).pending
    {
      UnansweredWaits(u, p.messages, id);
    }
  }

  /** A deadline that passes settles its pending request as timed out, and nothing else. */
  lemma TimeoutSettles(decode: Decoder, s: State, id: int)
    requires Accounted(s)
    ensures var t := Step(decode, s, Timeout(id));
            if id in s.pending then t.pending == s.pending - {id} && t.settled == s.settled + [(id, TimedOut)]
            else t.pending == s.pending && t.settled == s.settled
  {
  }

  /** Disposal marks the session once, and asks an initialized server to shut down. */
  lemma DisposalBegins(decode: Decoder, s: State)
    ensures var t := Step(decode, s, BeginDispose);
            && t.disposed
            && (s.disposed ==> t == s)
            && (!s.disposed ==>
                  t.pending == if s.initialized then s.pending[s.requestId + 1 := "shutdown"] else s.pending)
    ensures Step(decode, s, MarkInitialized) == s.(initialized := true)
  {
  }

  // ---------------------------------------------------------------- the session object

  /** A valid session is in the state its history of events leads to, so the theorems hold of it. */
  class Session {
    const decode: Decoder
    var buffer: Bytes
    var requestId: nat
    var pendingRequests: map<int, string>
    var timers: set<int>
    var initialized: bool
    var disposed: bool
    ghost var settled: seq<(int, Settlement)>
    ghost var received: Bytes
    ghost var decoded: seq<Json>
    ghost var history: seq<Event>

    ghost predicate Valid()
      reads this
    {
      View() == Run(decode, history)
    }

    ghost function View(): State
      reads this
    {
      State(buffer, requestId, pendingRequests, timers, initialized, disposed, settled, received, decoded)
    }

    constructor (decode: Decoder)
      ensures this.decode == decode && Valid() && history == []
    {
      this.decode := decode;
      buffer, requestId, pendingRequests, timers := [], 0, map[], {};
      initialized, disposed := false, false;
      settled, received, decoded, history := [], [], [], [];
    }

    /** `e` led from `before`, where the history leads, to the present state. */
    ghost method Record(before: State, e: Event)
      requires View() == Step(decode, before, e)
      requires before == Run(decode, history)
      modifies this`history
      ensures Valid() && history == old(history) + [e]
    {
      assert (history + [e])[..|history|] == history;
      history := history + [e];
    }

    // -------------------------------------------------------------- what a valid session guarantees

    /** Each request sent is either pending with its timer armed or settled, once. */
    lemma RequestsSettleOnce(id: int)
      requires Valid() && 1 <= id <= requestId
      ensures id in pendingRequests <==> id in timers
      ensures id in pendingRequests <==> forall k :: 0 <= k < |settled| ==> settled[k].0 != id
      ensures forall j, k :: 0 <= j < k < |settled| ==> settled[j].0 != settled[k].0
    {
      SettleOnce(decode, history);
      assert id in pendingRequests || SettledIn(View(), id);
    }

    /** A response settlement was sent by the server for its request, and the server's stream has been
        decoded up to an incomplete frame. */
    lemma SettlementsAreAnswers(k: nat)
      requires Valid() && k < |settled|
      ensures settled[k].1.Resolved? || settled[k].1.Failed? ==>
                exists m :: m in decoded && AnswerId(m) == Some(settled[k].0) && AnswerOf(m) == settled[k].1
      ensures Parse(decode, received) == Parsed(decoded, buffer) && NextFrame(buffer) == Wait
    {
      ResponsesAreTheServers(decode, history);
      assert Answered(View(), k);
    }

    // -------------------------------------------------------------- the request table

    /** Take a request out of the table, clear its timer and end its promise. */
    method SettleRequest(id: int, ghost how: Settlement)
      requires id in pendingRequests
      modifies this`pendingRequests, this`timers, this`settled
      ensures View() == Settle(old(View()), id, how)
    {
      pendingRequests := pendingRequests - {id};
      timers := timers - {id};
      settled := settled + [(id, how)];
    }

    method RegisterRequest(rpc: string) returns (id: int)
      modifies this`requestId, this`timers, this`pendingRequests
      ensures View() == Send(old(View()), rpc) && id == requestId
    {
      requestId := requestId + 1;
      id := requestId;
      timers := timers + {id};
      pendingRequests := pendingRequests[id := rpc];
    }

    /** The dispatch loop of `handleIncomingData`. */
    method DispatchMessages(messages: seq<Json>)
      modifies this`pendingRequests, this`timers, this`settled
      ensures View() == DispatchAll(old(View()), messages)
    {
      for k := 0 to |messages|
        invariant View() == DispatchAll(old(View()), messages[..k])
      {
        var msg := messages[k];
        assert messages[..k + 1][..k] == messages[..k];
        if msg.Obj? {
          var id := AnswerId(msg);
          if id.Some? && id.value in pendingRequests {
            SettleRequest(id.value, AnswerOf(msg));
          }
        }
      }
      assert messages[..|messages|] == messages;
    }

    /** The rejection loop of `disposeSession`. */
    method RejectPending()
      modifies this`pendingRequests, this`timers, this`settled
      ensures View() == DisposeEnd(old(View()))
    {
      ghost var before := View();
      for id := 0 to requestId
        invariant View() == RejectUpTo(before, id).(pending := before.pending)
      {
        if id + 1 in pendingRequests {
          timers := timers - {id + 1};
          settled := settled + [(id + 1, Disposed)];
        }
      }
      pendingRequests := map[];
    }

    // -------------------------------------------------------------- operations

    method SendRequest(rpc: string) returns (id: int)
      requires Valid()
      modifies this`requestId, this`timers, this`pendingRequests, this`history
      ensures Valid() && history == old(history) + [Request(rpc)]
      ensures id == requestId && id in pendingRequests && id !in old(pendingRequests)
      ensures forall k :: 0 <= k < |settled| ==> settled[k].0 != id
    {
      ghost var before := View();
      SettleOnce(decode, history);
      id := RegisterRequest(rpc);
      Record(before, Request(rpc));
    }

    method OnTimeout(id: int)
      requires Valid()
      modifies this`pendingRequests, this`timers, this`settled, this`history
      ensures Valid() && history == old(history) + [Timeout(id)]
      ensures settled == old(settled) + if id in old(pendingRequests) then [(id, TimedOut)] else []
    {
      ghost var before := View();
      if id in timers {
        if id in pendingRequests {
          SettleRequest(id, TimedOut);
        } else {
          timers := timers - {id};
        }
      }
      SettleOnce(decode, history);
      Record(before, Timeout(id));
    }

    method HandleIncomingData(chunk: Bytes)
      requires Valid()
      modifies this`buffer, this`pendingRequests, this`timers, this`settled, this`received, this`decoded, this`history
      ensures Valid() && history == old(history) + [Arrival(chunk)]
      ensures AllAnswered(old(View()), Parse(decode, old(buffer) + chunk).messages, View())
    {
      ghost var before := View();
      buffer := buffer + chunk;
      var messages, remaining := ParseLspMessages(decode, buffer);
      buffer := remaining;
      received := received + chunk;
      decoded := decoded + messages;
      DispatchMessages(messages);
      ArrivalSettles(decode, before, chunk);
      Record(before, Arrival(chunk));
    }

    method OnInitialized()
      requires Valid()
      modifies this`initialized, this`history
      ensures Valid() && history == old(history) + [MarkInitialized]
    {
      ghost var before := View();
      initialized := true;
      Record(before, MarkInitialized);
    }

    /** `disposeSession` up to its `await`. */
    method DisposeUntilShutdown()
      requires Valid()
      modifies this`disposed, this`requestId, this`timers, this`pendingRequests, this`history
      ensures Valid() && history == old(history) + [BeginDispose]
    {
      ghost var before := View();
      if !disposed {
        disposed := true;
        if initialized {
          var _ := RegisterRequest("shutdown");
        }
      }
      Record(before, BeginDispose);
    }

    /** The rest of it: every request that was pending is now settled. */
    method DisposeRemaining()
      requires Valid()
      modifies this`pendingRequests, this`timers, this`settled, this`history
      ensures Valid() && history == old(history) + [EndDispose]
      ensures pendingRequests == map[] && timers == {}
      ensures forall id :: id in old(pendingRequests) ==> exists k :: 0 <= k < |settled| && settled[k].0 == id
    {
      ghost var before := View();
      SettleOnce(decode, history);
      DisposeEndKeeps(View());
      RejectPending();
      assert forall id :: id in old(pendingRequests) ==> SettledIn(View(), id);
      Record(before, EndDispose);
    }
  }
}
