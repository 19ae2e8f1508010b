/** What each ledger operation does to the session it names, and what the queries answer. */
module EventLedgerEffects {
  import opened Options
  import opened Json
  import opened EventLedger
  import opened EventLedgerTrim
  import opened EventLedgerReplay

  // ---------------------------------------------------------------- the queries

  /** The two queries by id answer from the session of that id, if it is complete and, for one of them,
      has the key. */
  lemma QueriesAnswer(store: Store, s: Session, key: string)
    requires Distinct(store) && s in store
    ensures ReadReplay(store, s.sessionId, key)
         == if s.complete && s.sessionKey == key then Replay(true, Some(s.sessionId), Some(key), s.events)
            else Replay(false, None, None, [])
    ensures ReadReplayBySessionId(store, s.sessionId)
         == if s.complete then Replay(true, Some(s.sessionId), Some(s.sessionKey), s.events)
            else Replay(false, None, None, [])
  {
    GetUnique(store, s);
  }

  lemma UnknownIsRefused(store: Store, id: string, key: string)
    requires forall k :: 0 <= k < |store| ==> store[k].sessionId != id
    ensures !ReadReplay(store, id, key).complete && !ReadReplayBySessionId(store, id).complete
  {
  }

  // ---------------------------------------------------------------- marking

  /** Main theorem. Once a session is marked incomplete no query replays it, and the queries for every
      other id answer as before. A wrong key marks nothing. */
  lemma MarkedIsRefused(cfg: Config, l: Ledger, id: string, key: string, other: string, otherKey: string)
    requires Distinct(l.store)
    ensures var after := Step(cfg, l, MarkSessionIncomplete(id, key)).store;
            && (Has(l.store, id) && Get(l.store, id).sessionKey == key ==>
                  && !ReadReplayBySessionId(after, id).complete && !ReadReplay(after, id, otherKey).complete
                  && ReadReplayBySessionKey(after, otherKey).sessionId != Some(id))
            && (!Has(l.store, id) || Get(l.store, id).sessionKey != key ==> after == l.store)
            && (other != id ==>
                  && ReadReplayBySessionId(after, other) == ReadReplayBySessionId(l.store, other)
                  && ReadReplay(after, other, otherKey) == ReadReplay(l.store, other, otherKey))
  {
    var after := Step(cfg, l, MarkSessionIncomplete(id, key)).store;
    if Has(l.store, id) && Get(l.store, id).sessionKey == key {
      var marked := Get(l.store, id).(complete := false, updatedAt := cfg.clock(l.ticks));
      PutFacts(l.store, marked);
      QueriesAnswer(after, marked, otherKey);
      ByKeyIsComplete(after, otherKey, marked);
      if other != id { OtherQueries(l.store, after, marked, other, otherKey); }
    }
  }

  /** The key query never returns a session that is stored incomplete. */
  lemma ByKeyIsComplete(store: Store, key: string, s: Session)
    requires Distinct(store) && s in store && !s.complete
    ensures ReadReplayBySessionKey(store, key).sessionId != Some(s.sessionId)
  {
    ByKeyPicksNewest(store, key);
    if ReadReplayBySessionKey(store, key).complete {
      var o :| o in store && o.complete && ReadReplayBySessionKey(store, key) == BuildReplay(o);
      if o.sessionId == s.sessionId {
        GetUnique(store, o);
        GetUnique(store, s);
      }
    }
  }

  lemma OtherQueries(before: Store, after: Store, s: Session, other: string, key: string)
    requires Distinct(before) && Distinct(after) && other != s.sessionId
    requires forall x :: x in after <==> x == s || (x in before && x.sessionId != s.sessionId)
    ensures ReadReplayBySessionId(after, other) == ReadReplayBySessionId(before, other)
    ensures ReadReplay(after, other, key) == ReadReplay(before, other, key)
  {
    if Has(before, other) {
      QueriesAnswer(before, Get(before, other), key);
      QueriesAnswer(after, Get(before, other), key);
    } else if Has(after, other) {
      QueriesAnswer(before, Get(after, other), key);
    }
  }

  // ---------------------------------------------------------------- starting

  /** What a start leaves of the session it names, whatever the trim took from its events: the key given,
      the cwd given unless a kept session has one and none is given, and a fresh time. */
  lemma StartWrites(cfg: Config, t: Traced, p: StartParams, s: Session)
    requires Tracked(t) && s in Start(cfg, t.ledger, p).store && s.sessionId == p.sessionId
    ensures Written(cfg, t.ledger, p, s)
  {
    var started := GetOrCreate(cfg, t.ledger, p).store;
    PutFactsForStart(cfg, t, p);
    StartedIsWritten(cfg, t.ledger, p);
    TrimPostcondition(cfg, started);
    ShrunkStaysWritten(cfg, t.ledger, p, Get(started, p.sessionId), s);
  }

  predicate Written(cfg: Config, l: Ledger, p: StartParams, s: Session) {
    var kept, now := !p.reset && Has(l.store, p.sessionId), cfg.clock(l.ticks);
    && s.sessionKey == p.sessionKey && s.updatedAt == now
    && s.cwd == (if kept && p.cwd == "" then Get(l.store, p.sessionId).cwd else p.cwd)
    && s.createdAt == (if kept then Get(l.store, p.sessionId).createdAt else now)
    && s.nextSeq == (if kept then Get(l.store, p.sessionId).nextSeq else 1)
    && (!kept ==> s.events == [] && (s.complete <==> p.complete))
  }

  lemma StartedIsWritten(cfg: Config, l: Ledger, p: StartParams)
    requires Distinct(l.store)
    ensures Written(cfg, l, p, Get(GetOrCreate(cfg, l, p).store, p.sessionId))
  {
    var now := cfg.clock(l.ticks);
    if !p.reset && Has(l.store, p.sessionId) {
      var e := Get(l.store, p.sessionId);
      PutFacts(l.store, e.(sessionKey := p.sessionKey, cwd := if p.cwd != "" then p.cwd else e.cwd,
                           complete := e.complete || p.complete, updatedAt := now));
    } else {
      PutFacts(l.store, Session(p.sessionId, p.sessionKey, p.cwd, p.complete, now, now, 1, []));
    }
  }

  lemma ShrunkStaysWritten(cfg: Config, l: Ledger, p: StartParams, a: Session, b: Session)
    requires Written(cfg, l, p, a) && Shrunk(a, b)
    ensures Written(cfg, l, p, b)
  {
  }

  /** A start that leaves the ledger within its limits is not trimmed: the session is there with all it
      had, and complete if it was or if asked to be. */
  lemma StartStores(cfg: Config, t: Traced, p: StartParams)
    requires Tracked(t) && WithinLimits(cfg, GetOrCreate(cfg, t.ledger, p).store)
    ensures var after, kept := Start(cfg, t.ledger, p).store, !p.reset && Has(t.ledger.store, p.sessionId);
            && Has(after, p.sessionId)
            && Get(after, p.sessionId).events == (if kept then Get(t.ledger.store, p.sessionId).events else [])
            && (Get(after, p.sessionId).complete
                <==> p.complete || (kept && Get(t.ledger.store, p.sessionId).complete))
  {
    PutFactsForStart(cfg, t, p);
    TrimFixpoint(cfg, GetOrCreate(cfg, t.ledger, p).store);
  }

  // ---------------------------------------------------------------- recording

  /** An update that leaves the ledger within its limits is stored last, with the next number, the time
      of the second clock reading and the caller's ids; an empty run id is none. */
  lemma AppendStores(cfg: Config, t: Traced, u: UpdateParams)
    requires Tracked(t) && WithinLimits(cfg, PushUpdate(cfg, t.ledger, u).store)
    ensures var old', now := t.ledger.store, cfg.clock(t.ledger.ticks + 1);
            var after := Append(cfg, t.ledger, u).store;
            var before, number := if Has(old', u.sessionId) then Get(old', u.sessionId).events else [],
                                  if Has(old', u.sessionId) then Get(old', u.sessionId).nextSeq else 1;
            && Has(after, u.sessionId)
            && Get(after, u.sessionId).sessionKey == u.sessionKey && Get(after, u.sessionId).updatedAt == now
            && Get(after, u.sessionId).nextSeq == number + 1
            && Get(after, u.sessionId).events
               == before + [Entry(number, now, u.sessionId, u.sessionKey,
                                  if u.runId == Some("") then None else u.runId, u.update)]
  {
    var p := StartParams(u.sessionId, u.sessionKey, "", false, false);
    var l1 := GetOrCreate(cfg, t.ledger, p);
    StartedFields(cfg, t, p);
    PutFacts(l1.store, PushEvent(Get(l1.store, u.sessionId), cfg.clock(l1.ticks), u));
    TrimFixpoint(cfg, PushUpdate(cfg, t.ledger, u).store);
  }

  lemma StartedFields(cfg: Config, t: Traced, p: StartParams)
    requires Tracked(t) && !p.reset
    ensures var s, old' := Started(cfg, t, p), t.ledger.store;
            && Distinct(GetOrCreate(cfg, t.ledger, p).store)
            && GetOrCreate(cfg, t.ledger, p).ticks == t.ledger.ticks + 1
            && s.sessionId == p.sessionId && s.sessionKey == p.sessionKey
            && s.events == (if Has(old', p.sessionId) then Get(old', p.sessionId).events else [])
            && s.nextSeq == (if Has(old', p.sessionId) then Get(old', p.sessionId).nextSeq else 1)
  {
    PutFactsForStart(cfg, t, p);
  }

  predicate IsChunk(e: Entry, key: string, run: string, content: Json) {
    && e.sessionKey == key && e.runId == (if run == "" then None else Some(run))
    && e.update == Obj([("sessionUpdate", Str("user_message_chunk")), ("content", content)])
  }

  /** `after` continues `before` by one chunk per block of `prompt`, in order. */
  predicate Chunked(before: seq<Entry>, after: seq<Entry>, key: string, run: string, prompt: seq<Json>) {
    && |after| == |before| + |prompt| && before <= after
    && forall k :: 0 <= k < |prompt| ==> IsChunk(after[|before| + k], key, run, prompt[k])
  }

  lemma ChunkedNext(
    before: seq<Entry>, e: Entry, after: seq<Entry>, key: string, run: string, prompt: seq<Json>)
    requires prompt != [] && IsChunk(e, key, run, prompt[0])
    requires Chunked(before + [e], after, key, run, prompt[1..])
    ensures Chunked(before, after, key, run, prompt)
  {
    var next := before + [e];
    assert after[|before|] == after[..|next|][|before|] == e;
    assert after[..|before|] == after[..|next|][..|before|] == before;
    forall k | 0 <= k < |prompt| ensures IsChunk(after[|before| + k], key, run, prompt[k]) {
      if k > 0 { assert IsChunk(after[|next| + (k - 1)], key, run, prompt[1..][k - 1]); }
    }
  }

  lemma FirstChunk(cfg: Config, t: Traced, id: string, key: string, run: string, content: Json) returns (e: Entry)
    ensures LogOf(AppendTraced(cfg, t, UpdateParams(id, key, Some(run), UserChunk(content))).log, id)
         == LogOf(t.log, id) + [e]
    ensures IsChunk(e, key, run, content)
  {
    var u := UpdateParams(id, key, Some(run), UserChunk(content));
    e := Logged(cfg, t, u)[id][|LogOf(t.log, id)|];
  }

  /** Main theorem. A prompt is logged as one chunk per content block, in order, all for its run. */
  lemma {:induction false} PromptIsLogged(
    cfg: Config, t: Traced, id: string, key: string, run: string, prompt: seq<Json>)
    ensures Chunked(LogOf(t.log, id), LogOf(PromptTraced(cfg, t, id, key, run, prompt).log, id), key, run, prompt)
    decreases |prompt|
  {
    if prompt != [] {
      var next := AppendTraced(cfg, t, UpdateParams(id, key, Some(run), UserChunk(prompt[0])));
      var e := FirstChunk(cfg, t, id, key, run, prompt[0]);
      PromptIsLogged(cfg, next, id, key, run, prompt[1..]);
      ChunkedNext(LogOf(t.log, id), e, LogOf(PromptTraced(cfg, t, id, key, run, prompt).log, id), key, run, prompt);
    }
  }
}
