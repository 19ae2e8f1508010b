/** Replay fidelity: the evicting ledger, whenever it answers `complete`, refines an unbounded log. */
module EventLedgerReplay {
  import opened Options
  import opened Json
  import opened EventLedger
  import opened EventLedgerTrim

  datatype Op =
    | StartSession(start: StartParams)
    | RecordUpdate(u: UpdateParams)
    | RecordUserPrompt(sessionId: string, sessionKey: string, runId: string, prompt: seq<Json>)
    | MarkSessionIncomplete(sessionId: string, sessionKey: string)

  function Step(cfg: Config, l: Ledger, op: Op): Ledger {
    match op
    case StartSession(p) => Start(cfg, l, p)
    case RecordUpdate(u) => Append(cfg, l, u)
    case RecordUserPrompt(id, key, run, prompt) => RecordPrompt(cfg, l, id, key, run, prompt)
    case MarkSessionIncomplete(id, key) => MarkIncomplete(cfg, l, id, key)
  }

  // ---------------------------------------------------------------- the unbounded log

  /** Everything recorded per session id since its last reset; nothing is ever evicted. */
  type Log = map<string, seq<Entry>>

  function LogOf(log: Log, id: string): seq<Entry> { if id in log then log[id] else [] }

  datatype Traced = Traced(ledger: Ledger, log: Log)

  const Fresh := Traced(EmptyLedger, map[])

  /** The entry an unbounded log would hold: numbered by its own length. `now` is the second clock
      reading of `appendUpdate`; `getOrCreateSession` took the first. */
  function Logged(cfg: Config, t: Traced, u: UpdateParams): Log {
    var lg := LogOf(t.log, u.sessionId);
    t.log[u.sessionId := lg + [Entry(|lg| + 1, cfg.clock(t.ledger.ticks + 1), u.sessionId, u.sessionKey,
                                     TruthyRun(u.runId), u.update)]]
  }

  function AppendTraced(cfg: Config, t: Traced, u: UpdateParams): Traced {
    Traced(Append(cfg, t.ledger, u), Logged(cfg, t, u))
  }

  function StartLog(log: Log, p: StartParams): Log {
    if p.reset then log[p.sessionId := []] else log
  }

  function PromptTraced(
    cfg: Config, t: Traced, id: string, key: string, run: string, prompt: seq<Json>
  ): Traced
    decreases |prompt|
  {
    if prompt == [] then t
    else PromptTraced(cfg, AppendTraced(cfg, t, UpdateParams(id, key, Some(run), UserChunk(prompt[0]))),
                      id, key, run, prompt[1..])
  }

  function StepTraced(cfg: Config, t: Traced, op: Op): Traced {
    match op
    case StartSession(p) => Traced(Start(cfg, t.ledger, p), StartLog(t.log, p))
    case RecordUpdate(u) => AppendTraced(cfg, t, u)
    case RecordUserPrompt(id, key, run, prompt) => PromptTraced(cfg, t, id, key, run, prompt)
    case MarkSessionIncomplete(id, key) => Traced(MarkIncomplete(cfg, t.ledger, id, key), t.log)
  }

  function Run(cfg: Config, ops: seq<Op>): Traced {
    if ops == [] then Fresh else StepTraced(cfg, Run(cfg, ops[..|ops| - 1]), ops[|ops| - 1])
  }

  // ---------------------------------------------------------------- invariants of every run

  /** Consecutive sequence numbers ending at `nextSeq - 1`: eviction only ever removes a prefix. */
  predicate Numbered(s: Session) {
    && |s.events| < s.nextSeq
    && forall i :: 0 <= i < |s.events| ==> s.events[i].seqNo == s.nextSeq - |s.events| + i
  }

  /** A session retains at most what was recorded, and if nothing is missing it holds the very log. */
  predicate Tracks(s: Session, lg: seq<Entry>) {
    && Numbered(s)
    && s.nextSeq <= |lg| + 1
    && (|s.events| == |lg| ==> s.events == lg)
  }

  ghost predicate Tracked(t: Traced) {
    && Distinct(t.ledger.store)
    && forall s :: s in t.ledger.store ==> Tracks(s, LogOf(t.log, s.sessionId))
  }

  /** No session that claims to be complete has lost an event. */
  ghost predicate Honest(t: Traced) {
    forall s :: s in t.ledger.store && s.complete ==> |s.events| == |LogOf(t.log, s.sessionId)|
  }

  lemma PutFacts(store: Store, s: Session)
    requires Distinct(store)
    ensures Distinct(Put(store, s))
    ensures forall x :: x in Put(store, s) <==> x == s || (x in store && x.sessionId != s.sessionId)
    ensures Get(Put(store, s), s.sessionId) == s
  {
    var r := Put(store, s);
    var i := IndexOf(store, s.sessionId);
    assert r[i] == s;
    forall x | x in store && x.sessionId != s.sessionId ensures x in r {
      var k :| 0 <= k < |store| && store[k] == x;
      assert r[k] == x;
    }
    GetUnique(r, s);
  }

  lemma ShrunkTracks(a: Session, b: Session, lg: seq<Entry>)
    requires Tracks(a, lg) && Shrunk(a, b)
    ensures Tracks(b, lg)
  {
    if |b.events| == |lg| { assert a.events[0..] == a.events; }
  }

  /** Trimming never breaks tracking and never makes a session lie. */
  lemma TrimKeeps(cfg: Config, l: Ledger, log: Log)
    requires Tracked(Traced(l, log))
    ensures Tracked(Traced(Ledger(Trim(cfg, l.store), l.ticks), log))
    ensures Honest(Traced(l, log)) ==> Honest(Traced(Ledger(Trim(cfg, l.store), l.ticks), log))
  {
    TrimPostcondition(cfg, l.store);
    forall s | s in Trim(cfg, l.store) ensures Tracks(s, LogOf(log, s.sessionId)) {
      ShrunkTracks(Get(l.store, s.sessionId), s, LogOf(log, s.sessionId));
    }
  }

  /** The ledger retains as many entries for the id as were recorded for it since its last reset. */
  predicate NothingLost(t: Traced, id: string) {
    var i := IndexOf(t.ledger.store, id);
    (if i < |t.ledger.store| then |t.ledger.store[i].events| else 0) == |LogOf(t.log, id)|
  }

  lemma GetOrCreateTracked(cfg: Config, t: Traced, p: StartParams)
    requires Tracked(t)
    ensures Tracked(Traced(GetOrCreate(cfg, t.ledger, p), StartLog(t.log, p)))
  {
    PutFactsForStart(cfg, t, p);
  }

  /** The session `getOrCreateSession` stores. */
  function Started(cfg: Config, t: Traced, p: StartParams): Session {
    Get(GetOrCreate(cfg, t.ledger, p).store, p.sessionId)
  }

  lemma PutFactsForStart(cfg: Config, t: Traced, p: StartParams)
    requires Tracked(t)
    ensures GetOrCreate(cfg, t.ledger, p).store == Put(t.ledger.store, Started(cfg, t, p))
    ensures Distinct(GetOrCreate(cfg, t.ledger, p).store)
    ensures forall x :: x in GetOrCreate(cfg, t.ledger, p).store
              <==> x == Started(cfg, t, p) || (x in t.ledger.store && x.sessionId != p.sessionId)
    ensures Tracks(Started(cfg, t, p), LogOf(StartLog(t.log, p), p.sessionId))
    ensures Started(cfg, t, p).complete <==>
              p.complete || (!p.reset && Has(t.ledger.store, p.sessionId)
                             && Get(t.ledger.store, p.sessionId).complete)
    ensures |Started(cfg, t, p).events| ==
              if !p.reset && Has(t.ledger.store, p.sessionId)
              then |Get(t.ledger.store, p.sessionId).events| else 0
  {
    var now := cfg.clock(t.ledger.ticks);
    var i := IndexOf(t.ledger.store, p.sessionId);
    if !p.reset && i < |t.ledger.store| {
      var e := t.ledger.store[i];
      PutFacts(t.ledger.store, e.(sessionKey := p.sessionKey,
                                  cwd := if p.cwd != "" then p.cwd else e.cwd,
                                  complete := e.complete || p.complete, updatedAt := now));
    } else {
      PutFacts(t.ledger.store,
               Session(p.sessionId, p.sessionKey, p.cwd, p.complete, now, now, 1, []));
    }
  }

  /** Exactly when `getOrCreateSession` may set `complete` without making the ledger lie. */
  lemma GetOrCreateHonestIff(cfg: Config, t: Traced, p: StartParams)
    requires Tracked(t) && Honest(t)
    ensures Honest(Traced(GetOrCreate(cfg, t.ledger, p), StartLog(t.log, p)))
            <==> !p.complete || p.reset || NothingLost(t, p.sessionId)
  {
    PutFactsForStart(cfg, t, p);
    var t' := Traced(GetOrCreate(cfg, t.ledger, p), StartLog(t.log, p));
    var s := Started(cfg, t, p);
    assert s in t'.ledger.store;
  }

  lemma PushTracks(s: Session, lg: seq<Entry>, now: int, u: UpdateParams)
    requires Tracks(s, lg)
    ensures Tracks(PushEvent(s, now, u),
                   lg + [Entry(|lg| + 1, now, u.sessionId, u.sessionKey, TruthyRun(u.runId), u.update)])
  {
  }

  lemma PushedTracked(cfg: Config, t: Traced, u: UpdateParams)
    requires Tracked(t)
    ensures Tracked(Traced(PushUpdate(cfg, t.ledger, u), Logged(cfg, t, u)))
    ensures Honest(t) ==> Honest(Traced(PushUpdate(cfg, t.ledger, u), Logged(cfg, t, u)))
  {
    var p := StartParams(u.sessionId, u.sessionKey, "", false, false);
    PutFactsForStart(cfg, t, p);
    var l1 := GetOrCreate(cfg, t.ledger, p);
    var s := Started(cfg, t, p);
    var pushed := PushEvent(s, cfg.clock(l1.ticks), u);
    PushTracks(s, LogOf(t.log, u.sessionId), cfg.clock(l1.ticks), u);
    PutFacts(l1.store, pushed);
    var after := PushUpdate(cfg, t.ledger, u).store;
    assert after == Put(l1.store, pushed);
    var log := Logged(cfg, t, u);
    forall x | x in after
      ensures Tracks(x, LogOf(log, x.sessionId))
      ensures Honest(t) && x.complete ==> |x.events| == |LogOf(log, x.sessionId)|
    {
      if x != pushed {
        assert x in t.ledger.store && LogOf(log, x.sessionId) == LogOf(t.log, x.sessionId);
      }
    }
  }

  lemma AppendKeeps(cfg: Config, t: Traced, u: UpdateParams)
    requires Tracked(t)
    ensures Tracked(AppendTraced(cfg, t, u))
    ensures Honest(t) ==> Honest(AppendTraced(cfg, t, u))
  {
    PushedTracked(cfg, t, u);
    TrimKeeps(cfg, PushUpdate(cfg, t.ledger, u), Logged(cfg, t, u));
  }

  lemma {:induction false} PromptKeeps(
    cfg: Config, t: Traced, id: string, key: string, run: string, prompt: seq<Json>)
    requires Tracked(t)
    ensures Tracked(PromptTraced(cfg, t, id, key, run, prompt))
    ensures Honest(t) ==> Honest(PromptTraced(cfg, t, id, key, run, prompt))
    decreases |prompt|
  {
    if prompt != [] {
      var u := UpdateParams(id, key, Some(run), UserChunk(prompt[0]));
      AppendKeeps(cfg, t, u);
      PromptKeeps(cfg, AppendTraced(cfg, t, u), id, key, run, prompt[1..]);
    }
  }

  /** One step of any run keeps tracking; it keeps honesty whenever a `complete` start without
      `reset` is made only while nothing has been lost. */
  lemma StepKeeps(cfg: Config, t: Traced, op: Op)
    requires Tracked(t)
    ensures Tracked(StepTraced(cfg, t, op))
    ensures Honest(t) && (op.StartSession? && op.start.complete && !op.start.reset
                          ==> NothingLost(t, op.start.sessionId))
            ==> Honest(StepTraced(cfg, t, op))
  {
    match op
    case StartSession(p) => StartKeeps(cfg, t, p);
    case RecordUpdate(u) => AppendKeeps(cfg, t, u);
    case RecordUserPrompt(id, key, run, prompt) => PromptKeeps(cfg, t, id, key, run, prompt);
    case MarkSessionIncomplete(id, key) => MarkKeeps(cfg, t, id, key);
  }

  lemma StartKeeps(cfg: Config, t: Traced, p: StartParams)
    requires Tracked(t)
    ensures Tracked(StepTraced(cfg, t, StartSession(p)))
    ensures Honest(t) && (p.complete && !p.reset ==> NothingLost(t, p.sessionId))
            ==> Honest(StepTraced(cfg, t, StartSession(p)))
  {
    GetOrCreateTracked(cfg, t, p);
    if Honest(t) { GetOrCreateHonestIff(cfg, t, p); }
    TrimKeeps(cfg, GetOrCreate(cfg, t.ledger, p), StartLog(t.log, p));
  }

  lemma MarkKeeps(cfg: Config, t: Traced, id: string, key: string)
    requires Tracked(t)
    ensures Tracked(StepTraced(cfg, t, MarkSessionIncomplete(id, key)))
    ensures Honest(t) ==> Honest(StepTraced(cfg, t, MarkSessionIncomplete(id, key)))
  {
    var i := IndexOf(t.ledger.store, id);
    if i < |t.ledger.store| {
      PutFacts(t.ledger.store, t.ledger.store[i].(complete := false, updatedAt := cfg.clock(t.ledger.ticks)));
    }
  }

  // ---------------------------------------------------------------- whole runs

  /** `complete` without `reset` is requested only for a session that is present and complete. */
  ghost predicate Disciplined(cfg: Config, ops: seq<Op>) {
    forall n :: 0 <= n < |ops| ==> ClaimAllowed(Run(cfg, ops[..n]).ledger.store, ops[n])
  }

  predicate ClaimAllowed(store: Store, op: Op) {
    op.StartSession? && op.start.complete && !op.start.reset
    ==> Has(store, op.start.sessionId) && Get(store, op.start.sessionId).complete
  }

  lemma {:induction false} RunTracked(cfg: Config, ops: seq<Op>)
    ensures Tracked(Run(cfg, ops))
  {
    if ops != [] {
      RunTracked(cfg, ops[..|ops| - 1]);
      StepKeeps(cfg, Run(cfg, ops[..|ops| - 1]), ops[|ops| - 1]);
    }
  }

  lemma {:induction false} RunHonest(cfg: Config, ops: seq<Op>)
    requires Disciplined(cfg, ops)
    ensures Honest(Run(cfg, ops))
  {
    if ops != [] {
      var before := ops[..|ops| - 1];
      var op := ops[|ops| - 1];
      forall n | 0 <= n < |before| ensures ClaimAllowed(Run(cfg, before[..n]).ledger.store, before[n]) {
        assert before[..n] == ops[..n];
      }
      RunHonest(cfg, before);
      RunTracked(cfg, before);
      assert ClaimAllowed(Run(cfg, ops[..|ops| - 1]).ledger.store, op);
      StepKeeps(cfg, Run(cfg, before), op);
    }
  }

  /** A replay that says `complete` is the unbounded log of its session, numbered 1..n. */
  predicate Faithful(r: Replay, log: Log) {
    r.complete ==>
      && r.sessionId.Some?
      && r.events == LogOf(log, r.sessionId.value)
      && forall i :: 0 <= i < |r.events| ==> r.events[i].seqNo == i + 1
  }

  lemma BuildReplayFaithful(t: Traced, s: Session)
    requires Tracked(t) && Honest(t) && s in t.ledger.store && s.complete
    ensures Faithful(BuildReplay(s), t.log)
    ensures |s.events| == s.nextSeq - 1
  {
  }

  lemma {:induction false} CompleteWithKeySubset(store: Store, key: string)
    ensures forall s :: s in CompleteWithKey(store, key) <==> s in store && s.sessionKey == key && s.complete
  {
    if store != [] { CompleteWithKeySubset(store[1..], key); }
  }

  /** The key query picks the most recently updated complete session with that key. */
  lemma ByKeyPicksNewest(store: Store, key: string)
    ensures ReadReplayBySessionKey(store, key).complete
            <==> exists s :: s in store && s.sessionKey == key && s.complete
    ensures ReadReplayBySessionKey(store, key).complete ==>
              exists s :: s in store && s.sessionKey == key && s.complete
                && ReadReplayBySessionKey(store, key) == BuildReplay(s)
                && forall o :: o in store && o.sessionKey == key && o.complete ==> o.updatedAt <= s.updatedAt
  {
    var found := CompleteWithKey(store, key);
    CompleteWithKeySubset(store, key);
    NewestFirstLength(found);
    NewestFirstSorted(found);
    var sorted := NewestFirst(found);
    if sorted != [] {
      var s := sorted[0];
      assert s in multiset(sorted);
      forall o | o in store && o.sessionKey == key && o.complete ensures o.updatedAt <= s.updatedAt {
        assert o in multiset(sorted);
        var k :| 0 <= k < |sorted| && sorted[k] == o;
      }
    } else {
      assert found == [];
    }
  }

  /** All three queries on a truthful ledger are faithful. */
  lemma HonestReplays(t: Traced, sessionId: string, sessionKey: string)
    requires Tracked(t) && Honest(t)
    ensures Faithful(ReadReplay(t.ledger.store, sessionId, sessionKey), t.log)
    ensures Faithful(ReadReplayBySessionId(t.ledger.store, sessionId), t.log)
    ensures Faithful(ReadReplayBySessionKey(t.ledger.store, sessionKey), t.log)
  {
    if Has(t.ledger.store, sessionId) && Get(t.ledger.store, sessionId).complete {
      BuildReplayFaithful(t, Get(t.ledger.store, sessionId));
    }
    ByKeyPicksNewest(t.ledger.store, sessionKey);
    if ReadReplayBySessionKey(t.ledger.store, sessionKey).complete {
      var s :| s in t.ledger.store && s.complete
               && ReadReplayBySessionKey(t.ledger.store, sessionKey) == BuildReplay(s);
      BuildReplayFaithful(t, s);
    }
  }

  /** Main theorem. Whatever the limits force out, in any disciplined run each of the three replay
      queries that answers `complete` returns every update recorded since the last reset. */
  lemma ReplayFidelity(cfg: Config, ops: seq<Op>, sessionId: string, sessionKey: string)
    requires Disciplined(cfg, ops)
    ensures Faithful(ReadReplay(Run(cfg, ops).ledger.store, sessionId, sessionKey), Run(cfg, ops).log)
    ensures Faithful(ReadReplayBySessionId(Run(cfg, ops).ledger.store, sessionId), Run(cfg, ops).log)
    ensures Faithful(ReadReplayBySessionKey(Run(cfg, ops).ledger.store, sessionKey), Run(cfg, ops).log)
  {
    RunTracked(cfg, ops);
    RunHonest(cfg, ops);
    HonestReplays(Run(cfg, ops), sessionId, sessionKey);
  }

  /** Sequence numbers in every run, disciplined or not; and in disciplined ones
      `complete` says the event count is `nextSeq - 1`. */
  lemma SequenceInvariant(cfg: Config, ops: seq<Op>, s: Session)
    requires s in Run(cfg, ops).ledger.store
    ensures Numbered(s)
    ensures Disciplined(cfg, ops) && s.complete ==> |s.events| == s.nextSeq - 1
  {
    RunTracked(cfg, ops);
    if Disciplined(cfg, ops) && s.complete {
      RunHonest(cfg, ops);
      BuildReplayFaithful(Run(cfg, ops), s);
    }
  }

  lemma AppendFits(cfg: Config, t: Traced, u: UpdateParams)
    requires ValidConfig(cfg) && EmptyFits(cfg) && Tracked(t)
    ensures WithinLimits(cfg, Append(cfg, t.ledger, u).store)
  {
    PushedTracked(cfg, t, u);
    TrimPostcondition(cfg, PushUpdate(cfg, t.ledger, u).store);
  }

  lemma {:induction false} PromptFits(
    cfg: Config, t: Traced, id: string, key: string, run: string, prompt: seq<Json>)
    requires ValidConfig(cfg) && EmptyFits(cfg) && Tracked(t) && prompt != []
    ensures WithinLimits(cfg, PromptTraced(cfg, t, id, key, run, prompt).ledger.store)
    decreases |prompt|
  {
    var u := UpdateParams(id, key, Some(run), UserChunk(prompt[0]));
    var next := AppendTraced(cfg, t, u);
    assert PromptTraced(cfg, t, id, key, run, prompt) == PromptTraced(cfg, next, id, key, run, prompt[1..]);
    if prompt[1..] == [] {
      AppendFits(cfg, t, u);
    } else {
      AppendKeeps(cfg, t, u);
      PromptFits(cfg, next, id, key, run, prompt[1..]);
    }
  }

  /** After every start and every append the store is within all three limits. */
  lemma AlwaysWithinLimits(cfg: Config, ops: seq<Op>, op: Op)
    requires ValidConfig(cfg) && EmptyFits(cfg)
    requires op.StartSession? || op.RecordUpdate? || (op.RecordUserPrompt? && op.prompt != [])
    ensures WithinLimits(cfg, StepTraced(cfg, Run(cfg, ops), op).ledger.store)
  {
    RunTracked(cfg, ops);
    var t := Run(cfg, ops);
    match op
    case StartSession(p) =>
      PutFactsForStart(cfg, t, p);
      TrimPostcondition(cfg, GetOrCreate(cfg, t.ledger, p).store);
    case RecordUpdate(u) => AppendFits(cfg, t, u);
    case RecordUserPrompt(id, key, run, prompt) => PromptFits(cfg, t, id, key, run, prompt);
  }

  // ---------------------------------------------------------------- why the discipline is needed

  /** Room for one session and one event; nothing is ever too large. */
  function TinyConfig(): Config {
    Config(1, 1, 1024, (n: nat) => n, (j: Json) => "", (s: string) => None, (s: string) => 0)
  }

  function Lone(complete: bool, updatedAt: int, nextSeq: int, events: seq<Entry>): Store {
    [Session("s", "k", "", complete, 0, updatedAt, nextSeq, events)]
  }

  lemma TinyFirst(u: UpdateParams)
    requires u.sessionId == "s" && u.sessionKey == "k" && u.runId == None
    ensures Append(TinyConfig(), EmptyLedger, u)
            == Ledger(Lone(false, 1, 2, [Entry(1, 1, "s", "k", None, u.update)]), 2)
  {
    var e1 := Entry(1, 1, "s", "k", None, u.update);
    var after := Lone(false, 1, 2, [e1]);
    assert [] + [e1] == [e1];
    assert Put(Lone(false, 0, 1, []), PushEvent(Lone(false, 0, 1, [])[0], 1, u)) == after;
    TrimFixpoint(TinyConfig(), after);
  }

  lemma TinySecond(u: UpdateParams, e: Entry)
    requires u.sessionId == "s" && u.sessionKey == "k" && u.runId == None
    ensures Append(TinyConfig(), Ledger(Lone(false, 1, 2, [e]), 2), u)
            == Ledger(Lone(false, 3, 3, [Entry(2, 3, "s", "k", None, u.update)]), 4)
  {
    var e2 := Entry(2, 3, "s", "k", None, u.update);
    var touched := Lone(false, 2, 2, [e]);
    assert GetOrCreate(TinyConfig(), Ledger(Lone(false, 1, 2, [e]), 2),
                       StartParams("s", "k", "", false, false)) == Ledger(touched, 3);
    assert [e] + [e2] == [e, e2];
    assert [e, e2][1..] == [e2];
    assert Put(touched, PushEvent(touched[0], 3, u)) == Lone(false, 3, 3, [e, e2]);
    assert CapEvents(Lone(false, 3, 3, [e, e2]), 1) == Lone(false, 3, 3, [e2]);
  }

  lemma TinyClaim(e: Entry)
    ensures Start(TinyConfig(), Ledger(Lone(false, 3, 3, [e]), 4), StartParams("s", "k", "", true, false))
            == Ledger(Lone(true, 4, 3, [e]), 5)
  {
    TrimFixpoint(TinyConfig(), Lone(true, 4, 3, [e]));
  }

  lemma RunSnoc(cfg: Config, ops: seq<Op>, op: Op)
    ensures Run(cfg, ops + [op]) == StepTraced(cfg, Run(cfg, ops), op)
  {
    assert (ops + [op])[..|ops|] == ops;
  }

  lemma TinyTwo(cfg: Config, u: UpdateParams)
    requires cfg == TinyConfig() && u.sessionId == "s" && u.sessionKey == "k" && u.runId == None
    ensures Run(cfg, [RecordUpdate(u)] + [RecordUpdate(u)]).ledger
            == Ledger(Lone(false, 3, 3, [Entry(2, 3, "s", "k", None, u.update)]), 4)
    ensures |LogOf(Run(cfg, [RecordUpdate(u)] + [RecordUpdate(u)]).log, "s")| == 2
  {
    TinyFirst(u);
    TinySecond(u, Entry(1, 1, "s", "k", None, u.update));
    RunSnoc(cfg, [], RecordUpdate(u));
    assert [] + [RecordUpdate(u)] == [RecordUpdate(u)];
    RunSnoc(cfg, [RecordUpdate(u)], RecordUpdate(u));
    var t1 := Run(cfg, [RecordUpdate(u)]);
    assert t1 == AppendTraced(cfg, Fresh, u);
    assert |LogOf(t1.log, "s")| == 1;
  }

  /** One event of room, two updates, then `complete` without `reset`: the first update is gone,
      yet the replay says it is complete. */
  lemma UndisciplinedStartLies(cfg: Config, u: UpdateParams) returns (ops: seq<Op>)
    requires cfg == TinyConfig() && u.sessionId == "s" && u.sessionKey == "k" && u.runId == None
    ensures ValidConfig(cfg) && !Disciplined(cfg, ops)
    ensures ReadReplayBySessionId(Run(cfg, ops).ledger.store, "s").complete
    ensures |ReadReplayBySessionId(Run(cfg, ops).ledger.store, "s").events|
            < |LogOf(Run(cfg, ops).log, "s")|
  {
    var ops2 := [RecordUpdate(u)] + [RecordUpdate(u)];
    var claim := StartSession(StartParams("s", "k", "", true, false));
    ops := ops2 + [claim];
    TinyTwo(cfg, u);
    TinyClaim(Entry(2, 3, "s", "k", None, u.update));
    RunSnoc(cfg, ops2, claim);
    assert ops[..2] == ops2;
    assert !ClaimAllowed(Run(cfg, ops[..2]).ledger.store, ops[2]);
  }
}
