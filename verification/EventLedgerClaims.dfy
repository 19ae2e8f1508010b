/** When a start may claim `complete` without making the ledger lie, told from what was evicted. */
module EventLedgerClaims {
  import opened Options
  import opened Json
  import opened EventLedger
  import opened EventLedgerTrim
  import opened EventLedgerReplay

  // ---------------------------------------------------------------- evictions

  /** The number of entries stored for `id`. */
  function Retained(store: Store, id: string): nat { if Has(store, id) then |Get(store, id).events| else 0 }

  /** This trim takes an entry from `id`: shifted, capped, or gone with its session. */
  predicate TrimEvicts(cfg: Config, store: Store, id: string) {
    Retained(Trim(cfg, store), id) < Retained(store, id)
  }

  predicate PromptEvicts(
    cfg: Config, l: Ledger, sessionId: string, key: string, run: string, prompt: seq<Json>, id: string)
    decreases |prompt|
  {
    prompt != [] &&
    var u := UpdateParams(sessionId, key, Some(run), UserChunk(prompt[0]));
    || TrimEvicts(cfg, PushUpdate(cfg, l, u).store, id)
    || PromptEvicts(cfg, Append(cfg, l, u), sessionId, key, run, prompt[1..], id)
  }

  /** Some trim of this operation takes an entry from `id`. */
  predicate Evicts(cfg: Config, l: Ledger, op: Op, id: string) {
    match op
    case StartSession(p) => TrimEvicts(cfg, GetOrCreate(cfg, l, p).store, id)
    case RecordUpdate(u) => TrimEvicts(cfg, PushUpdate(cfg, l, u).store, id)
    case RecordUserPrompt(sessionId, key, run, prompt) => PromptEvicts(cfg, l, sessionId, key, run, prompt, id)
    case MarkSessionIncomplete(_, _) => false
  }

  predicate Resets(op: Op, id: string) { op.StartSession? && op.start.reset && op.start.sessionId == id }

  /** An entry of `id` was evicted by an operation from the `n`-th on, and `id` not reset after it. */
  predicate EvictedAfter(cfg: Config, ops: seq<Op>, n: nat, id: string) {
    |ops| > n &&
    var init, last := ops[..|ops| - 1], ops[|ops| - 1];
    Evicts(cfg, Run(cfg, init).ledger, last, id) || (!Resets(last, id) && EvictedAfter(cfg, init, n, id))
  }

  // ---------------------------------------------------------------- evicted exactly when missing

  /** Entries of `id` that the unbounded log has and the ledger has not. */
  function Missing(t: Traced, id: string): int { |LogOf(t.log, id)| - Retained(t.ledger.store, id) }

  lemma RetainedIs(store: Store, s: Session)
    requires Distinct(store) && s in store
    ensures Retained(store, s.sessionId) == |s.events|
  {
    GetUnique(store, s);
  }

  lemma TrackedMissing(t: Traced, id: string)
    requires Tracked(t)
    ensures Missing(t, id) >= 0
    ensures NothingLost(t, id) <==> Missing(t, id) == 0
  {
  }

  lemma TrimMissing(cfg: Config, l: Ledger, log: Log, id: string)
    requires Tracked(Traced(l, log))
    ensures var before, after := Traced(l, log), Traced(Ledger(Trim(cfg, l.store), l.ticks), log);
            && Missing(after, id) >= Missing(before, id)
            && (TrimEvicts(cfg, l.store, id) <==> Missing(after, id) > Missing(before, id))
  {
    TrimPostcondition(cfg, l.store);
    if Has(Trim(cfg, l.store), id) { assert Shrunk(Get(l.store, id), Get(Trim(cfg, l.store), id)); }
  }

  lemma StartedMissing(cfg: Config, t: Traced, p: StartParams, id: string)
    requires Tracked(t)
    ensures Missing(Traced(GetOrCreate(cfg, t.ledger, p), StartLog(t.log, p)), id)
         == if Resets(StartSession(p), id) then 0 else Missing(t, id)
  {
    PutFactsForStart(cfg, t, p);
    SameRetained(t.ledger.store, GetOrCreate(cfg, t.ledger, p).store, Started(cfg, t, p), id);
  }

  /** Replacing one session leaves the others as they are. */
  lemma SameRetained(before: Store, after: Store, s: Session, id: string)
    requires Distinct(before) && Distinct(after)
    requires forall x :: x in after <==> x == s || (x in before && x.sessionId != s.sessionId)
    ensures Retained(after, id) == if id == s.sessionId then |s.events| else Retained(before, id)
  {
    if id == s.sessionId {
      RetainedIs(after, s);
    } else if Has(before, id) {
      RetainedIs(after, Get(before, id));
    } else if Has(after, id) {
      RetainedIs(before, Get(after, id));
    }
  }

  lemma PushedMissing(cfg: Config, t: Traced, u: UpdateParams, id: string)
    requires Tracked(t)
    ensures Missing(Traced(PushUpdate(cfg, t.ledger, u), Logged(cfg, t, u)), id) == Missing(t, id)
  {
    var p := StartParams(u.sessionId, u.sessionKey, "", false, false);
    StartedMissing(cfg, t, p, id);
    GetOrCreateTracked(cfg, t, p);
    var l1 := GetOrCreate(cfg, t.ledger, p);
    var pushed := PushEvent(Get(l1.store, u.sessionId), cfg.clock(l1.ticks), u);
    PutFacts(l1.store, pushed);
    SameRetained(l1.store, Put(l1.store, pushed), pushed, id);
  }

  lemma AppendMissing(cfg: Config, t: Traced, u: UpdateParams, id: string)
    requires Tracked(t)
    ensures var after := AppendTraced(cfg, t, u);
            && Missing(after, id) >= Missing(t, id)
            && (TrimEvicts(cfg, PushUpdate(cfg, t.ledger, u).store, id) <==> Missing(after, id) > Missing(t, id))
  {
    PushedMissing(cfg, t, u, id);
    PushedTracked(cfg, t, u);
    TrimMissing(cfg, PushUpdate(cfg, t.ledger, u), Logged(cfg, t, u), id);
  }

  lemma {:induction false} PromptMissing(
    cfg: Config, t: Traced, sessionId: string, key: string, run: string, prompt: seq<Json>, id: string)
    requires Tracked(t)
    ensures var after := PromptTraced(cfg, t, sessionId, key, run, prompt);
            && Missing(after, id) >= Missing(t, id)
            && (PromptEvicts(cfg, t.ledger, sessionId, key, run, prompt, id) <==> Missing(after, id) > Missing(t, id))
    decreases |prompt|
  {
    if prompt != [] {
      var u := UpdateParams(sessionId, key, Some(run), UserChunk(prompt[0]));
      AppendMissing(cfg, t, u, id);
      AppendKeeps(cfg, t, u);
      PromptMissing(cfg, AppendTraced(cfg, t, u), sessionId, key, run, prompt[1..], id);
    }
  }

  lemma StepMissing(cfg: Config, t: Traced, op: Op, id: string)
    requires Tracked(t)
    ensures var after, base := StepTraced(cfg, t, op), if Resets(op, id) then 0 else Missing(t, id);
            && Missing(after, id) >= base
            && (Evicts(cfg, t.ledger, op, id) <==> Missing(after, id) > base)
  {
    match op
    case StartSession(p) =>
      StartedMissing(cfg, t, p, id);
      GetOrCreateTracked(cfg, t, p);
      TrimMissing(cfg, GetOrCreate(cfg, t.ledger, p), StartLog(t.log, p), id);
    case RecordUpdate(u) => AppendMissing(cfg, t, u, id);
    case RecordUserPrompt(sessionId, key, run, prompt) => PromptMissing(cfg, t, sessionId, key, run, prompt, id);
    case MarkSessionIncomplete(sessionId, key) => MarkMissing(cfg, t, sessionId, key, id);
  }

  lemma MarkMissing(cfg: Config, t: Traced, sessionId: string, key: string, id: string)
    requires Tracked(t)
    ensures Missing(StepTraced(cfg, t, MarkSessionIncomplete(sessionId, key)), id) == Missing(t, id)
  {
    var i := IndexOf(t.ledger.store, sessionId);
    if i < |t.ledger.store| && t.ledger.store[i].sessionKey == key {
      var marked := t.ledger.store[i].(complete := false, updatedAt := cfg.clock(t.ledger.ticks));
      PutFacts(t.ledger.store, marked);
      SameRetained(t.ledger.store, Put(t.ledger.store, marked), marked, id);
    }
  }

  /** If nothing of `id` was missing after `n` operations, then something is missing now exactly when
      an entry was evicted since. */
  lemma {:induction false} LostIffEvicted(cfg: Config, ops: seq<Op>, n: nat, id: string)
    requires n <= |ops| && NothingLost(Run(cfg, ops[..n]), id)
    ensures NothingLost(Run(cfg, ops), id) <==> !EvictedAfter(cfg, ops, n, id)
  {
    if n == |ops| {
      assert ops[..n] == ops;
    } else {
      var init, last := ops[..|ops| - 1], ops[|ops| - 1];
      assert init[..n] == ops[..n];
      LostIffEvicted(cfg, init, n, id);
      RunTracked(cfg, init);
      RunTracked(cfg, ops);
      TrackedMissing(Run(cfg, init), id);
      TrackedMissing(Run(cfg, ops), id);
      StepMissing(cfg, Run(cfg, init), last, id);
    }
  }

  // ---------------------------------------------------------------- when a claim is truthful

  /** The session a start claims for is stored, complete, once the store was trimmed. */
  predicate SurvivesComplete(cfg: Config, l: Ledger, p: StartParams) {
    var after := Start(cfg, l, p).store;
    Has(after, p.sessionId) && Get(after, p.sessionId).complete
  }

  /** What a caller may rely on: no claim, a reset, nothing evicted, or a claim the trim takes back. */
  predicate MayStart(cfg: Config, ops: seq<Op>, p: StartParams) {
    !p.complete || p.reset || !EvictedAfter(cfg, ops, 0, p.sessionId)
    || !SurvivesComplete(cfg, Run(cfg, ops).ledger, p)
  }

  /** A claim for a session with something missing is the only one that can lie, and lies if it survives. */
  lemma ClaimAfterTrim(cfg: Config, t: Traced, p: StartParams)
    requires Tracked(t) && Honest(t) && p.complete && !p.reset && !NothingLost(t, p.sessionId)
    ensures Honest(StepTraced(cfg, t, StartSession(p))) <==> !SurvivesComplete(cfg, t.ledger, p)
  {
    var started, after := GetOrCreate(cfg, t.ledger, p).store, Start(cfg, t.ledger, p).store;
    PutFactsForStart(cfg, t, p);
    TrimPostcondition(cfg, started);
    assert Get(started, p.sessionId) == Started(cfg, t, p);
    forall s | s in after && s.complete && s.sessionId != p.sessionId
      ensures |s.events| == |LogOf(t.log, s.sessionId)|
    {
      assert Shrunk(Get(started, s.sessionId), s) && Get(started, s.sessionId) in t.ledger.store;
    }
    if SurvivesComplete(cfg, t.ledger, p) {
      var s := Get(after, p.sessionId);
      assert s in after && Shrunk(Started(cfg, t, p), s);
    } else {
      forall s | s in after && s.complete ensures s.sessionId != p.sessionId { GetUnique(after, s); }
    }
  }

  /** Main theorem. A start on a truthful ledger leaves it truthful exactly when `MayStart`. */
  lemma StartHonestIff(cfg: Config, ops: seq<Op>, p: StartParams)
    requires Honest(Run(cfg, ops))
    ensures Honest(StepTraced(cfg, Run(cfg, ops), StartSession(p))) <==> MayStart(cfg, ops, p)
  {
    RunTracked(cfg, ops);
    LostIffEvicted(cfg, ops, 0, p.sessionId);
    StartKeeps(cfg, Run(cfg, ops), p);
    if p.complete && !p.reset && !NothingLost(Run(cfg, ops), p.sessionId) {
      ClaimAfterTrim(cfg, Run(cfg, ops), p);
    }
  }

  lemma NextHonestIff(cfg: Config, ops: seq<Op>, op: Op)
    requires Honest(Run(cfg, ops))
    ensures Honest(StepTraced(cfg, Run(cfg, ops), op)) <==> (op.StartSession? ==> MayStart(cfg, ops, op.start))
  {
    if op.StartSession? {
      StartHonestIff(cfg, ops, op.start);
    } else {
      RunTracked(cfg, ops);
      StepKeeps(cfg, Run(cfg, ops), op);
    }
  }

  /** The ledger was truthful after every operation so far. */
  ghost predicate AlwaysHonest(cfg: Config, ops: seq<Op>) {
    Honest(Run(cfg, ops)) && (ops != [] ==> AlwaysHonest(cfg, ops[..|ops| - 1]))
  }

  /** Every start was one that may be made. */
  predicate StartsAllowed(cfg: Config, ops: seq<Op>) {
    ops == [] ||
    var init, last := ops[..|ops| - 1], ops[|ops| - 1];
    StartsAllowed(cfg, init) && (last.StartSession? ==> MayStart(cfg, init, last.start))
  }

  /** Main theorem. A run is truthful throughout exactly when every start in it is one that may be made. */
  lemma {:induction false} TruthfulThroughoutIff(cfg: Config, ops: seq<Op>)
    ensures AlwaysHonest(cfg, ops) <==> StartsAllowed(cfg, ops)
  {
    if ops != [] {
      TruthfulThroughoutIff(cfg, ops[..|ops| - 1]);
      if Honest(Run(cfg, ops[..|ops| - 1])) { NextHonestIff(cfg, ops[..|ops| - 1], ops[|ops| - 1]); }
    }
  }

  /** A ledger is truthful exactly when every replay by session id that says `complete` is the whole log. */
  lemma TruthIsFidelity(cfg: Config, ops: seq<Op>)
    ensures Honest(Run(cfg, ops)) <==>
            forall id :: Faithful(ReadReplayBySessionId(Run(cfg, ops).ledger.store, id), Run(cfg, ops).log)
  {
    RunTracked(cfg, ops);
    var t := Run(cfg, ops);
    if Honest(t) {
      forall id ensures Faithful(ReadReplayBySessionId(t.ledger.store, id), t.log) {
        if Has(t.ledger.store, id) && Get(t.ledger.store, id).complete {
          BuildReplayFaithful(t, Get(t.ledger.store, id));
        }
      }
    } else {
      var s :| s in t.ledger.store && s.complete && |s.events| != |LogOf(t.log, s.sessionId)|;
      GetUnique(t.ledger.store, s);
      assert !Faithful(ReadReplayBySessionId(t.ledger.store, s.sessionId), t.log);
    }
  }

  /** `loadSession` reads a complete replay after `n` operations and later claims `complete` for the
      same session. That is truthful exactly when nothing of it was evicted in between, or the trim
      takes the claim back. */
  lemma ReadThenClaim(cfg: Config, ops: seq<Op>, n: nat, p: StartParams)
    requires n <= |ops| && Honest(Run(cfg, ops[..n])) && Honest(Run(cfg, ops))
    requires ReadReplayBySessionId(Run(cfg, ops[..n]).ledger.store, p.sessionId).complete
    requires p.complete && !p.reset
    ensures Honest(StepTraced(cfg, Run(cfg, ops), StartSession(p))) <==>
            !EvictedAfter(cfg, ops, n, p.sessionId) || !SurvivesComplete(cfg, Run(cfg, ops).ledger, p)
  {
    LostIffEvicted(cfg, ops, n, p.sessionId);
    LostIffEvicted(cfg, ops, 0, p.sessionId);
    StartHonestIff(cfg, ops, p);
  }
}
