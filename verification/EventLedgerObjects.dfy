/** The ledger objects: the mutable state with the operations on it, and the two ledgers built on it, one
    in memory and one in a file. A valid ledger is in the state its history of operations leads to. */
module EventLedgerObjects {
  import opened Options
  import opened Json
  import opened EventLedger
  import opened EventLedgerReplay
  import opened EventLedgerFile
  import opened EventLedgerClaims

  class MutableLedgerState {
    const cfg: Config
    var sessions: Store
    var ticks: nat

    ghost function View(): Ledger
      reads this
    {
      Ledger(sessions, ticks)
    }

    constructor (cfg: Config)
      ensures View() == EmptyLedger && this.cfg == cfg
    {
      this.cfg := cfg;
      sessions, ticks := [], 0;
    }

    method Now() returns (now: int)
      modifies this`ticks
      ensures now == cfg.clock(old(ticks)) && ticks == old(ticks) + 1
    {
      now := cfg.clock(ticks);
      ticks := ticks + 1;
    }

    method GetOrCreateSession(p: StartParams)
      modifies this
      ensures View() == GetOrCreate(cfg, old(View()), p)
    {
      var now := Now();
      var i := IndexOf(sessions, p.sessionId);
      if !p.reset && i < |sessions| {
        var existing := sessions[i];
        existing := existing.(sessionKey := p.sessionKey);
        if p.cwd != "" {
          existing := existing.(cwd := p.cwd);
        }
        existing := existing.(complete := existing.complete || p.complete);
        existing := existing.(updatedAt := now);
        sessions := Put(sessions, existing);
      } else {
        var session := Session(p.sessionId, p.sessionKey, p.cwd, p.complete, now, now, 1, []);
        sessions := Put(sessions, session);
      }
    }

    method CapEventLists()
      modifies this`sessions
      ensures sessions == CapEvents(old(sessions), cfg.maxEventsPerSession)
    {
      ghost var before := sessions;
      for i := 0 to |sessions|
        invariant |sessions| == |before|
        invariant forall k :: 0 <= k < i ==> sessions[k] == CapSession(before[k], cfg.maxEventsPerSession)
        invariant forall k :: i <= k < |before| ==> sessions[k] == before[k]
      {
        var session := sessions[i];
        if |session.events| > cfg.maxEventsPerSession {
          session := session.(events := session.events[|session.events| - cfg.maxEventsPerSession..]);
          session := session.(complete := false);
          sessions := sessions[i := session];
        }
      }
    }

    method DropExcessSessions()
      modifies this`sessions
      ensures sessions == CapSessions(old(sessions), cfg.maxSessions)
    {
      if |sessions| > cfg.maxSessions {
        ghost var before := sessions;
        NewestFirstLength(sessions);
        var victims := NewestFirst(sessions)[cfg.maxSessions..];
        for k := 0 to |victims|
          invariant DeleteAll(sessions, victims[k..]) == DeleteAll(before, victims)
        {
          sessions := Delete(sessions, victims[k].sessionId);
          assert victims[k..][1..] == victims[k + 1..];
        }
      }
    }

    method TrimLedger()
      modifies this`sessions
      ensures sessions == Trim(cfg, old(sessions))
    {
      CapEventLists();
      DropExcessSessions();
      ghost var capped := sessions;
      var serializedBytes := Size(cfg, sessions);
      while serializedBytes > cfg.maxSerializedBytes
        invariant serializedBytes == Size(cfg, sessions)
        invariant ShedEvents(cfg, sessions) == ShedEvents(cfg, capped)
        decreases TotalEvents(sessions)
      {
        var i := Oldest(sessions, true);
        if i == |sessions| {
          break;
        }
        ShiftDecreases(sessions, i);
        sessions := sessions[i := sessions[i].(events := sessions[i].events[1..], complete := false)];
        serializedBytes := Size(cfg, sessions);
      }
      ghost var shed := sessions;
      assert shed == ShedEvents(cfg, capped);
      while serializedBytes > cfg.maxSerializedBytes
        invariant serializedBytes == Size(cfg, sessions)
        invariant ShedSessions(cfg, sessions) == ShedSessions(cfg, shed)
        decreases |sessions|
      {
        var i := Oldest(sessions, false);
        if i == |sessions| {
          OldestExists(sessions);
          break;
        }
        sessions := Delete(sessions, sessions[i].sessionId);
        serializedBytes := Size(cfg, sessions);
      }
    }

    method AppendUpdate(u: UpdateParams)
      modifies this
      ensures View() == Append(cfg, old(View()), u)
    {
      PushUpdate(u);
      TrimLedger();
    }

    /** `appendUpdate` up to its call of `trimLedger`. */
    method PushUpdate(u: UpdateParams)
      modifies this
      ensures View() == EventLedger.PushUpdate(cfg, old(View()), u)
    {
      GetOrCreateSession(StartParams(u.sessionId, u.sessionKey, "", false, false));
      var session := Get(sessions, u.sessionId);
      var now := Now();
      session := session.(updatedAt := now);
      var entry := Entry(session.nextSeq, now, u.sessionId, u.sessionKey, TruthyRun(u.runId), u.update);
      session := session.(events := session.events + [entry]);
      session := session.(nextSeq := session.nextSeq + 1);
      sessions := Put(sessions, session);
    }

    method StartSession(p: StartParams)
      modifies this
      ensures View() == Step(cfg, old(View()), Op.StartSession(p))
    {
      GetOrCreateSession(p);
      TrimLedger();
    }

    method RecordUserPrompt(sessionId: string, sessionKey: string, runId: string, prompt: seq<Json>)
      modifies this
      ensures View() == RecordPrompt(cfg, old(View()), sessionId, sessionKey, runId, prompt)
    {
      for k := 0 to |prompt|
        invariant RecordPrompt(cfg, View(), sessionId, sessionKey, runId, prompt[k..])
                  == RecordPrompt(cfg, old(View()), sessionId, sessionKey, runId, prompt)
      {
        PromptNext(cfg, View(), sessionId, sessionKey, runId, prompt, k);
        AppendUpdate(UpdateParams(sessionId, sessionKey, Some(runId), UserChunk(prompt[k])));
      }
    }

    method RecordUpdate(u: UpdateParams)
      modifies this
      ensures View() == Step(cfg, old(View()), Op.RecordUpdate(u))
    {
      AppendUpdate(u);
    }

    method MarkIncomplete(sessionId: string, sessionKey: string)
      modifies this
      ensures View() == Step(cfg, old(View()), MarkSessionIncomplete(sessionId, sessionKey))
    {
      var i := IndexOf(sessions, sessionId);
      if i == |sessions| || sessions[i].sessionKey != sessionKey {
        return;
      }
      var session := sessions[i].(complete := false);
      var now := Now();
      sessions := Put(sessions, session.(updatedAt := now));
    }

    /** The functions `createLedgerApi` passes to `mutate`. */
    method Apply(op: Op)
      modifies this
      ensures View() == Step(cfg, old(View()), op)
    {
      match op {
        case StartSession(p) => StartSession(p);
        case RecordUpdate(u) => RecordUpdate(u);
        case RecordUserPrompt(id, key, run, prompt) => RecordUserPrompt(id, key, run, prompt);
        case MarkSessionIncomplete(id, key) => MarkIncomplete(id, key);
      }
    }
  }

  lemma PromptNext(
    cfg: Config, l: Ledger, sessionId: string, sessionKey: string, runId: string, prompt: seq<Json>, k: nat)
    requires k < |prompt|
    ensures RecordPrompt(cfg, l, sessionId, sessionKey, runId, prompt[k..])
         == RecordPrompt(
              cfg, Append(cfg, l, UpdateParams(sessionId, sessionKey, Some(runId), UserChunk(prompt[k]))),
              sessionId, sessionKey, runId, prompt[k + 1..])
  {
    assert prompt[k..][0] == prompt[k] && prompt[k..][1..] == prompt[k + 1..];
  }

  lemma RunStep(cfg: Config, ops: seq<Op>, op: Op)
    ensures Run(cfg, ops + [op]).ledger == Step(cfg, Run(cfg, ops).ledger, op)
  {
    RunSnoc(cfg, ops, op);
    if op.RecordUserPrompt? {
      PromptLedger(cfg, Run(cfg, ops), op.sessionId, op.sessionKey, op.runId, op.prompt);
    }
  }

  /** `createInMemoryAcpEventLedger`. */
  class InMemoryAcpEventLedger {
    const state: MutableLedgerState
    ghost var history: seq<Op>

    ghost predicate Valid()
      reads this, state
    {
      state.View() == Run(state.cfg, history).ledger
    }

    constructor (cfg: Config)
      ensures Valid() && history == [] && state.cfg == cfg && fresh(state)
    {
      state := new MutableLedgerState(cfg);
      history := [];
    }

    /** Replays are faithful as long as every start was allowed, and no longer. */
    lemma CompleteReplaysAreFaithful(sessionId: string, sessionKey: string)
      requires Valid()
      ensures StartsAllowed(state.cfg, history) ==>
                var log := Run(state.cfg, history).log;
                && Faithful(ReadReplay(state.sessions, sessionId, sessionKey), log)
                && Faithful(ReadReplayBySessionId(state.sessions, sessionId), log)
                && Faithful(ReadReplayBySessionKey(state.sessions, sessionKey), log)
      ensures StartsAllowed(state.cfg, history) <==> AlwaysHonest(state.cfg, history)
    {
      TruthfulThroughoutIff(state.cfg, history);
      RunTracked(state.cfg, history);
      if StartsAllowed(state.cfg, history) { HonestReplays(Run(state.cfg, history), sessionId, sessionKey); }
    }

    method Mutate(op: Op)
      requires Valid()
      modifies this, state
      ensures Valid() && history == old(history) + [op]
    {
      RunStep(state.cfg, history, op);
      state.Apply(op);
      history := history + [op];
    }
  }

  /** `createFileAcpEventLedger`: load and normalize, mutate, serialize and write back. */
  class FileAcpEventLedger {
    const state: MutableLedgerState
    var text: Option<string>
    ghost var history: seq<Op>

    ghost function View(): FileState
      reads this`text, state`ticks
    {
      FileState(text, state.ticks)
    }

    ghost predicate Valid()
      reads this, state
    {
      View() == FileRun(state.cfg, history)
    }

    constructor (cfg: Config)
      ensures Valid() && history == [] && state.cfg == cfg && fresh(state)
    {
      state := new MutableLedgerState(cfg);
      text, history := None, [];
    }

    /** The file ledger answers as the in-memory one, and so is faithful under the same condition. */
    lemma FileIsFaithful(sessionId: string, sessionKey: string)
      requires Valid() && CodecLaw(state.cfg) && forall op :: op in history ==> OpTyped(op)
      ensures Load(state.cfg, View()) == Run(state.cfg, history).ledger
      ensures StartsAllowed(state.cfg, history) ==>
                var store, log := Load(state.cfg, View()).store, Run(state.cfg, history).log;
                && Faithful(ReadReplay(store, sessionId, sessionKey), log)
                && Faithful(ReadReplayBySessionId(store, sessionId), log)
                && Faithful(ReadReplayBySessionKey(store, sessionKey), log)
    {
      FileRefinesMemory(state.cfg, history);
      RunIsMemoryRun(state.cfg, history);
      TruthfulThroughoutIff(state.cfg, history);
      if StartsAllowed(state.cfg, history) { FileReplayFidelity(state.cfg, history, sessionId, sessionKey); }
    }

    /** `state.store = normalizeStore(await readJsonFile(filePath))`. */
    method LoadStore()
      modifies state
      ensures state.View() == Load(state.cfg, old(View()))
    {
      var raw := match text case None => None case Some(t) => state.cfg.parse(t);
      var store: Store := [];
      if raw.Some? && Prop(raw.value, "version") == Some(Num(1)) {
        var parsed := Prop(raw.value, "sessions");
        if parsed.Some? && parsed.value.Obj? {
          var entries := parsed.value.fields;
          for k := 0 to |entries|
            invariant NormalizeSessions(entries[k..], store) == NormalizeSessions(entries, [])
          {
            assert entries[k..][1..] == entries[k + 1..];
            var s := NormalizeSession(entries[k].1);
            if s.Some? && s.value.sessionId == entries[k].0 {
              store := Put(store, s.value);
            }
          }
        }
      }
      state.sessions := store;
    }

    method WriteStore()
      modifies this`text
      ensures View() == Save(state.cfg, state.View())
    {
      text := Some(state.cfg.stringify(StoreToJson(state.sessions)));
    }

    method Mutate(op: Op)
      requires Valid()
      modifies this, state
      ensures Valid() && history == old(history) + [op]
    {
      LoadStore();
      state.Apply(op);
      WriteStore();
      assert (history + [op])[..|history|] == history;
      history := history + [op];
    }

    /** Any of the three queries, on the store as loaded; the file stays as it is. */
    method Read(query: Store -> Replay) returns (r: Replay)
      requires Valid()
      modifies state
      ensures Valid() && history == old(history) && View() == old(View())
      ensures r == query(Load(state.cfg, old(View())).store)
    {
      LoadStore();
      r := query(state.sessions);
    }
  }
}
