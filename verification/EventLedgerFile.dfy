/** The file-backed ledger: every operation re-parses and re-normalizes the whole store. */
module EventLedgerFile {
  import opened Options
  import opened Json
  import opened EventLedger
  import opened EventLedgerTrim
  import opened EventLedgerReplay

  // ---------------------------------------------------------------- normalization

  /** A property of `raw` when `raw` is a record. */
  function Prop(raw: Json, key: string): Option<Json> {
    if raw.Obj? then Field(raw.fields, key) else None
  }

  predicate IsStr(v: Option<Json>) { v.Some? && v.value.Str? }
  predicate IsNum(v: Option<Json>) { v.Some? && v.value.Num? }

  function NormalizeEvent(raw: Json): Option<Entry> {
    if !raw.Obj? || !(Prop(raw, "update").Some? && Prop(raw, "update").value.Obj?) then None
    else
      var seqNo, at := Prop(raw, "seq"), Prop(raw, "at");
      var sessionId, sessionKey := Prop(raw, "sessionId"), Prop(raw, "sessionKey");
      var runId, update := Prop(raw, "runId"), Prop(raw, "update").value;
      if !IsNum(seqNo) || seqNo.value.n < 0 || !IsNum(at) || !IsStr(sessionId) || !IsStr(sessionKey)
         || !IsStr(Prop(update, "sessionUpdate")) then None
      else Some(Entry(seqNo.value.n, at.value.n, sessionId.value.s, sessionKey.value.s,
                      if IsStr(runId) && runId.value.s != "" then Some(runId.value.s) else None,
                      update))
  }

  function NormalizeEvents(raw: seq<Json>): seq<Entry> {
    if raw == [] then []
    else
      var e := NormalizeEvent(raw[0]);
      (if e.Some? then [e.value] else []) + NormalizeEvents(raw[1..])
  }

  function NormalizeSession(raw: Json): Option<Session> {
    var sessionId, sessionKey, cwd := Prop(raw, "sessionId"), Prop(raw, "sessionKey"), Prop(raw, "cwd");
    var createdAt, updatedAt, nextSeq :=
      Prop(raw, "createdAt"), Prop(raw, "updatedAt"), Prop(raw, "nextSeq");
    if !IsStr(sessionId) || !IsStr(sessionKey) || !IsStr(cwd) || !IsNum(createdAt) || !IsNum(updatedAt)
       || !IsNum(nextSeq) || nextSeq.value.n < 1 then None
    else
      var events := Prop(raw, "events");
      Some(Session(sessionId.value.s, sessionKey.value.s, cwd.value.s, Prop(raw, "complete") == Some(Bool(true)),
                   createdAt.value.n, updatedAt.value.n, nextSeq.value.n,
                   if events.Some? && events.value.Arr? then NormalizeEvents(events.value.items) else []))
  }

  /** The loop of `normalizeStore` over `Object.entries(raw.sessions)`. */
  function NormalizeSessions(entries: seq<(string, Json)>, sessions: Store): Store
    decreases |entries|
  {
    if entries == [] then sessions else NormalizeSessions(entries[1..], NormalizeNext(entries[0], sessions))
  }

  function NormalizeNext(entry: (string, Json), sessions: Store): Store {
    var s := NormalizeSession(entry.1);
    if s.None? || s.value.sessionId != entry.0 then sessions else Put(sessions, s.value)
  }

  /** `raw` is `None` when the file is missing or unreadable. */
  function NormalizeStore(raw: Option<Json>): Store {
    if raw.None? || Prop(raw.value, "version") != Some(Num(1)) then []
    else
      var sessions := Prop(raw.value, "sessions");
      if sessions.Some? && sessions.value.Obj? then NormalizeSessions(sessions.value.fields, []) else []
  }

  // ---------------------------------------------------------------- normalization undoes serialization

  /** What the type `SessionUpdate` promises: a record tagged with a string `sessionUpdate`. */
  predicate IsUpdate(update: Json) { IsStr(Prop(update, "sessionUpdate")) }

  predicate Storable(e: Entry) { e.seqNo >= 0 && e.runId != Some("") && IsUpdate(e.update) }

  predicate StorableSession(s: Session) {
    s.nextSeq >= 1 && forall e :: e in s.events ==> Storable(e)
  }

  lemma EventRoundTrip(e: Entry)
    requires Storable(e)
    ensures NormalizeEvent(EntryToJson(e)) == Some(e)
  {
    var f := EntryToJson(e).fields;
    FieldFound(f, 0);
    FieldFound(f, 1);
    FieldFound(f, 2);
    FieldFound(f, 3);
    FieldFound(f, |f| - 1);
    if e.runId.Some? { FieldFound(f, 4); } else { FieldMissing(f, "runId"); }
  }

  lemma {:induction false} EventsRoundTrip(events: seq<Entry>)
    requires forall e :: e in events ==> Storable(e)
    ensures NormalizeEvents(EntriesToJson(events)) == events
  {
    if events != [] {
      EventRoundTrip(events[0]);
      EventsRoundTrip(events[1..]);
      assert EntriesToJson(events)[1..] == EntriesToJson(events[1..]);
    }
  }

  lemma SessionTexts(s: Session)
    ensures var raw := SessionToJson(s);
            && Prop(raw, "sessionId") == Some(Str(s.sessionId)) && Prop(raw, "sessionKey") == Some(Str(s.sessionKey))
            && Prop(raw, "cwd") == Some(Str(s.cwd)) && Prop(raw, "complete") == Some(Bool(s.complete))
  {
    var f := SessionToJson(s).fields;
    FieldFound(f, 0);
    FieldFound(f, 1);
    FieldFound(f, 2);
    FieldFound(f, 3);
  }

  lemma SessionNumbers(s: Session)
    ensures var raw := SessionToJson(s);
            && Prop(raw, "createdAt") == Some(Num(s.createdAt)) && Prop(raw, "updatedAt") == Some(Num(s.updatedAt))
            && Prop(raw, "nextSeq") == Some(Num(s.nextSeq)) && Prop(raw, "events") == Some(Arr(EntriesToJson(s.events)))
  {
    var f := SessionToJson(s).fields;
    FieldFound(f, 4);
    FieldFound(f, 5);
    FieldFound(f, 6);
    FieldFound(f, 7);
  }

  lemma SessionRoundTrip(s: Session)
    requires StorableSession(s)
    ensures NormalizeSession(SessionToJson(s)) == Some(s)
  {
    SessionTexts(s);
    SessionNumbers(s);
    EventsRoundTrip(s.events);
  }

  lemma PutNew(done: Store, store: Store)
    requires store != [] && Distinct(done + store)
    ensures Put(done, store[0]) == done + [store[0]] && done + [store[0]] + store[1..] == done + store
  {
    forall j | 0 <= j < |done| ensures done[j].sessionId != store[0].sessionId {
      assert (done + store)[j] == done[j] && (done + store)[|done|] == store[0];
    }
  }

  lemma {:induction false} SessionsRoundTrip(store: Store, done: Store)
    requires Distinct(done + store)
    requires forall s :: s in store ==> StorableSession(s)
    ensures NormalizeSessions(SessionsToJson(store), done) == done + store
    decreases |store|
  {
    if store == [] {
      assert done + store == done;
    } else {
      SessionRoundTrip(store[0]);
      assert SessionsToJson(store)[1..] == SessionsToJson(store[1..]);
      PutNew(done, store);
      SessionsRoundTrip(store[1..], done + [store[0]]);
    }
  }

  ghost predicate StorableStore(store: Store) {
    Distinct(store) && forall s :: s in store ==> StorableSession(s)
  }

  /** `normalizeStore(JSON.parse(JSON.stringify(store)))` is `store`. */
  lemma StoreRoundTrip(store: Store)
    requires StorableStore(store)
    ensures NormalizeStore(Some(StoreToJson(store))) == store
  {
    var f := StoreToJson(store).fields;
    FieldFound(f, 0);
    FieldFound(f, 1);
    SessionsRoundTrip(store, []);
    assert [] + store == store;
  }

  // ---------------------------------------------------------------- what is not a ledger

  /** Main theorem. A missing or unreadable file, one of another version, and one whose sessions are no
      record are an empty ledger. */
  lemma UnusableFileIsEmpty(raw: Option<Json>)
    ensures raw.None? || !raw.value.Obj? || Field(raw.value.fields, "version") != Some(Num(1))
            || Field(raw.value.fields, "sessions").None? || !Field(raw.value.fields, "sessions").value.Obj?
            ==> NormalizeStore(raw) == []
  {
  }

  /** The session lacks a field it needs, or is stored under another id. */
  predicate BadSession(key: string, raw: Json) {
    || !raw.Obj? || Prop(raw, "sessionId") != Some(Str(key))
    || !IsStr(Prop(raw, "sessionKey")) || !IsStr(Prop(raw, "cwd"))
    || !IsNum(Prop(raw, "createdAt")) || !IsNum(Prop(raw, "updatedAt"))
    || !IsNum(Prop(raw, "nextSeq")) || Prop(raw, "nextSeq").value.n < 1
  }

  lemma BadSessionIsNone(key: string, raw: Json)
    requires BadSession(key, raw)
    ensures NormalizeSession(raw).None? || NormalizeSession(raw).value.sessionId != key
  {
  }

  /** Such a session is left out; the others stay. */
  lemma {:induction false} BadSessionIsSkipped(
    a: seq<(string, Json)>, key: string, raw: Json, b: seq<(string, Json)>, done: Store)
    requires BadSession(key, raw)
    ensures NormalizeSessions(a + [(key, raw)] + b, done) == NormalizeSessions(a + b, done)
    decreases |a|
  {
    if a == [] {
      BadSessionIsNone(key, raw);
      assert (a + [(key, raw)] + b)[1..] == a + b;
    } else {
      BadSessionIsSkipped(a[1..], key, raw, b, NormalizeNext(a[0], done));
      assert (a + [(key, raw)] + b)[1..] == a[1..] + [(key, raw)] + b && (a + b)[1..] == a[1..] + b;
    }
  }

  /** An event without number, time, ids or a tagged update is left out; the others stay, in order. */
  lemma {:induction false} BadEventIsSkipped(a: seq<Json>, raw: Json, b: seq<Json>)
    requires !raw.Obj? || !IsNum(Prop(raw, "seq")) || Prop(raw, "seq").value.n < 0 || !IsNum(Prop(raw, "at"))
             || !IsStr(Prop(raw, "sessionId")) || !IsStr(Prop(raw, "sessionKey"))
             || Prop(raw, "update").None? || !IsUpdate(Prop(raw, "update").value)
    ensures NormalizeEvents(a + [raw] + b) == NormalizeEvents(a + b)
    decreases |a|
  {
    if a == [] {
      assert (a + [raw] + b)[1..] == a + b;
    } else {
      BadEventIsSkipped(a[1..], raw, b);
      assert (a + [raw] + b)[1..] == a[1..] + [raw] + b && (a + b)[1..] == a[1..] + b;
    }
  }

  /** An event that is kept has its fields as they stand, but an empty run id counts as none. */
  lemma KeptEventFields(raw: Json)
    requires NormalizeEvent(raw).Some?
    ensures var e := NormalizeEvent(raw).value;
            && Prop(raw, "seq") == Some(Num(e.seqNo)) && Prop(raw, "at") == Some(Num(e.at))
            && Prop(raw, "sessionId") == Some(Str(e.sessionId)) && Prop(raw, "sessionKey") == Some(Str(e.sessionKey))
            && Prop(raw, "update") == Some(e.update)
            && (e.runId.Some? ==> e.runId.value != "" && Prop(raw, "runId") == Some(Str(e.runId.value)))
            && (e.runId.None? ==> !IsStr(Prop(raw, "runId")) || Prop(raw, "runId") == Some(Str("")))
  {
  }

  // ---------------------------------------------------------------- reachable stores are storable

  predicate OpTyped(op: Op) { op.RecordUpdate? ==> IsUpdate(op.u.update) }

  lemma TrimStorable(cfg: Config, store: Store)
    requires StorableStore(store)
    ensures StorableStore(Trim(cfg, store))
  {
    TrimPostcondition(cfg, store);
    forall s | s in Trim(cfg, store) ensures StorableSession(s) {
      var o := Get(store, s.sessionId);
      assert StorableSession(o) && Shrunk(o, s);
    }
  }

  lemma GetOrCreateStorable(cfg: Config, l: Ledger, p: StartParams)
    requires StorableStore(l.store)
    ensures StorableStore(GetOrCreate(cfg, l, p).store)
  {
    var now := cfg.clock(l.ticks);
    var i := IndexOf(l.store, p.sessionId);
    if !p.reset && i < |l.store| {
      var e := l.store[i];
      assert StorableSession(e);
      PutFacts(l.store, e.(sessionKey := p.sessionKey, cwd := if p.cwd != "" then p.cwd else e.cwd,
                           complete := e.complete || p.complete, updatedAt := now));
    } else {
      PutFacts(l.store, Session(p.sessionId, p.sessionKey, p.cwd, p.complete, now, now, 1, []));
    }
  }

  lemma AppendStorable(cfg: Config, l: Ledger, u: UpdateParams)
    requires StorableStore(l.store) && IsUpdate(u.update)
    ensures StorableStore(Append(cfg, l, u).store)
  {
    var p := StartParams(u.sessionId, u.sessionKey, "", false, false);
    GetOrCreateStorable(cfg, l, p);
    var l1 := GetOrCreate(cfg, l, p);
    var s := Get(l1.store, u.sessionId);
    var pushed := PushEvent(s, cfg.clock(l1.ticks), u);
    PutFacts(l1.store, pushed);
    forall e | e in pushed.events && e !in s.events ensures Storable(e) {
      assert e == pushed.events[|s.events|];
    }
    TrimStorable(cfg, Put(l1.store, pushed));
  }

  lemma {:induction false} StepStorable(cfg: Config, l: Ledger, op: Op)
    requires StorableStore(l.store) && OpTyped(op)
    ensures StorableStore(Step(cfg, l, op).store)
    decreases if op.RecordUserPrompt? then |op.prompt| else 0
  {
    match op
    case StartSession(p) =>
      GetOrCreateStorable(cfg, l, p);
      TrimStorable(cfg, GetOrCreate(cfg, l, p).store);
    case RecordUpdate(u) => AppendStorable(cfg, l, u);
    case RecordUserPrompt(id, key, run, prompt) =>
      if prompt != [] {
        var u := UpdateParams(id, key, Some(run), UserChunk(prompt[0]));
        FieldFound(u.update.fields, 0);
        AppendStorable(cfg, l, u);
        StepStorable(cfg, Append(cfg, l, u), RecordUserPrompt(id, key, run, prompt[1..]));
      }
    case MarkSessionIncomplete(id, key) =>
      var i := IndexOf(l.store, id);
      if i < |l.store| {
        assert StorableSession(l.store[i]);
        PutFacts(l.store, l.store[i].(complete := false, updatedAt := cfg.clock(l.ticks)));
      }
  }

  // ---------------------------------------------------------------- the file ledger as a machine

  /** The file's text, if it exists, and the clock. */
  datatype FileState = FileState(text: Option<string>, ticks: nat)

  function Load(cfg: Config, f: FileState): Ledger {
    Ledger(NormalizeStore(if f.text.None? then None else cfg.parse(f.text.value)), f.ticks)
  }

  function Save(cfg: Config, l: Ledger): FileState {
    FileState(Some(cfg.stringify(StoreToJson(l.store))), l.ticks)
  }

  function FileStep(cfg: Config, f: FileState, op: Op): FileState {
    Save(cfg, Step(cfg, Load(cfg, f), op))
  }

  function FileRun(cfg: Config, ops: seq<Op>): FileState {
    if ops == [] then FileState(None, 0)
    else FileStep(cfg, FileRun(cfg, ops[..|ops| - 1]), ops[|ops| - 1])
  }

  function MemoryRun(cfg: Config, ops: seq<Op>): Ledger {
    if ops == [] then EmptyLedger
    else Step(cfg, MemoryRun(cfg, ops[..|ops| - 1]), ops[|ops| - 1])
  }

  /** `JSON.parse` undoes `JSON.stringify`. */
  ghost predicate CodecLaw(cfg: Config) {
    forall j :: cfg.parse(cfg.stringify(j)) == Some(j)
  }

  /** Refinement: after any operations, loading the file gives exactly the in-memory ledger,
      so every replay query answers alike. */
  lemma {:induction false} FileRefinesMemory(cfg: Config, ops: seq<Op>)
    requires CodecLaw(cfg) && forall op :: op in ops ==> OpTyped(op)
    ensures Load(cfg, FileRun(cfg, ops)) == MemoryRun(cfg, ops)
    ensures StorableStore(MemoryRun(cfg, ops).store)
  {
    if ops != [] {
      FileRefinesMemory(cfg, ops[..|ops| - 1]);
      var l := MemoryRun(cfg, ops[..|ops| - 1]);
      StepStorable(cfg, l, ops[|ops| - 1]);
      StoreRoundTrip(Step(cfg, l, ops[|ops| - 1]).store);
    }
  }

  /** The traced run of the replay theorems carries exactly the in-memory ledger. */
  lemma {:induction false} RunIsMemoryRun(cfg: Config, ops: seq<Op>)
    ensures Run(cfg, ops).ledger == MemoryRun(cfg, ops)
  {
    if ops != [] {
      RunIsMemoryRun(cfg, ops[..|ops| - 1]);
      var op := ops[|ops| - 1];
      if op.RecordUserPrompt? {
        PromptLedger(cfg, Run(cfg, ops[..|ops| - 1]), op.sessionId, op.sessionKey, op.runId, op.prompt);
      }
    }
  }

  lemma {:induction false} PromptLedger(
    cfg: Config, t: Traced, id: string, key: string, run: string, prompt: seq<Json>)
    ensures PromptTraced(cfg, t, id, key, run, prompt).ledger
            == RecordPrompt(cfg, t.ledger, id, key, run, prompt)
    decreases |prompt|
  {
    if prompt != [] {
      var u := UpdateParams(id, key, Some(run), UserChunk(prompt[0]));
      PromptLedger(cfg, AppendTraced(cfg, t, u), id, key, run, prompt[1..]);
    }
  }

  /** The two theorems together: while the ledger is truthful, the file's complete replays are faithful. */
  lemma FileReplayFidelity(cfg: Config, ops: seq<Op>, sessionId: string, sessionKey: string)
    requires CodecLaw(cfg) && Honest(Run(cfg, ops)) && forall op :: op in ops ==> OpTyped(op)
    ensures var store := Load(cfg, FileRun(cfg, ops)).store;
            && Faithful(ReadReplay(store, sessionId, sessionKey), Run(cfg, ops).log)
            && Faithful(ReadReplayBySessionId(store, sessionId), Run(cfg, ops).log)
            && Faithful(ReadReplayBySessionKey(store, sessionKey), Run(cfg, ops).log)
  {
    FileRefinesMemory(cfg, ops);
    RunIsMemoryRun(cfg, ops);
    RunTracked(cfg, ops);
    HonestReplays(Run(cfg, ops), sessionId, sessionKey);
  }
}
