/** The ACP event ledger (src/acp/event-ledger.ts): a bounded, evicting, per-session log. */
module EventLedger {
  import opened Options
  import opened Json

  datatype Entry = Entry(
    seqNo: int, at: int, sessionId: string, sessionKey: string, runId: Option<string>, update: Json)

  datatype Session = Session(
    sessionId: string, sessionKey: string, cwd: string, complete: bool,
    createdAt: int, updatedAt: int, nextSeq: int, events: seq<Entry>)

  /** `store.sessions`: a record keyed by session id, enumerated in insertion order. */
  type Store = seq<Session>

  /** The options, with the clock and the JSON text codec the environment supplies. */
  datatype Config = Config(
    maxSessions: nat, maxEventsPerSession: nat, maxSerializedBytes: nat,
    clock: nat -> int, stringify: Json -> string, parse: string -> Option<Json>, byteLength: string -> nat)

  /** The mutable state: the store and the number of clock readings taken so far. */
  datatype Ledger = Ledger(store: Store, ticks: nat)

  datatype StartParams = StartParams(
    sessionId: string, sessionKey: string, cwd: string, complete: bool, reset: bool)

  datatype UpdateParams = UpdateParams(
    sessionId: string, sessionKey: string, runId: Option<string>, update: Json)

  datatype Replay = Replay(
    complete: bool, sessionId: Option<string>, sessionKey: Option<string>, events: seq<Entry>)

  const EmptyLedger := Ledger([], 0)
  const NoReplay := Replay(false, None, None, [])

  /** The limits `normalizeLedgerOptions` can produce. */
  predicate ValidConfig(cfg: Config) {
    1 <= cfg.maxSessions && 1 <= cfg.maxEventsPerSession && 1024 <= cfg.maxSerializedBytes
  }

  // ---------------------------------------------------------------- records as ordered sequences

  /** Position of the session stored under `id`, or `|store|`. */
  function IndexOf(store: Store, id: string): (i: nat)
    ensures i <= |store|
    ensures i < |store| ==> store[i].sessionId == id
    ensures forall j :: 0 <= j < i ==> store[j].sessionId != id
  {
    if store == [] then 0
    else if store[0].sessionId == id then 0
    else 1 + IndexOf(store[1..], id)
  }

  predicate Has(store: Store, id: string) { IndexOf(store, id) < |store| }

  function Get(store: Store, id: string): (s: Session)
    requires Has(store, id)
    ensures s.sessionId == id && s in store
  {
    store[IndexOf(store, id)]
  }

  /** `sessions[s.sessionId] = s`: an existing key keeps its place, a new one goes last. */
  function Put(store: Store, s: Session): (r: Store)
    ensures Has(r, s.sessionId)
  {
    var i := IndexOf(store, s.sessionId);
    var r := if i < |store| then store[i := s] else store + [s];
    assert r[i].sessionId == s.sessionId;
    r
  }

  /** `delete sessions[id]`. */
  function Delete(store: Store, id: string): Store {
    var i := IndexOf(store, id);
    if i < |store| then store[..i] + store[i + 1..] else store
  }

  ghost predicate Distinct(store: Store) {
    forall i, j :: 0 <= i < j < |store| ==> store[i].sessionId != store[j].sessionId
  }

  // ---------------------------------------------------------------- sorting

  /** `toSorted` is stable: `x`, which stood before every element of `rest`, precedes its ties. */
  function InsertNewest(x: Session, rest: Store): Store {
    if rest == [] || rest[0].updatedAt <= x.updatedAt then [x] + rest
    else [rest[0]] + InsertNewest(x, rest[1..])
  }

  /** `sessions.toSorted((a, b) => b.updatedAt - a.updatedAt)`. */
  function NewestFirst(store: Store): Store {
    if store == [] then [] else InsertNewest(store[0], NewestFirst(store[1..]))
  }

  /** Index of the head of `filter(P).toSorted((a, b) => a.updatedAt - b.updatedAt)`,
      where `P` is "has events" or everything; `|store|` when the filter keeps nothing. */
  function Oldest(store: Store, onlyWithEvents: bool): (i: nat)
    ensures i <= |store|
    ensures i < |store| && onlyWithEvents ==> store[i].events != []
  {
    if store == [] then 0
    else
      var k := Oldest(store[1..], onlyWithEvents);
      if onlyWithEvents && store[0].events == [] then k + 1
      else if k < |store[1..]| && store[1..][k].updatedAt < store[0].updatedAt then k + 1
      else 0
  }

  // ---------------------------------------------------------------- serialization

  function EntryToJson(e: Entry): Json {
    Obj([("seq", Num(e.seqNo)), ("at", Num(e.at)), ("sessionId", Str(e.sessionId)),
         ("sessionKey", Str(e.sessionKey))]
        + (if e.runId.Some? then [("runId", Str(e.runId.value))] else [])
        + [("update", e.update)])
  }

  function EntriesToJson(events: seq<Entry>): seq<Json> {
    if events == [] then [] else [EntryToJson(events[0])] + EntriesToJson(events[1..])
  }

  function SessionToJson(s: Session): Json {
    Obj([("sessionId", Str(s.sessionId)), ("sessionKey", Str(s.sessionKey)), ("cwd", Str(s.cwd)),
         ("complete", Bool(s.complete)), ("createdAt", Num(s.createdAt)),
         ("updatedAt", Num(s.updatedAt)), ("nextSeq", Num(s.nextSeq)),
         ("events", Arr(EntriesToJson(s.events)))])
  }

  function SessionsToJson(store: Store): seq<(string, Json)> {
    if store == [] then []
    else [(store[0].sessionId, SessionToJson(store[0]))] + SessionsToJson(store[1..])
  }

  function StoreToJson(store: Store): Json {
    Obj([("version", Num(1)), ("sessions", Obj(SessionsToJson(store)))])
  }

  function Size(cfg: Config, store: Store): nat {
    cfg.byteLength(cfg.stringify(StoreToJson(store)))
  }

  // ---------------------------------------------------------------- getOrCreateSession

  function GetOrCreate(cfg: Config, l: Ledger, p: StartParams): (r: Ledger)
    ensures Has(r.store, p.sessionId)
  {
    var now := cfg.clock(l.ticks);
    var i := IndexOf(l.store, p.sessionId);
    if !p.reset && i < |l.store| then
      var existing := l.store[i];
      Ledger(Put(l.store, existing.(sessionKey := p.sessionKey,
                                    cwd := if p.cwd != "" then p.cwd else existing.cwd,
                                    complete := existing.complete || p.complete,
                                    updatedAt := now)), l.ticks + 1)
    else
      Ledger(Put(l.store, Session(p.sessionId, p.sessionKey, p.cwd, p.complete, now, now, 1, [])),
             l.ticks + 1)
  }

  // ---------------------------------------------------------------- trimLedger

  /** Phase 1, one session: keep the newest `max` events. */
  function CapSession(s: Session, max: nat): Session {
    if |s.events| <= max then s
    else s.(events := s.events[|s.events| - max..], complete := false)
  }

  function CapEvents(store: Store, max: nat): (r: Store)
    ensures |r| == |store|
    ensures forall i :: 0 <= i < |store| ==> r[i] == CapSession(store[i], max)
  {
    if store == [] then [] else [CapSession(store[0], max)] + CapEvents(store[1..], max)
  }

  function DeleteAll(store: Store, victims: Store): Store {
    if victims == [] then store
    else DeleteAll(Delete(store, victims[0].sessionId), victims[1..])
  }

  /** Phase 2: keep the `max` most recently updated sessions. */
  function CapSessions(store: Store, max: nat): Store {
    if |store| <= max then store
    else
      NewestFirstLength(store);
      DeleteAll(store, NewestFirst(store)[max..])
  }

  /** Phase 3, one turn: the oldest session that still has events loses its first one. */
  function ShiftAt(store: Store, i: nat): Store
    requires i < |store| && store[i].events != []
  {
    store[i := store[i].(events := store[i].events[1..], complete := false)]
  }

  function TotalEvents(store: Store): nat {
    if store == [] then 0 else |store[0].events| + TotalEvents(store[1..])
  }

  /** Phase 3: shift events until the serialized store fits or none are left. */
  function ShedEvents(cfg: Config, store: Store): Store
    decreases TotalEvents(store)
  {
    if Size(cfg, store) <= cfg.maxSerializedBytes then store
    else
      var i := Oldest(store, true);
      if i == |store| then store
      else
        ShiftDecreases(store, i);
        ShedEvents(cfg, ShiftAt(store, i))
  }

  /** Phase 4: delete whole sessions, oldest first, until the store fits. */
  function ShedSessions(cfg: Config, store: Store): Store
    decreases |store|
  {
    if Size(cfg, store) <= cfg.maxSerializedBytes || store == [] then store
    else
      OldestExists(store);
      ShedSessions(cfg, Delete(store, store[Oldest(store, false)].sessionId))
  }

  function Trim(cfg: Config, store: Store): Store {
    ShedSessions(cfg, ShedEvents(cfg,
      CapSessions(CapEvents(store, cfg.maxEventsPerSession), cfg.maxSessions)))
  }

  // ---------------------------------------------------------------- operations

  function PushEvent(s: Session, now: int, p: UpdateParams): Session {
    s.(updatedAt := now,
       events := s.events + [Entry(s.nextSeq, now, p.sessionId, p.sessionKey, TruthyRun(p.runId), p.update)],
       nextSeq := s.nextSeq + 1)
  }

  /** The ledger an append hands to `trimLedger`. */
  function PushUpdate(cfg: Config, l: Ledger, p: UpdateParams): Ledger {
    var l1 := GetOrCreate(cfg, l, StartParams(p.sessionId, p.sessionKey, "", false, false));
    var s := Get(l1.store, p.sessionId);
    Ledger(Put(l1.store, PushEvent(s, cfg.clock(l1.ticks), p)), l1.ticks + 1)
  }

  function Append(cfg: Config, l: Ledger, p: UpdateParams): Ledger {
    var pushed := PushUpdate(cfg, l, p);
    Ledger(Trim(cfg, pushed.store), pushed.ticks)
  }

  /** `params.runId ? { runId } : {}`. */
  function TruthyRun(runId: Option<string>): Option<string> {
    if runId == Some("") then None else runId
  }

  function Start(cfg: Config, l: Ledger, p: StartParams): Ledger {
    var l1 := GetOrCreate(cfg, l, p);
    Ledger(Trim(cfg, l1.store), l1.ticks)
  }

  /** `createUserPromptUpdates`: one chunk update per content block. */
  function UserChunk(content: Json): Json {
    Obj([("sessionUpdate", Str("user_message_chunk")), ("content", content)])
  }

  function RecordPrompt(
    cfg: Config, l: Ledger, sessionId: string, sessionKey: string, runId: string, prompt: seq<Json>
  ): Ledger
    decreases |prompt|
  {
    if prompt == [] then l
    else
      RecordPrompt(cfg, Append(cfg, l, UpdateParams(sessionId, sessionKey, Some(runId), UserChunk(prompt[0]))),
                   sessionId, sessionKey, runId, prompt[1..])
  }

  function MarkIncomplete(cfg: Config, l: Ledger, sessionId: string, sessionKey: string): Ledger {
    var i := IndexOf(l.store, sessionId);
    if i == |l.store| || l.store[i].sessionKey != sessionKey then l
    else
      Ledger(Put(l.store, l.store[i].(complete := false, updatedAt := cfg.clock(l.ticks))), l.ticks + 1)
  }

  // ---------------------------------------------------------------- replay queries

  function BuildReplay(s: Session): Replay {
    Replay(true, Some(s.sessionId), Some(s.sessionKey), s.events)
  }

  function ReadReplay(store: Store, sessionId: string, sessionKey: string): Replay {
    var i := IndexOf(store, sessionId);
    if i == |store| || store[i].sessionKey != sessionKey || !store[i].complete then NoReplay
    else BuildReplay(store[i])
  }

  function ReadReplayBySessionId(store: Store, sessionId: string): Replay {
    var i := IndexOf(store, sessionId);
    if i == |store| || !store[i].complete then NoReplay else BuildReplay(store[i])
  }

  function CompleteWithKey(store: Store, sessionKey: string): Store {
    if store == [] then []
    else (if store[0].sessionKey == sessionKey && store[0].complete then [store[0]] else [])
         + CompleteWithKey(store[1..], sessionKey)
  }

  function ReadReplayBySessionKey(store: Store, sessionKey: string): Replay {
    var found := NewestFirst(CompleteWithKey(store, sessionKey));
    if found == [] then NoReplay else BuildReplay(found[0])
  }

  // ---------------------------------------------------------------- facts the definitions need

  lemma InsertNewestMultiset(x: Session, rest: Store)
    ensures multiset(InsertNewest(x, rest)) == multiset(rest) + multiset{x}
    ensures |InsertNewest(x, rest)| == |rest| + 1
  {
    if rest != [] && rest[0].updatedAt > x.updatedAt {
      InsertNewestMultiset(x, rest[1..]);
      assert rest == [rest[0]] + rest[1..];
    }
  }

  lemma {:induction false} NewestFirstLength(store: Store)
    ensures |NewestFirst(store)| == |store|
    ensures multiset(NewestFirst(store)) == multiset(store)
  {
    if store != [] {
      NewestFirstLength(store[1..]);
      InsertNewestMultiset(store[0], NewestFirst(store[1..]));
      assert store == [store[0]] + store[1..];
    }
  }

  lemma {:induction false} ShiftDecreases(store: Store, i: nat)
    requires i < |store| && store[i].events != []
    ensures TotalEvents(ShiftAt(store, i)) == TotalEvents(store) - 1
  {
    if i == 0 {
      assert ShiftAt(store, 0)[1..] == store[1..];
    } else {
      ShiftDecreases(store[1..], i - 1);
      assert ShiftAt(store, i)[1..] == ShiftAt(store[1..], i - 1);
    }
  }

  lemma OldestExists(store: Store)
    ensures store != [] ==> Oldest(store, false) < |store|
  {
  }
}
