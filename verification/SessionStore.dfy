/** The in-memory ACP session store (src/acp/session.ts): sessions by id in insertion order, and an
    index from run ids to session ids. */
module SessionStore {
  import opened Options
  import opened OrderedMaps

  datatype Config = Config(maxSessions: nat, idleTtlMs: nat)

  datatype Session = Session(
    key: string, ledgerId: Option<string>, cwd: string, createdAt: int, touchedAt: int,
    controller: Option<int>, activeRun: Option<string>)

  /** What a caller of `createSession` supplies; `ledgerId` may be absent, undefined or a string. */
  datatype Params = Params(key: string, cwd: string, ledgerId: Option<Option<string>>)

  /** `aborted` is history: the abort controllers aborted so far. */
  datatype State = State(sessions: OrderedMap<Session>, runs: map<string, string>, aborted: seq<int>)

  const Initial := State([], map[], [])

  /** An empty run id counts as none. */
  predicate Running(s: Session) { s.activeRun.Some? && s.activeRun.value != "" }

  predicate Busy(s: Session) { Running(s) || s.controller.Some? }

  function Unindex(runs: map<string, string>, s: Session): map<string, string> {
    if Running(s) then runs - {s.activeRun.value} else runs
  }

  function AbortOf(s: Session): seq<int> { if s.controller.Some? then [s.controller.value] else [] }

  function Remove(st: State, id: string): State {
    match Lookup(st.sessions, id)
    case None => st
    case Some(s) => State(OrderedMaps.Delete(st.sessions, id), Unindex(st.runs, s), st.aborted + AbortOf(s))
  }

  // ---------------------------------------------------------------- reaping and eviction

  predicate Expired(cfg: Config, now: int, s: Session) { !Busy(s) && s.touchedAt <= now - cfg.idleTtlMs }

  /** The sessions reaping leaves. */
  function Survivors(cfg: Config, now: int, m: OrderedMap<Session>): OrderedMap<Session> {
    if m == [] then []
    else if Expired(cfg, now, m[0].1) then Survivors(cfg, now, m[1..])
    else [m[0]] + Survivors(cfg, now, m[1..])
  }

  /** Position of the least recently touched idle session among the first `n`, the earliest on ties. */
  function OldestIdle(m: OrderedMap<Session>, n: nat): (r: Option<nat>)
    requires n <= |m|
    ensures r.Some? ==> r.value < n
  {
    if n == 0 then None
    else
      var best, s := OldestIdle(m, n - 1), m[n - 1].1;
      if Busy(s) || (best.Some? && s.touchedAt >= m[best.value].1.touchedAt) then best else Some(n - 1)
  }

  /** `evictOldestIdleSession`: `None` when it returns false. */
  function Evict(st: State): Option<State> {
    match OldestIdle(st.sessions, |st.sessions|)
    case None => None
    case Some(i) => if st.sessions[i].0 == "" then None else Some(Remove(st, st.sessions[i].0))
  }

  // ---------------------------------------------------------------- operations

  function NewSession(now: int, p: Params): Session {
    var ledgerId := p.ledgerId.GetOr(None);
    Session(p.key, if ledgerId == Some("") then None else ledgerId, p.cwd, now, now, None, None)
  }

  function Refreshed(s: Session, now: int, p: Params): Session {
    s.(key := p.key, cwd := p.cwd, touchedAt := now, ledgerId := p.ledgerId.GetOr(s.ledgerId))
  }

  function Add(st: State, id: string, s: Session): State { st.(sessions := Put(st.sessions, id, s)) }

  datatype Created = Created(after: State, ok: bool)

  function Create(cfg: Config, st: State, now: int, id: string, p: Params): Created {
    match Lookup(st.sessions, id)
    case Some(s) => Created(Add(st, id, Refreshed(s, now, p)), true)
    case None =>
      var reaped := st.(sessions := Survivors(cfg, now, st.sessions));
      if |reaped.sessions| < cfg.maxSessions then Created(Add(reaped, id, NewSession(now, p)), true)
      else
        match Evict(reaped)
        case None => Created(reaped, false)
        case Some(evicted) => Created(Add(evicted, id, NewSession(now, p)), true)
  }

  function Touch(st: State, now: int, id: string): State {
    match Lookup(st.sessions, id)
    case None => st
    case Some(s) => Add(st, id, s.(touchedAt := now))
  }

  /** The session id `getSessionByRunId` resolves a run to. */
  function FindByRun(st: State, runId: string): Option<string> {
    if runId !in st.runs || st.runs[runId] == "" || Lookup(st.sessions, st.runs[runId]).None? then None
    else Some(st.runs[runId])
  }

  function SetActiveRun(st: State, now: int, id: string, runId: string, controller: int): State {
    match Lookup(st.sessions, id)
    case None => st
    case Some(s) =>
      Add(st, id, s.(activeRun := Some(runId), controller := Some(controller), touchedAt := now))
        .(runs := st.runs[runId := id])
  }

  function ClearActiveRun(st: State, now: int, id: string): State {
    match Lookup(st.sessions, id)
    case None => st
    case Some(s) =>
      Add(st, id, s.(activeRun := None, controller := None, touchedAt := now)).(runs := Unindex(st.runs, s))
  }

  /** `cancelActiveRun` answers true exactly when there is a controller. */
  function CancelActiveRun(st: State, now: int, id: string): State {
    match Lookup(st.sessions, id)
    case None => st
    case Some(s) =>
      if s.controller.None? then st
      else ClearActiveRun(st, now, id).(aborted := st.aborted + [s.controller.value])
  }

  function AbortAll(m: OrderedMap<Session>): seq<int> {
    if m == [] then [] else AbortAll(m[..|m| - 1]) + AbortOf(m[|m| - 1].1)
  }

  datatype Event =
    | CreateSession(now: int, id: string, params: Params)
    | GetSession(now: int, id: string)
    | GetByRun(now: int, runId: string)
    | SetRun(now: int, id: string, runId: string, controller: int)
    | ClearRun(now: int, id: string)
    | CancelRun(now: int, id: string)
    | DeleteSession(id: string)
    | ClearAll

  function Step(cfg: Config, st: State, e: Event): State {
    match e
    case CreateSession(now, id, params) => Create(cfg, st, now, id, params).after
    case GetSession(now, id) => Touch(st, now, id)
    case GetByRun(now, runId) =>
      var found := FindByRun(st, runId);
      if found.None? then st else Touch(st, now, found.value)
    case SetRun(now, id, runId, controller) => SetActiveRun(st, now, id, runId, controller)
    case ClearRun(now, id) => ClearActiveRun(st, now, id)
    case CancelRun(now, id) => CancelActiveRun(st, now, id)
    case DeleteSession(id) => Remove(st, id)
    case ClearAll => State([], map[], st.aborted + AbortAll(st.sessions))
  }

  function Run(cfg: Config, events: seq<Event>): State {
    if events == [] then Initial else Step(cfg, Run(cfg, events[..|events| - 1]), events[|events| - 1])
  }
}
