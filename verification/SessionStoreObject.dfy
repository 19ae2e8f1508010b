/** The store object returned by `createInMemorySessionStore`. A valid store is in the state its history
    of calls leads to, so the theorems about runs hold of it. */
module SessionStoreObject {
  import opened Options
  import opened OrderedMaps
  import opened SessionStore
  import opened SessionStoreInvariants
  import opened Sequences

  class AcpSessionStore {
    const config: Config
    var sessions: OrderedMap<Session>
    var runIdToSessionId: map<string, string>
    ghost var aborted: seq<int>
    ghost var history: seq<Event>

    ghost predicate Valid()
      reads this
    {
      View() == Run(config, history)
    }

    ghost function View(): State
      reads this
    {
      State(sessions, runIdToSessionId, aborted)
    }

    constructor (config: Config)
      ensures this.config == config && Valid() && history == []
    {
      this.config := config;
      sessions, runIdToSessionId, aborted, history := [], map[], [], [];
    }

    /** `e` led from `before`, where the history leads, to the present state. */
    ghost method Record(before: State, e: Event)
      requires View() == Step(config, before, e)
      requires before == Run(config, history)
      modifies this`history
      ensures Valid() && history == old(history) + [e]
    {
      assert (history + [e])[..|history|] == history;
      history := history + [e];
    }

    // -------------------------------------------------------------- what a valid store guarantees

    lemma IsBounded()
      requires Valid()
      ensures Keyed(sessions) && |sessions| <= config.maxSessions
    {
      AlwaysBounded(config, history);
    }

    /** After disciplined calls, a run leads to a session exactly if that session is running it. */
    lemma LookupFindsTheRun(runId: string, id: string)
      requires Valid() && Disciplined(config, history)
      ensures FindByRun(View(), runId) == Some(id) <==>
              && id != "" && runId != ""
              && Lookup(sessions, id).Some? && Lookup(sessions, id).value.activeRun == Some(runId)
    {
      FindsTheRunningSession(config, history, runId, id);
      assert FindByRun(View(), runId) == Some(id) <==> RunsOn(View(), runId, id) && id != "";
    }

    // -------------------------------------------------------------- internal operations

    method RemoveSession(id: string) returns (removed: bool)
      modifies this`sessions, this`runIdToSessionId, this`aborted
      ensures View() == Remove(old(View()), id)
      ensures removed == Lookup(old(sessions), id).Some?
    {
      var session := Lookup(sessions, id);
      if session.None? {
        return false;
      }
      if Running(session.value) {
        runIdToSessionId := runIdToSessionId - {session.value.activeRun.value};
      }
      if session.value.controller.Some? {
        aborted := aborted + [session.value.controller.value];
      }
      sessions := OrderedMaps.Delete(sessions, id);
      return true;
    }

    method ReapIdleSessions(nowMs: int)
      requires Keyed(sessions)
      modifies this`sessions, this`runIdToSessionId, this`aborted
      ensures View() == old(View()).(sessions := Survivors(config, nowMs, old(sessions)))
      ensures Keyed(sessions)
    {
      var entries := sessions;
      for n := 0 to |entries|
        invariant Keyed(sessions) && ReapedTo(config, nowMs, entries, n, sessions)
        invariant runIdToSessionId == old(runIdToSessionId) && aborted == old(aborted)
      {
        ReapNext(config, nowMs, entries, n, sessions);
        var (sessionId, session) := entries[n];
        if Busy(session) || session.touchedAt > nowMs - config.idleTtlMs {
          continue;
        }
        var _ := RemoveSession(sessionId);
      }
      assert entries[..|entries|] == entries;
    }

    method EvictOldestIdleSession() returns (evicted: bool)
      modifies this`sessions, this`runIdToSessionId, this`aborted
      ensures evicted == Evict(old(View())).Some?
      ensures View() == if evicted then Evict(old(View())).value else old(View())
    {
      var oldest: Option<nat> := None;
      for n := 0 to |sessions|
        invariant View() == old(View())
        invariant oldest == OldestIdle(sessions, n)
      {
        var session := sessions[n].1;
        if Busy(session) {
          continue;
        }
        if oldest.Some? && session.touchedAt >= sessions[oldest.value].1.touchedAt {
          continue;
        }
        oldest := Some(n);
      }
      if oldest.None? || sessions[oldest.value].0 == "" {
        return false;
      }
      LookupAt(sessions, oldest.value);
      evicted := RemoveSession(sessions[oldest.value].0);
    }

    method AddSession(nowMs: int, id: string, params: Params) returns (ok: bool)
      requires Keyed(sessions)
      modifies this`sessions, this`runIdToSessionId, this`aborted
      ensures Created(View(), ok) == Create(config, old(View()), nowMs, id, params)
    {
      var existing := Lookup(sessions, id);
      if existing.Some? {
        sessions := Put(sessions, id, Refreshed(existing.value, nowMs, params));
        return true;
      }
      ReapIdleSessions(nowMs);
      if |sessions| >= config.maxSessions {
        var evicted := EvictOldestIdleSession();
        if !evicted {
          return false;
        }
      }
      sessions := Put(sessions, id, NewSession(nowMs, params));
      return true;
    }

    method TouchSession(nowMs: int, id: string) returns (session: Option<Session>)
      modifies this`sessions
      ensures View() == Touch(old(View()), nowMs, id)
      ensures session == Lookup(sessions, id)
    {
      session := Lookup(sessions, id);
      if session.Some? {
        session := Some(session.value.(touchedAt := nowMs));
        sessions := Put(sessions, id, session.value);
      }
    }

    method ClearRunOf(nowMs: int, id: string, session: Session)
      requires Lookup(sessions, id) == Some(session)
      modifies this`sessions, this`runIdToSessionId
      ensures View() == SessionStore.ClearActiveRun(old(View()), nowMs, id)
    {
      if Running(session) {
        runIdToSessionId := runIdToSessionId - {session.activeRun.value};
      }
      sessions := Put(sessions, id, session.(activeRun := None, controller := None, touchedAt := nowMs));
    }

    // -------------------------------------------------------------- the store's interface

    /** Refreshes, or reaps, evicts if need be and creates; false when the store is full. */
    method CreateSession(nowMs: int, id: string, params: Params) returns (ok: bool)
      requires Valid()
      modifies this
      ensures Valid() && history == old(history) + [Event.CreateSession(nowMs, id, params)]
      ensures ok == Create(config, old(View()), nowMs, id, params).ok
      ensures !ok ==> sessions == old(sessions) && runIdToSessionId == old(runIdToSessionId)
    {
      ghost var before := View();
      IsBounded();
      AlwaysBounded(config, history);
      CreateFailsExactlyWhen(config, View(), nowMs, id, params);
      ok := AddSession(nowMs, id, params);
      Record(before, Event.CreateSession(nowMs, id, params));
    }

    method GetSession(nowMs: int, id: string) returns (session: Option<Session>)
      requires Valid()
      modifies this`sessions, this`history
      ensures Valid() && history == old(history) + [Event.GetSession(nowMs, id)]
      ensures session == Lookup(sessions, id)
    {
      ghost var before := View();
      session := TouchSession(nowMs, id);
      Record(before, Event.GetSession(nowMs, id));
    }

    /** Returns the session `FindByRun` resolves to, which is the one `LookupFindsTheRun` describes. */
    method GetSessionByRunId(nowMs: int, runId: string) returns (session: Option<Session>)
      requires Valid()
      modifies this`sessions, this`history
      ensures Valid() && history == old(history) + [GetByRun(nowMs, runId)]
      ensures var found := FindByRun(old(View()), runId);
              session == if found.None? then None else Lookup(sessions, found.value)
    {
      ghost var before := View();
      session := None;
      if runId in runIdToSessionId && runIdToSessionId[runId] != "" {
        session := TouchSession(nowMs, runIdToSessionId[runId]);
      }
      Record(before, GetByRun(nowMs, runId));
    }

    method SetActiveRun(nowMs: int, id: string, runId: string, controller: int)
      requires Valid()
      modifies this`sessions, this`runIdToSessionId, this`history
      ensures Valid() && history == old(history) + [SetRun(nowMs, id, runId, controller)]
    {
      ghost var before := View();
      var session := Lookup(sessions, id);
      if session.Some? {
        sessions := Put(
          sessions, id,
          session.value.(activeRun := Some(runId), controller := Some(controller), touchedAt := nowMs));
        runIdToSessionId := runIdToSessionId[runId := id];
      }
      Record(before, SetRun(nowMs, id, runId, controller));
    }

    method ClearActiveRun(nowMs: int, id: string)
      requires Valid()
      modifies this`sessions, this`runIdToSessionId, this`history
      ensures Valid() && history == old(history) + [ClearRun(nowMs, id)]
    {
      ghost var before := View();
      var session := Lookup(sessions, id);
      if session.Some? {
        ClearRunOf(nowMs, id, session.value);
      }
      Record(before, ClearRun(nowMs, id));
    }

    method CancelActiveRun(nowMs: int, id: string) returns (cancelled: bool)
      requires Valid()
      modifies this
      ensures Valid() && history == old(history) + [CancelRun(nowMs, id)]
      ensures cancelled <==> |aborted| == |old(aborted)| + 1
      ensures cancelled ==> Lookup(sessions, id).Some? && !Busy(Lookup(sessions, id).value)
    {
      ghost var before := View();
      cancelled := false;
      var session := Lookup(sessions, id);
      if session.Some? && session.value.controller.Some? {
        aborted := aborted + [session.value.controller.value];
        ClearRunOf(nowMs, id, session.value);
        cancelled := true;
      }
      Record(before, CancelRun(nowMs, id));
    }

    method DeleteSession(id: string) returns (deleted: bool)
      requires Valid()
      modifies this
      ensures Valid() && history == old(history) + [Event.DeleteSession(id)]
      ensures deleted == Lookup(old(sessions), id).Some?
    {
      ghost var before := View();
      deleted := RemoveSession(id);
      Record(before, Event.DeleteSession(id));
    }

    method ClearAllSessionsForTest()
      requires Valid()
      modifies this
      ensures Valid() && history == old(history) + [ClearAll]
    {
      ghost var before := View();
      AbortEverything();
      sessions := [];
      runIdToSessionId := map[];
      Record(before, ClearAll);
    }

    method AbortEverything()
      modifies this`aborted
      ensures aborted == old(aborted) + AbortAll(sessions)
    {
      for n := 0 to |sessions|
        invariant aborted == old(aborted) + AbortAll(sessions[..n])
      {
        var session := sessions[n].1;
        AbortNext(sessions, n, old(aborted));
        if session.controller.Some? {
          aborted := aborted + [session.controller.value];
        }
      }
      assert sessions[..|sessions|] == sessions;
    }
  }

  lemma {:induction false} SurvivorsAppend(cfg: Config, now: int, m: OrderedMap<Session>, n: nat)
    requires n < |m|
    ensures Survivors(cfg, now, m[..n + 1])
         == Survivors(cfg, now, m[..n]) + if Expired(cfg, now, m[n].1) then [] else [m[n]]
  {
    if n > 0 {
      SurvivorsAppend(cfg, now, m[1..], n - 1);
      assert m[..n + 1][1..] == m[1..][..n] && m[..n][1..] == m[1..][..n - 1];
    }
  }

  /** Reaping has passed the first `n` entries. */
  ghost predicate ReapedTo(
    cfg: Config, now: int, entries: OrderedMap<Session>, n: nat, sessions: OrderedMap<Session>)
  {
    n <= |entries| && sessions == Survivors(cfg, now, entries[..n]) + entries[n..]
  }

  /** The next entry is still stored, and leaves the store if it is expired. */
  lemma ReapNext(cfg: Config, now: int, entries: OrderedMap<Session>, n: nat, sessions: OrderedMap<Session>)
    requires n < |entries| && Keyed(sessions) && ReapedTo(cfg, now, entries, n, sessions)
    ensures Lookup(sessions, entries[n].0) == Some(entries[n].1)
    ensures Expired(cfg, now, entries[n].1) ==>
              Keyed(Delete(sessions, entries[n].0))
              && ReapedTo(cfg, now, entries, n + 1, Delete(sessions, entries[n].0))
    ensures !Expired(cfg, now, entries[n].1) ==> ReapedTo(cfg, now, entries, n + 1, sessions)
  {
    var left := Survivors(cfg, now, entries[..n]);
    SurvivorsAppend(cfg, now, entries, n);
    DeleteKeyed(sessions, entries[n].0);
    NextOfRest(left, entries, n);
  }

  lemma NextOfRest(left: OrderedMap<Session>, entries: OrderedMap<Session>, n: nat)
    requires n < |entries| && Keyed(left + entries[n..])
    ensures Lookup(left + entries[n..], entries[n].0) == Some(entries[n].1)
    ensures Delete(left + entries[n..], entries[n].0) == left + entries[n + 1..]
    ensures left + entries[n..] == left + [entries[n]] + entries[n + 1..]
    ensures left + entries[n + 1..] == left + [] + entries[n + 1..]
  {
    DeleteBetween(left, entries[n..]);
  }

  lemma AbortNext(m: OrderedMap<Session>, n: nat, before: seq<int>)
    requires n < |m|
    ensures before + AbortAll(m[..n + 1]) == before + AbortAll(m[..n]) + AbortOf(m[n].1)
  {
    assert m[..n + 1][..n] == m[..n];
  }
}
