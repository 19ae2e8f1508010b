/** What every operation of the session store keeps, and when creation evicts or fails. */
module SessionStoreInvariants {
  import opened Options
  import opened OrderedMaps
  import opened SessionStore

  // ---------------------------------------------------------------- the run index

  ghost predicate RunsOn(st: State, r: string, id: string) {
    r != "" && Lookup(st.sessions, id).Some? && Lookup(st.sessions, id).value.activeRun == Some(r)
  }

  ghost predicate Indexed(st: State, r: string, id: string) { r in st.runs && st.runs[r] == id }

  /** The run index is exactly the inverse of the sessions' active runs. */
  ghost predicate Coherent(st: State) {
    forall r, id :: RunsOn(st, r, id) <==> Indexed(st, r, id)
  }

  lemma AddKeepsCoherence(st: State, id: string, s: Session)
    requires Coherent(st)
    requires match Lookup(st.sessions, id) case None => !Running(s) case Some(old') => old'.activeRun == s.activeRun
    ensures Coherent(Add(st, id, s))
  {
    var after := Add(st, id, s);
    forall r, x ensures RunsOn(after, r, x) <==> Indexed(after, r, x) {
      assert RunsOn(st, r, x) <==> Indexed(st, r, x);
    }
  }

  lemma RemoveKeepsCoherence(st: State, id: string)
    requires Coherent(st)
    ensures Coherent(Remove(st, id))
  {
    var after := Remove(st, id);
    forall r, x ensures RunsOn(after, r, x) <==> Indexed(after, r, x) {
      assert RunsOn(st, r, x) <==> Indexed(st, r, x);
      assert RunsOn(st, r, id) <==> Indexed(st, r, id);
    }
  }

  lemma ClearKeepsCoherence(st: State, now: int, id: string)
    requires Coherent(st)
    ensures Coherent(ClearActiveRun(st, now, id))
  {
    var after := ClearActiveRun(st, now, id);
    forall r, x ensures RunsOn(after, r, x) <==> Indexed(after, r, x) {
      assert RunsOn(st, r, x) <==> Indexed(st, r, x);
      assert RunsOn(st, r, id) <==> Indexed(st, r, id);
    }
  }

  /** What `setActiveRun` needs of its caller: a run id not in use, on a session that runs nothing
      (or the very run it already has). */
  predicate FreshRunOnIdle(st: State, id: string, runId: string) {
    match Lookup(st.sessions, id)
    case None => true
    case Some(s) => runId != "" && (s.activeRun == Some(runId) || (!Running(s) && runId !in st.runs))
  }

  /** Exactly when `setActiveRun` keeps the index coherent. */
  lemma SetActiveRunKeepsIff(st: State, now: int, id: string, runId: string, controller: int)
    requires Coherent(st)
    ensures Coherent(SetActiveRun(st, now, id, runId, controller)) <==> FreshRunOnIdle(st, id, runId)
  {
    var after := SetActiveRun(st, now, id, runId, controller);
    if Lookup(st.sessions, id).Some? {
      var s := Lookup(st.sessions, id).value;
      if FreshRunOnIdle(st, id, runId) {
        forall r, x ensures RunsOn(after, r, x) <==> Indexed(after, r, x) {
          assert RunsOn(st, r, x) <==> Indexed(st, r, x);
          assert RunsOn(st, runId, x) <==> Indexed(st, runId, x);
          assert RunsOn(st, runId, id) <==> Indexed(st, runId, id);
        }
      } else if runId == "" {
        assert Indexed(after, runId, id) && !RunsOn(after, runId, id);
      } else if Running(s) {
        var stale := s.activeRun.value;
        assert RunsOn(st, stale, id);
        assert Indexed(after, stale, id) && !RunsOn(after, stale, id);
      } else {
        var other := st.runs[runId];
        assert Indexed(st, runId, other);
        assert other != id by { assert RunsOn(st, runId, other); }
        assert RunsOn(after, runId, other) && !Indexed(after, runId, other);
      }
    }
  }

  /** The overwritten run stays in the index: a second run on a busy session leaves it behind. */
  lemma OverwrittenRunStays(st: State, now: int, id: string, old': string, runId: string, controller: int)
    requires Coherent(st) && RunsOn(st, old', id) && runId != old' && runId != ""
    ensures Indexed(SetActiveRun(st, now, id, runId, controller), old', id)
    ensures !Coherent(SetActiveRun(st, now, id, runId, controller))
  {
    assert Indexed(st, old', id);
    SetActiveRunKeepsIff(st, now, id, runId, controller);
  }

  // ---------------------------------------------------------------- reaping

  lemma {:induction false} SurvivorsExactly(cfg: Config, now: int, m: OrderedMap<Session>, id: string)
    requires Keyed(m)
    ensures Keyed(Survivors(cfg, now, m))
    ensures Lookup(Survivors(cfg, now, m), id)
         == match Lookup(m, id) case None => None case Some(s) => if Expired(cfg, now, s) then None else Some(s)
  {
    if m != [] {
      TailKeyed(m);
      SurvivorsExactly(cfg, now, m[1..], id);
      SurvivorsExactly(cfg, now, m[1..], m[0].0);
      if !Expired(cfg, now, m[0].1) { ConsKeyed(m[0].0, m[0].1, Survivors(cfg, now, m[1..])); }
    }
  }

  lemma {:induction false} SurvivorsCount(cfg: Config, now: int, m: OrderedMap<Session>)
    ensures |Survivors(cfg, now, m)| <= |m|
    ensures |Survivors(cfg, now, m)| == |m| ==> Survivors(cfg, now, m) == m
    ensures |Survivors(cfg, now, m)| == |m| <==> forall i :: 0 <= i < |m| ==> !Expired(cfg, now, m[i].1)
  {
    if m != [] {
      var rest := m[1..];
      SurvivorsCount(cfg, now, rest);
      if forall i :: 0 <= i < |m| ==> !Expired(cfg, now, m[i].1) {
        forall i | 0 <= i < |rest| ensures !Expired(cfg, now, rest[i].1) { assert rest[i] == m[i + 1]; }
      } else {
        var i :| 0 <= i < |m| && Expired(cfg, now, m[i].1);
        if i > 0 { assert rest[i - 1] == m[i]; }
      }
    }
  }

  lemma ReapKeepsCoherence(cfg: Config, st: State, now: int)
    requires Coherent(st) && Keyed(st.sessions)
    ensures Coherent(st.(sessions := Survivors(cfg, now, st.sessions)))
  {
    var after := st.(sessions := Survivors(cfg, now, st.sessions));
    forall r, x ensures RunsOn(after, r, x) <==> Indexed(after, r, x) {
      SurvivorsExactly(cfg, now, st.sessions, x);
      assert RunsOn(st, r, x) <==> Indexed(st, r, x);
    }
  }

  // ---------------------------------------------------------------- eviction

  /** The victim is idle, and every idle session was touched no earlier, the ones before it later. */
  lemma {:induction false} OldestIdleIsLeastRecent(m: OrderedMap<Session>, n: nat)
    requires n <= |m|
    ensures match OldestIdle(m, n)
            case None => forall i :: 0 <= i < n ==> Busy(m[i].1)
            case Some(v) =>
              && !Busy(m[v].1)
              && (forall i :: 0 <= i < n && !Busy(m[i].1) ==> m[v].1.touchedAt <= m[i].1.touchedAt)
              && (forall i :: 0 <= i < v && !Busy(m[i].1) ==> m[v].1.touchedAt < m[i].1.touchedAt)
  {
    if n > 0 { OldestIdleIsLeastRecent(m, n - 1); }
  }

  /** The store's shape: one record per id, and no more records than the limit. */
  ghost predicate Bounded(cfg: Config, st: State) {
    Keyed(st.sessions) && |st.sessions| <= cfg.maxSessions
  }

  lemma EvictRemovesOne(st: State)
    requires Keyed(st.sessions) && Evict(st).Some?
    ensures Keyed(Evict(st).value.sessions) && |Evict(st).value.sessions| == |st.sessions| - 1
  {
    var i := OldestIdle(st.sessions, |st.sessions|).value;
    LookupAt(st.sessions, i);
    DeleteKeyed(st.sessions, st.sessions[i].0);
  }

  lemma CreateKeepsBounded(cfg: Config, st: State, now: int, id: string, p: Params)
    requires Bounded(cfg, st)
    ensures Bounded(cfg, Create(cfg, st, now, id, p).after)
  {
    SurvivorsExactly(cfg, now, st.sessions, id);
    SurvivorsCount(cfg, now, st.sessions);
    var reaped := st.(sessions := Survivors(cfg, now, st.sessions));
    if Lookup(st.sessions, id).Some? {
      PutKeyed(st.sessions, id, Refreshed(Lookup(st.sessions, id).value, now, p));
    } else if |reaped.sessions| < cfg.maxSessions {
      PutKeyed(reaped.sessions, id, NewSession(now, p));
    } else if Evict(reaped).Some? {
      EvictRemovesOne(reaped);
      PutKeyed(Evict(reaped).value.sessions, id, NewSession(now, p));
    }
  }

  lemma CreateKeepsCoherence(cfg: Config, st: State, now: int, id: string, p: Params)
    requires Coherent(st) && Keyed(st.sessions)
    ensures Coherent(Create(cfg, st, now, id, p).after)
  {
    var reaped := st.(sessions := Survivors(cfg, now, st.sessions));
    if Lookup(st.sessions, id).Some? {
      AddKeepsCoherence(st, id, Refreshed(Lookup(st.sessions, id).value, now, p));
    } else {
      ReapKeepsCoherence(cfg, st, now);
      SurvivorsExactly(cfg, now, st.sessions, id);
      if |reaped.sessions| < cfg.maxSessions {
        AddKeepsCoherence(reaped, id, NewSession(now, p));
      } else if Evict(reaped).Some? {
        RemoveKeepsCoherence(reaped, reaped.sessions[OldestIdle(reaped.sessions, |reaped.sessions|).value].0);
        AddKeepsCoherence(Evict(reaped).value, id, NewSession(now, p));
      }
    }
  }

  /** Eviction leaves a session as it is, or removes it as the least recently touched idle one. */
  lemma EvictSpares(st: State, x: string)
    requires Keyed(st.sessions) && Lookup(st.sessions, x).Some?
    ensures var s, m := Lookup(st.sessions, x).value, st.sessions;
            match Evict(st)
            case None => true
            case Some(after) =>
              || Lookup(after.sessions, x) == Some(s)
              || (Lookup(after.sessions, x).None? && !Busy(s)
                  && forall i :: 0 <= i < |m| && !Busy(m[i].1) ==> s.touchedAt <= m[i].1.touchedAt)
  {
    var m := st.sessions;
    OldestIdleIsLeastRecent(m, |m|);
    var victim := OldestIdle(m, |m|);
    if victim.Some? { LookupAt(m, victim.value); }
  }

  /** Main theorem. What creating one session does to every other: a busy session is untouched, and
      a session disappears only as expired or as the least recently touched idle one that is left. */
  lemma CreateSparesTheBusy(cfg: Config, st: State, now: int, id: string, p: Params, x: string)
    requires Keyed(st.sessions) && x != id && Lookup(st.sessions, x).Some?
    ensures var s, after := Lookup(st.sessions, x).value, Create(cfg, st, now, id, p).after;
            var left := Survivors(cfg, now, st.sessions);
            match Lookup(after.sessions, x)
            case Some(t) => t == s
            case None =>
              && !Busy(s)
              && (s.touchedAt <= now - cfg.idleTtlMs
                  || (|left| >= cfg.maxSessions
                      && forall i :: 0 <= i < |left| && !Busy(left[i].1) ==> s.touchedAt <= left[i].1.touchedAt))
  {
    SurvivorsExactly(cfg, now, st.sessions, x);
    var reaped := st.(sessions := Survivors(cfg, now, st.sessions));
    if Lookup(reaped.sessions, x).Some? { EvictSpares(reaped, x); }
  }

  /** Main theorem. Exactly when creation fails, and that failing changes nothing. */
  lemma CreateFailsExactlyWhen(cfg: Config, st: State, now: int, id: string, p: Params)
    requires Bounded(cfg, st)
    ensures var m := st.sessions;
            !Create(cfg, st, now, id, p).ok <==>
              && Lookup(m, id).None? && |m| == cfg.maxSessions
              && (forall i :: 0 <= i < |m| ==> !Expired(cfg, now, m[i].1))
              && (OldestIdle(m, |m|).None? || m[OldestIdle(m, |m|).value].0 == "")
    ensures !Create(cfg, st, now, id, p).ok ==> Create(cfg, st, now, id, p).after == st
  {
    SurvivorsCount(cfg, now, st.sessions);
  }

  /** Without an empty session id: only when the store is full of busy sessions. */
  lemma CreateFailsOnlyWhenAllBusy(cfg: Config, st: State, now: int, id: string, p: Params)
    requires Bounded(cfg, st) && Lookup(st.sessions, "").None?
    ensures !Create(cfg, st, now, id, p).ok <==>
              && Lookup(st.sessions, id).None? && |st.sessions| == cfg.maxSessions
              && forall i :: 0 <= i < |st.sessions| ==> Busy(st.sessions[i].1)
  {
    var m := st.sessions;
    CreateFailsExactlyWhen(cfg, st, now, id, p);
    OldestIdleIsLeastRecent(m, |m|);
    if OldestIdle(m, |m|).Some? { LookupAt(m, OldestIdle(m, |m|).value); }
  }

  /** An idle session whose id is the empty string cannot be evicted, and creation fails beside it. */
  lemma EmptyIdBlocksEviction(now: int, p: Params, q: Params)
    ensures var st := Create(Config(1, 1000), Initial, now, "", p).after;
            && |st.sessions| == 1 && !Busy(st.sessions[0].1)
            && !Create(Config(1, 1000), st, now, "a", q).ok
  {
    var st := Create(Config(1, 1000), Initial, now, "", p).after;
    assert st.sessions == [("", NewSession(now, p))];
    assert OldestIdle(st.sessions, 0) == None;
    assert Survivors(Config(1, 1000), now, st.sessions[1..]) == [];
  }

  // ---------------------------------------------------------------- runs

  lemma StepBounded(cfg: Config, st: State, e: Event)
    requires Bounded(cfg, st)
    ensures Bounded(cfg, Step(cfg, st, e))
  {
    match e
    case CreateSession(now, id, p) => CreateKeepsBounded(cfg, st, now, id, p);
    case DeleteSession(id) => DeleteKeyed(st.sessions, id);
    case ClearAll =>
    case _ =>
      var after := Step(cfg, st, e);
      if after.sessions != st.sessions {
        var id := match e
          case GetByRun(now, r) => FindByRun(st, r).GetOr("")
          case GetSession(now, id) => id case SetRun(now, id, r, c) => id
          case ClearRun(now, id) => id case CancelRun(now, id) => id case _ => "";
        assert Lookup(st.sessions, id).Some?;
        assert after.sessions == Put(st.sessions, id, Lookup(after.sessions, id).value);
        PutKeyed(st.sessions, id, Lookup(after.sessions, id).value);
      }
  }

  /** Main theorem. No run ever holds more sessions than the limit, nor two records for one id. */
  lemma {:induction false} AlwaysBounded(cfg: Config, events: seq<Event>)
    ensures Bounded(cfg, Run(cfg, events))
  {
    if events != [] {
      AlwaysBounded(cfg, events[..|events| - 1]);
      StepBounded(cfg, Run(cfg, events[..|events| - 1]), events[|events| - 1]);
    }
  }

  /** Every `setActiveRun` of the run is given a fresh run id on an idle session, as `prompt` does. */
  predicate Disciplined(cfg: Config, events: seq<Event>) {
    events == [] ||
    (var init, e := events[..|events| - 1], events[|events| - 1];
     Disciplined(cfg, init) && (e.SetRun? ==> FreshRunOnIdle(Run(cfg, init), e.id, e.runId)))
  }

  lemma StepCoherent(cfg: Config, st: State, e: Event)
    requires Keyed(st.sessions) && Coherent(st)
    ensures Coherent(Step(cfg, st, e)) <==> (e.SetRun? ==> FreshRunOnIdle(st, e.id, e.runId))
  {
    match e
    case CreateSession(now, id, p) => CreateKeepsCoherence(cfg, st, now, id, p);
    case GetSession(now, id) => TouchKeepsCoherence(st, now, id);
    case GetByRun(now, r) => TouchKeepsCoherence(st, now, FindByRun(st, r).GetOr(""));
    case SetRun(now, id, r, c) => SetActiveRunKeepsIff(st, now, id, r, c);
    case ClearRun(now, id) => ClearKeepsCoherence(st, now, id);
    case CancelRun(now, id) =>
      ClearKeepsCoherence(st, now, id);
      SameIndexSameCoherence(ClearActiveRun(st, now, id), CancelActiveRun(st, now, id), st);
    case DeleteSession(id) => RemoveKeepsCoherence(st, id);
    case ClearAll => forall r, x ensures !RunsOn(Step(cfg, st, e), r, x) && !Indexed(Step(cfg, st, e), r, x) {}
  }

  lemma TouchKeepsCoherence(st: State, now: int, id: string)
    requires Coherent(st)
    ensures Coherent(Touch(st, now, id))
  {
    if Lookup(st.sessions, id).Some? {
      AddKeepsCoherence(st, id, Lookup(st.sessions, id).value.(touchedAt := now));
    }
  }

  lemma SameIndexSameCoherence(a: State, b: State, c: State)
    requires Coherent(a) && Coherent(c)
    requires (b.sessions == a.sessions && b.runs == a.runs) || b == c
    ensures Coherent(b)
  {
    if b != c {
      forall r, x ensures RunsOn(b, r, x) <==> Indexed(b, r, x) {
        assert RunsOn(a, r, x) <==> Indexed(a, r, x);
      }
    }
  }

  /** Main theorem. Over a disciplined run the index stays the exact inverse of the active runs. */
  lemma {:induction false} DisciplinedRunsAreCoherent(cfg: Config, events: seq<Event>)
    requires Disciplined(cfg, events)
    ensures Coherent(Run(cfg, events))
  {
    if events == [] {
      forall r, x ensures !RunsOn(Initial, r, x) && !Indexed(Initial, r, x) {}
    } else {
      DisciplinedRunsAreCoherent(cfg, events[..|events| - 1]);
      AlwaysBounded(cfg, events[..|events| - 1]);
      StepCoherent(cfg, Run(cfg, events[..|events| - 1]), events[|events| - 1]);
    }
  }

  /** The index was the inverse of the active runs after every event so far. */
  ghost predicate AlwaysCoherent(cfg: Config, events: seq<Event>) {
    Coherent(Run(cfg, events)) && (events != [] ==> AlwaysCoherent(cfg, events[..|events| - 1]))
  }

  /** Main theorem. It always was exactly when every `setActiveRun` was disciplined. */
  lemma {:induction false} CoherentThroughoutIff(cfg: Config, events: seq<Event>)
    ensures AlwaysCoherent(cfg, events) <==> Disciplined(cfg, events)
  {
    if events == [] {
      DisciplinedRunsAreCoherent(cfg, events);
    } else {
      var init, last := events[..|events| - 1], events[|events| - 1];
      CoherentThroughoutIff(cfg, init);
      AlwaysBounded(cfg, init);
      if Coherent(Run(cfg, init)) { StepCoherent(cfg, Run(cfg, init), last); }
    }
  }

  /** So looking a run up finds the one session it runs on, and nothing else. */
  lemma FindsTheRunningSession(cfg: Config, events: seq<Event>, r: string, id: string)
    requires Disciplined(cfg, events)
    ensures FindByRun(Run(cfg, events), r) == Some(id) <==> RunsOn(Run(cfg, events), r, id) && id != ""
  {
    DisciplinedRunsAreCoherent(cfg, events);
    var st := Run(cfg, events);
    assert RunsOn(st, r, id) <==> Indexed(st, r, id);
  }
}
