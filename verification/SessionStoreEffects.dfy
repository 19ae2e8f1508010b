/** What each operation of the session store does to the session it names. */
module SessionStoreEffects {
  import opened Options
  import opened OrderedMaps
  import opened SessionStore
  import opened SessionStoreInvariants

  /** Every operation but `cancelActiveRun` on a session without a controller counts as a use of the
      session it finds: it is the most recent from then on. */
  lemma UseRefreshes(cfg: Config, st: State, now: int, id: string, s: Session, runId: string, c: int, p: Params)
    requires Lookup(st.sessions, id) == Some(s)
    ensures Lookup(Step(cfg, st, GetSession(now, id)).sessions, id) == Some(s.(touchedAt := now))
    ensures Lookup(Step(cfg, st, SetRun(now, id, runId, c)).sessions, id).value.touchedAt == now
    ensures Lookup(Step(cfg, st, ClearRun(now, id)).sessions, id).value.touchedAt == now
    ensures s.controller.Some? ==> Lookup(Step(cfg, st, CancelRun(now, id)).sessions, id).value.touchedAt == now
    ensures Lookup(Step(cfg, st, CreateSession(now, id, p)).sessions, id).value.touchedAt == now
    ensures id != "" && runId in st.runs && st.runs[runId] == id ==>
              Lookup(Step(cfg, st, GetByRun(now, runId)).sessions, id) == Some(s.(touchedAt := now))
  {
  }

  /** Sessions an operation does not name stay as they are. */
  lemma OthersStay(cfg: Config, st: State, now: int, id: string, runId: string, c: int, x: string)
    requires x != id
    ensures Lookup(Step(cfg, st, GetSession(now, id)).sessions, x) == Lookup(st.sessions, x)
    ensures Lookup(Step(cfg, st, SetRun(now, id, runId, c)).sessions, x) == Lookup(st.sessions, x)
    ensures Lookup(Step(cfg, st, ClearRun(now, id)).sessions, x) == Lookup(st.sessions, x)
    ensures Lookup(Step(cfg, st, CancelRun(now, id)).sessions, x) == Lookup(st.sessions, x)
    ensures Lookup(Step(cfg, st, DeleteSession(id)).sessions, x) == Lookup(st.sessions, x)
  {
  }

  /** A session created runs nothing; one created again keeps its age and its run, and takes the new key
      and directory, and the new ledger id if one is given. */
  lemma CreationWrites(cfg: Config, st: State, now: int, id: string, p: Params)
    requires Create(cfg, st, now, id, p).ok
    ensures var old', s := Lookup(st.sessions, id), Lookup(Step(cfg, st, CreateSession(now, id, p)).sessions, id);
            && s.Some? && s.value.key == p.key && s.value.cwd == p.cwd
            && (match old'
                case Some(o) =>
                  && s.value.createdAt == o.createdAt
                  && s.value.activeRun == o.activeRun && s.value.controller == o.controller
                  && s.value.ledgerId == (if p.ledgerId.Some? then p.ledgerId.value else o.ledgerId)
                case None =>
                  && s.value.createdAt == now && !Busy(s.value)
                  && s.value.ledgerId == (if p.ledgerId.Some? && p.ledgerId.value != Some("") then p.ledgerId.value
                                          else None))
  {
  }

  /** Main theorem. Starting, clearing and cancelling a run, one after the other's effect: the session is
      busy with the run and found by it; cleared, it is idle and the run leads nowhere; cancelled, its
      controller was aborted, and that is reported exactly when it had one. */
  lemma RunsStartAndEnd(cfg: Config, st: State, now: int, id: string, runId: string, c: int)
    requires Lookup(st.sessions, id).Some? && id != "" && runId != ""
    ensures var started := Step(cfg, st, SetRun(now, id, runId, c));
            var cleared, cancelled := Step(cfg, started, ClearRun(now, id)), Step(cfg, started, CancelRun(now, id));
            && Lookup(started.sessions, id).value.activeRun == Some(runId)
            && Lookup(started.sessions, id).value.controller == Some(c)
            && FindByRun(started, runId) == Some(id) && started.aborted == st.aborted
            && !Busy(Lookup(cleared.sessions, id).value) && FindByRun(cleared, runId).None?
            && cleared.aborted == st.aborted
            && cancelled == cleared.(aborted := st.aborted + [c])
  {
  }

  /** Deleting a session aborts what it runs and takes its run out of the index; clearing the store does
      so for all. */
  lemma DeletionAborts(cfg: Config, st: State, id: string, s: Session)
    requires Lookup(st.sessions, id) == Some(s)
    ensures var t := Step(cfg, st, DeleteSession(id));
            && Lookup(t.sessions, id).None?
            && t.aborted == st.aborted + (if s.controller.Some? then [s.controller.value] else [])
            && (s.activeRun.Some? && s.activeRun.value != "" ==> FindByRun(t, s.activeRun.value).None?)
  {
  }

  lemma {:induction false} AbortAllHas(m: OrderedMap<Session>, i: nat)
    requires i < |m| && m[i].1.controller.Some?
    ensures m[i].1.controller.value in AbortAll(m)
  {
    if i < |m| - 1 { AbortAllHas(m[..|m| - 1], i); }
  }

  lemma ClearingAborts(cfg: Config, st: State, id: string)
    requires Lookup(st.sessions, id).Some? && Lookup(st.sessions, id).value.controller.Some?
    ensures var t := Step(cfg, st, ClearAll);
            t.sessions == [] && t.runs == map[] && Lookup(st.sessions, id).value.controller.value in t.aborted
  {
    var i := LookupFinds(st.sessions, id);
    AbortAllHas(st.sessions, i);
  }

  /** A session is expired exactly when it is idle, with neither run nor controller, and was last used
      the whole idle time ago or more. */
  lemma ExpiryIs(cfg: Config, now: int, s: Session)
    ensures Expired(cfg, now, s) <==>
            && (s.activeRun.None? || s.activeRun.value == "") && s.controller.None?
            && now - s.touchedAt >= cfg.idleTtlMs
  {
  }
}
