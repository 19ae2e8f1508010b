/** What the gateway agent's steps bring about: prompts that end, decisions that are sent, relays that
    start. The other theorem modules say what may happen; this one says what does. */
module GatewayProgress {
  import opened Options
  import opened OrderedMaps
  import opened GatewayAgent
  import GatewayOutages
  import GatewayApprovals

  // ---------------------------------------------------------------- verdicts on prompts

  predicate ExpiredWait(s: State, i: nat) { i < |s.tasks| && s.tasks[i].phase.Waiting? && s.tasks[i].expired }

  /** The prompt a waiting task asked about is due for rejection: it is still pending, it still carries
      the stamp of the outage asked about, and either its send was never accepted or that outage is on. */
  predicate Due(s: State, i: nat)
    requires i < |s.tasks| && s.tasks[i].phase.Waiting?
  {
    var w := s.tasks[i].phase;
    var p := Lookup(s.prompts, w.sessionId);
    && p.Some? && p.value.runId == w.runId && p.value.stamp == Some(w.context)
    && (!p.value.sendAccepted || (s.outage.Some? && s.outage.value.generation == w.context.generation))
  }

  /** Main theorem. At the deadline a prompt is rejected exactly when it is due; then it is not pending
      any more. One that is not due stays, and only loses the stamp of the outage asked about. */
  lemma RejectedExactlyWhenDue(s: State, i: nat, reply: WaitReply)
    requires GatewayOutages.Inv(s) && Keyed(s.prompts)
    requires ExpiredWait(s, i) && (reply == WaitFailed || reply == StillRunning)
    ensures var w, after := s.tasks[i].phase, Step(s, WaitDone(i, reply));
            var p := Lookup(s.prompts, w.sessionId);
            if Due(s, i) then
              && after.rejected == s.rejected + [Rejection(w.runId, Some(w.context), s.tasks[i].generation,
                                                           p.value.sendAccepted, s.outage)]
              && after.prompts == Delete(s.prompts, w.sessionId) && Lookup(after.prompts, w.sessionId).None?
            else
              && after.rejected == s.rejected
              && Lookup(after.prompts, w.sessionId)
                 == (if p.Some? && p.value.runId == w.runId && p.value.stamp == Some(w.context)
                     then Some(p.value.(stamp := None)) else p)
              && forall k :: k != w.sessionId ==> Lookup(after.prompts, k) == Lookup(s.prompts, k)
  {
  }

  /** A run the gateway reports finished or failed ends its prompt, expired or not, and rejects none. */
  lemma FinishedRunEnds(s: State, i: nat, reply: WaitReply)
    requires i < |s.tasks| && s.tasks[i].phase.Waiting? && (reply == RunOk || reply == RunError)
    ensures var w, after := s.tasks[i].phase, Step(s, WaitDone(i, reply));
            && after.rejected == s.rejected
            && after.prompts == (if Lookup(s.prompts, w.sessionId).Some?
                                    && Lookup(s.prompts, w.sessionId).value.runId == w.runId
                                 then Delete(s.prompts, w.sessionId) else s.prompts)
  {
  }

  /** Before the deadline an unfinished run is left alone; the timer is kept for it while its prompt is
      pending, and whenever the gateway could not be asked. */
  lemma UnfinishedRunWaits(s: State, i: nat, reply: WaitReply)
    requires i < |s.tasks| && s.tasks[i].phase.Waiting? && !s.tasks[i].expired
    requires reply == WaitFailed || reply == StillRunning
    ensures var w, after := s.tasks[i].phase, Step(s, WaitDone(i, reply));
            && after.prompts == s.prompts && after.rejected == s.rejected && after.sent == s.sent
            && (after.tasks[i].keepTimer <==>
                  || s.tasks[i].keepTimer || reply == WaitFailed
                  || (Lookup(s.prompts, w.sessionId).Some? && Lookup(s.prompts, w.sessionId).value.runId == w.runId))
  {
  }

  // ---------------------------------------------------------------- prompts

  /** A prompt is pending from its start, with the outage in progress, until it ends; others are not
      touched. */
  lemma PromptsComeAndGo(s: State, id: string, key: string, run: string, k: string)
    requires run !in s.usedRuns && Keyed(s.prompts)
    ensures var started, ended := Step(s, PromptStarts(id, key, run)), Step(s, PromptEnds(id, run));
            && Lookup(started.prompts, id) == Some(Prompt(id, key, run, false, s.outage))
            && Lookup(ended.prompts, id).None?
            && (k != id ==> Lookup(started.prompts, k) == Lookup(s.prompts, k) == Lookup(ended.prompts, k))
            && (s.outage.Some? ==> started.timer.Some?)
            && (ended.prompts == [] ==> ended.timer.None?)
  {
  }

  /** An accepted send marks its own prompt. A failed one ends it, unless the gateway closed and the
      prompt is left to reconciliation. */
  lemma SendsAreNoted(s: State, id: string, run: string, p: Prompt)
    requires Keyed(s.prompts) && Lookup(s.prompts, id) == Some(p)
    ensures Lookup(Step(s, SendAccepted(id, run)).prompts, id)
         == Some(if p.runId == run then p.(sendAccepted := true) else p)
    ensures Lookup(Step(s, SendFailed(id, run, false)).prompts, id).None?
    ensures p.runId == run ==> Step(s, SendFailed(id, run, true)) == s
  {
  }

  /** A disconnect with prompts pending arms the timer for its own, new generation. */
  lemma DisconnectArms(s: State, reason: string)
    ensures var after := Step(s, GatewayDisconnect(reason));
            && after.outage == Some(Context(s.generation + 1, reason)) && after.generation == s.generation + 1
            && after.timer == (if s.prompts == [] then s.timer else Some(s.generation + 1))
  {
  }

  // ---------------------------------------------------------------- the reconciliation loop

  /** An entry of the loop that still needs asking about. */
  predicate ToAsk(s: State, generation: nat, entry: (string, string)) {
    var p := Lookup(s.prompts, entry.0);
    p.Some? && p.value.runId == entry.1 && p.value.stamp.Some? && p.value.stamp.value.generation == generation
  }

  /** The loop passes over entries that need no asking and stops at the first that does; past the last
      one it is done, and disarms the timer unless told to keep it or a newer outage has begun. */
  lemma {:induction false} LoopStops(s: State, t: Task) returns (n: nat)
    ensures n <= |t.rest| && forall j :: 0 <= j < n ==> !ToAsk(s, t.generation, t.rest[j])
    ensures var (after, next) := Advance(s, t);
            if n < |t.rest| then
              && ToAsk(s, t.generation, t.rest[n]) && after == s
              && next == t.(rest := t.rest[n + 1..], phase := next.phase) && next.phase.Waiting?
              && (next.phase.sessionId, next.phase.runId) == t.rest[n]
              && Some(next.phase.context) == Lookup(s.prompts, t.rest[n].0).value.stamp
            else
              && next == t.(rest := [], phase := Done)
              && after == s.(timer := if !t.keepTimer && s.generation == t.generation then None else s.timer)
    decreases |t.rest|
  {
    if t.rest == [] || ToAsk(s, t.generation, t.rest[0]) {
      n := 0;
    } else {
      var m := LoopStops(s, t.(rest := t.rest[1..]));
      n := m + 1;
    }
  }

  lemma {:induction false} SnapshotLists(prompts: OrderedMap<Prompt>)
    ensures |Snapshot(prompts)| == |prompts|
    ensures forall i :: 0 <= i < |prompts| ==> Snapshot(prompts)[i] == (prompts[i].0, prompts[i].1.runId)
  {
    if prompts != [] { SnapshotLists(prompts[1..]); }
  }

  /** Reconnecting ends the outage and starts asking about its prompts without a deadline; the grace
      timer starts asking with one. */
  lemma ReconciliationStarts(s: State)
    requires s.prompts != []
    ensures var after := Step(s, GatewayReconnect);
            && after.outage.None?
            && |after.tasks| == |s.tasks| + (if s.outage.Some? then 1 else 0)
            && (s.outage.Some? ==>
                  && !after.tasks[|s.tasks|].expired
                  && after.tasks[|s.tasks|].generation == s.outage.value.generation)
    ensures var after := Step(s, GraceTimer);
            && (s.timer.Some? ==>
                  && |after.tasks| == |s.tasks| + 1 && after.timer.None?
                  && after.tasks[|s.tasks|].expired && after.tasks[|s.tasks|].generation == s.timer.value)
  {
  }

  // ---------------------------------------------------------------- the grace period ends

  /** The gateway does not answer, and the loop goes on. */
  function Unanswered(s: State, i: nat): State { Step(Step(s, WaitDone(i, WaitFailed)), TaskResumes(i)) }

  /** So many such rounds of task `i`. */
  function Drive(s: State, i: nat, rounds: nat): State { Iterate((u: State) => Unanswered(u, i), s, rounds) }

  function Iterate(next: State -> State, s: State, n: nat): State
    decreases n
  {
    if n == 0 then s else Iterate(next, next(s), n - 1)
  }

  ghost predicate Queued(t: Task, k: string, runId: string) {
    exists j :: 0 <= j < |t.rest| && t.rest[j] == (k, runId)
  }

  /** Task `i` has the deadline of the active outage, and will come to every prompt still pending. */
  ghost predicate Chasing(s: State, i: nat) {
    && GatewayOutages.Inv(s) && Keyed(s.prompts)
    && i < |s.tasks| && s.tasks[i].expired
    && s.outage.Some? && s.outage.value.generation == s.tasks[i].generation
    && match s.tasks[i].phase
       case Done => s.prompts == []
       case Waiting(id, run, c) =>
         && Some(c) == s.outage && IsPending(s, id, run)
         && forall k :: Lookup(s.prompts, k).Some? && k != id ==>
              Queued(s.tasks[i], k, Lookup(s.prompts, k).value.runId)
       case Returning =>
         forall k :: Lookup(s.prompts, k).Some? ==> Queued(s.tasks[i], k, Lookup(s.prompts, k).value.runId)
  }

  ghost predicate RejectedRun(s: State, runId: string) {
    exists j :: 0 <= j < |s.rejected| && s.rejected[j].runId == runId
  }

  /** What `t` adds to `s`: the rejections so far stay, and every prompt that was pending is pending or
      rejected. */
  ghost predicate Accounts(s: State, t: State) {
    && s.rejected <= t.rejected
    && forall k :: Lookup(s.prompts, k).Some? ==>
         Lookup(t.prompts, k) == Lookup(s.prompts, k) || RejectedRun(t, Lookup(s.prompts, k).value.runId)
  }

  lemma AccountsTransitive(s: State, t: State, u: State)
    requires Accounts(s, t) && Accounts(t, u)
    ensures Accounts(s, u)
  {
    forall k | Lookup(s.prompts, k).Some? && Lookup(u.prompts, k) != Lookup(s.prompts, k)
      ensures RejectedRun(u, Lookup(s.prompts, k).value.runId)
    {
      if RejectedRun(t, Lookup(s.prompts, k).value.runId) {
        var j :| 0 <= j < |t.rejected| && t.rejected[j].runId == Lookup(s.prompts, k).value.runId;
        assert u.rejected[j] == t.rejected[j];
      }
    }
  }

  /** The loop, resumed with every pending prompt queued, waits for one of them or has none left. */
  lemma ResumeChases(s: State, i: nat)
    requires Chasing(s, i) && s.tasks[i].phase == Returning
    ensures var t := Step(s, TaskResumes(i));
            && Chasing(t, i) && t.tasks[i].phase != Returning && Accounts(s, t)
            && t.prompts == s.prompts
  {
    var task, t := s.tasks[i], Step(s, TaskResumes(i));
    var n := LoopStops(s, task);
    GatewayOutages.StepKeeps(s, TaskResumes(i));
    AllToAsk(s, task);
    forall k | Lookup(s.prompts, k).Some? && (n == |task.rest| || k != task.rest[n].0)
      ensures n < |task.rest| && Queued(t.tasks[i], k, Lookup(s.prompts, k).value.runId)
    {
      var j :| 0 <= j < |task.rest| && task.rest[j] == (k, Lookup(s.prompts, k).value.runId);
      assert ToAsk(s, task.generation, task.rest[j]);
      assert t.tasks[i].rest[j - n - 1] == task.rest[j];
    }
    if n == |task.rest| { EmptyIff(s.prompts); }
  }

  lemma AllToAsk(s: State, task: Task)
    requires GatewayOutages.Inv(s) && s.outage.Some? && s.outage.value.generation == task.generation
    ensures forall k :: Lookup(s.prompts, k).Some? ==>
              ToAsk(s, task.generation, (k, Lookup(s.prompts, k).value.runId))
  {
  }

  /** Chasing, and at rest between two rounds. */
  ghost predicate Ready(s: State, i: nat) { Chasing(s, i) && s.tasks[i].phase != Returning }

  /** The unanswered question rejects the prompt waited for. */
  lemma WaitChases(s: State, i: nat) returns (mid: State)
    requires Ready(s, i) && s.prompts != []
    ensures mid == Step(s, WaitDone(i, WaitFailed))
    ensures Chasing(mid, i) && mid.tasks[i].phase == Returning && Accounts(s, mid) && |mid.prompts| < |s.prompts|
  {
    mid := Step(s, WaitDone(i, WaitFailed));
    RejectedExactlyWhenDue(s, i, WaitFailed);
    GatewayOutages.StepKeeps(s, WaitDone(i, WaitFailed));
    GatewayOutages.StepKeyed(s, WaitDone(i, WaitFailed));
    DeleteKeyed(s.prompts, s.tasks[i].phase.sessionId);
    assert mid.rejected[|s.rejected|].runId == s.tasks[i].phase.runId;
    assert mid.tasks[i].rest == s.tasks[i].rest;
    StillQueued(s, mid, i);
  }

  /** One round rejects the prompt waited for and goes on to the next. */
  lemma RoundChases(s: State, i: nat)
    requires Ready(s, i) && s.prompts != []
    ensures var t := Unanswered(s, i); Ready(t, i) && Accounts(s, t) && |t.prompts| < |s.prompts|
  {
    var mid := WaitChases(s, i);
    var t := Step(mid, TaskResumes(i));
    ResumeChases(mid, i);
    AccountsTransitive(s, mid, t);
  }

  lemma StillQueued(s: State, mid: State, i: nat)
    requires Chasing(s, i) && s.tasks[i].phase.Waiting? && i < |mid.tasks|
    requires mid.prompts == Delete(s.prompts, s.tasks[i].phase.sessionId) && mid.tasks[i].rest == s.tasks[i].rest
    ensures forall k :: Lookup(mid.prompts, k).Some? ==> Queued(mid.tasks[i], k, Lookup(mid.prompts, k).value.runId)
  {
    forall k | Lookup(mid.prompts, k).Some?
      ensures Queued(mid.tasks[i], k, Lookup(mid.prompts, k).value.runId)
    {
      assert Queued(s.tasks[i], k, Lookup(s.prompts, k).value.runId);
    }
  }

  /** Rounds that each leave fewer prompts pending leave none in the end. */
  lemma {:induction false} RoundsExhaust(ready: State -> bool, next: State -> State, s: State) returns (rounds: nat)
    requires ready(s)
    requires forall u :: ready(u) && u.prompts != [] ==>
               ready(next(u)) && |next(u).prompts| < |u.prompts| && Accounts(u, next(u))
    ensures rounds <= |s.prompts|
    ensures var t := Iterate(next, s, rounds); t.prompts == [] && Accounts(s, t)
    decreases |s.prompts|
  {
    if s.prompts == [] {
      rounds := 0;
    } else {
      var more := RoundsExhaust(ready, next, next(s));
      rounds := more + 1;
      AccountsTransitive(s, next(s), Iterate(next, next(s), more));
    }
  }

  lemma DriveRejects(s: State, i: nat) returns (rounds: nat)
    requires Ready(s, i)
    ensures rounds <= |s.prompts|
    ensures Drive(s, i, rounds).prompts == [] && Accounts(s, Drive(s, i, rounds))
  {
    forall u | Ready(u, i) && u.prompts != []
      ensures Ready(Unanswered(u, i), i) && |Unanswered(u, i).prompts| < |u.prompts| && Accounts(u, Unanswered(u, i))
    {
      RoundChases(u, i);
    }
    rounds := RoundsExhaust((u: State) => Ready(u, i), (u: State) => Unanswered(u, i), s);
  }

  /** Starting to ask is one resumption of a task with every prompt in its list. */
  lemma GraceChases(s: State)
    requires GatewayOutages.Inv(s) && Keyed(s.prompts) && s.timer.Some? && s.outage.Some?
    ensures var t := Step(s, GraceTimer);
            && Chasing(t, |s.tasks|) && t.tasks[|s.tasks|].phase != Returning
            && t.prompts == s.prompts && t.rejected == s.rejected
  {
    var task := Task(s.timer.value, true, Snapshot(s.prompts), false, Returning);
    var ready := s.(timer := None, tasks := s.tasks + [task]);
    assert GatewayOutages.Inv(ready);
    forall k | Lookup(s.prompts, k).Some? ensures Queued(task, k, Lookup(s.prompts, k).value.runId) {
      var j := LookupFinds(s.prompts, k);
      SnapshotLists(s.prompts);
      assert task.rest[j] == (k, Lookup(s.prompts, k).value.runId);
    }
    ResumeChases(ready, |s.tasks|);
    SameAdvance(s.(timer := None), ready, task);
    assert Step(ready, TaskResumes(|s.tasks|)) == Step(s, GraceTimer);
  }

  /** The loop looks at the prompts, the generation and the timer only. */
  lemma {:induction false} SameAdvance(s: State, u: State, t: Task)
    requires u == s.(tasks := u.tasks)
    ensures Advance(u, t).1 == Advance(s, t).1 && Advance(u, t).0 == Advance(s, t).0.(tasks := u.tasks)
    decreases |t.rest|
  {
    if t.rest != [] { SameAdvance(s, u, t.(rest := t.rest[1..])); }
  }

  /** Main theorem. When the grace timer of an outage fires and the gateway stays away, every pending
      prompt is rejected, in at most as many rounds as there are prompts. */
  lemma GraceRejectsAll(events: seq<Event>) returns (rounds: nat)
    requires Run(events).timer.Some? && Run(events).outage.Some?
    ensures var s := Run(events);
            var t := Drive(Step(s, GraceTimer), |s.tasks|, rounds);
            && rounds <= |s.prompts| && t.prompts == []
            && forall k :: Lookup(s.prompts, k).Some? ==> RejectedRun(t, Lookup(s.prompts, k).value.runId)
  {
    var s := Run(events);
    GatewayOutages.OutageSafety(events);
    GraceChases(s);
    rounds := DriveRejects(Step(s, GraceTimer), |s.tasks|);
  }

  // ---------------------------------------------------------------- approvals

  lemma {:induction false} OfferedIsFound(options: seq<Decision>, k: nat)
    requires k < |options|
    ensures FindOption(options, DecisionId(options[k])) == Some(options[k])
  {
    if k > 0 {
      OfferedIsFound(options[1..], k - 1);
      assert options[1..][k - 1] == options[k];
    }
  }

  lemma {:induction false} OtherIsNotFound(options: seq<Decision>, id: string)
    requires forall k :: 0 <= k < |options| ==> DecisionId(options[k]) != id
    ensures FindOption(options, id).None?
  {
    if options != [] {
      forall k | 0 <= k < |options[1..]| ensures DecisionId(options[1..][k]) != id {
        assert options[1..][k] == options[k + 1];
      }
      OtherIsNotFound(options[1..], id);
    }
  }

  /** The relay is the approval's own, not completed, and its prompt is pending. */
  predicate Live(s: State, r: nat)
    requires r < |s.relays|
  {
    var relay := s.relays[r];
    var p := Lookup(s.prompts, relay.sessionId);
    && Lookup(s.relayMap, relay.approvalId) == Some(r) && relay.state == Active
    && p.Some? && p.value.runId == relay.runId
  }

  /** Main theorem. The option the client picks is the decision sent, if the relay is live; otherwise,
      and for anything but an offered option, a denial is sent. */
  lemma ChoiceIsSent(s: State, r: nat, selected: Option<string>)
    requires r < |s.relays| && s.relays[r].phase.Asking?
    ensures var options, after := s.relays[r].phase.options, Step(s, ClientAnswers(r, selected));
            && |after.sent| == |s.sent| + 1 && s.sent <= after.sent
            && after.sent[|s.sent|].relay == r && after.relays[r].phase == Resolving
            && (forall k :: Live(s, r) && 0 <= k < |options| && selected == Some(DecisionId(options[k])) ==>
                  after.sent[|s.sent|].decision == options[k])
            && (!Live(s, r) || selected.None?
                || (forall k :: 0 <= k < |options| ==> DecisionId(options[k]) != selected.value)
                ==> after.sent[|s.sent|].decision == Deny)
  {
    var options := s.relays[r].phase.options;
    forall k | 0 <= k < |options| ensures FindOption(options, DecisionId(options[k])) == Some(options[k]) {
      OfferedIsFound(options, k);
    }
    if selected.Some? && forall k :: 0 <= k < |options| ==> DecisionId(options[k]) != selected.value {
      OtherIsNotFound(options, selected.value);
    }
  }

  /** The three ids. */
  lemma DecisionIds(d: Decision, id: string)
    ensures NormalizeDecision(DecisionId(d)) == Some(d)
    ensures NormalizeDecision(id).Some? ==> DecisionId(NormalizeDecision(id).value) == id
  {
  }

  lemma {:induction false} KnownDecisionsAre(ids: seq<string>, d: Decision)
    ensures d in KnownDecisions(ids) <==> DecisionId(d) in ids
  {
    if ids != [] {
      DecisionIds(d, ids[0]);
      KnownDecisionsAre(ids[1..], d);
      assert ids == [ids[0]] + ids[1..];
    }
  }

  /** A live relay whose details arrive asks the client, offering each allowed decision once, and an
      allow and a denial when none is given; a dead one is denied at once. */
  lemma DetailsAsk(s: State, r: nat, allowed: Option<seq<string>>, d: Decision)
    requires r < |s.relays| && s.relays[r].phase == Hydrating
    ensures var after, ids := Step(s, DetailsArrive(r, allowed)), allowed.GetOr([]);
            var anyKnown := "allow-once" in ids || "allow-always" in ids || "deny" in ids;
            if Live(s, r) then
              && after.sent == s.sent && after.relays[r].phase.Asking?
              && (d in after.relays[r].phase.options <==> if anyKnown then DecisionId(d) in ids else d != AllowAlways)
              && (forall j, k :: 0 <= j < k < |after.relays[r].phase.options| ==>
                    after.relays[r].phase.options[j] != after.relays[r].phase.options[k])
            else
              after.sent == s.sent + [Sent(r, Deny)] && after.relays[r].phase == Resolving
  {
    var ids := allowed.GetOr([]);
    KnownDecisionsAre(ids, AllowOnce);
    KnownDecisionsAre(ids, AllowAlways);
    KnownDecisionsAre(ids, Deny);
    var known := KnownDecisions(ids);
    assert known != [] ==> known[0] in known;
  }

  /** An accepted decision completes a relay and keeps it as a sentinel; a failed one drops it, so that
      the approval can be relayed again. */
  lemma ResolutionSettles(s: State, r: nat, accepted: bool)
    requires r < |s.relays| && s.relays[r].phase == Resolving
    requires Lookup(s.relayMap, s.relays[r].approvalId) == Some(r) && s.relays[r].state == Active
    ensures var after, id := Step(s, ResolveDone(r, accepted)), s.relays[r].approvalId;
            && after.relays[r].phase == Finished && after.sent == s.sent
            && (if accepted then Lookup(after.relayMap, id) == Some(r) && after.relays[r].state == Completed
                else Lookup(after.relayMap, id).None?)
  {
  }

  lemma {:induction false} FoundByRun(prompts: OrderedMap<Prompt>, runId: string)
    ensures var i := FindByRun(prompts, runId);
            && (i < |prompts| ==> prompts[i].1.runId == runId)
            && (i == |prompts| ==> forall k :: 0 <= k < |prompts| ==> prompts[k].1.runId != runId)
  {
    if prompts != [] { FoundByRun(prompts[1..], runId); }
  }

  lemma {:induction false} FoundByKey(prompts: OrderedMap<Prompt>, key: string, runId: string)
    ensures var i := FindByKey(prompts, key, runId);
            i < |prompts| ==> prompts[i].1.sessionKey == key && prompts[i].1.runId == runId
  {
    if prompts != [] { FoundByKey(prompts[1..], key, runId); }
  }

  /** Main theorem. An approval that names a run starts a relay exactly when that run is pending and the
      approval has none; the relay is for the run's own session, whose key is corrected if need be. */
  lemma ApprovalStartsRelay(s: State, approvalId: string, key: string, runId: string)
    requires GatewayOutages.Inv(s) && Keyed(s.prompts) && runId != ""
    ensures var after := Step(s, ApprovalRequested(approvalId, key, runId));
            && (Lookup(s.relayMap, approvalId).Some? ==> after == s)
            && (Lookup(s.relayMap, approvalId).None? ==>
                  && (forall k :: Lookup(s.prompts, k).Some? && Lookup(s.prompts, k).value.runId == runId ==>
                        && after.relays == s.relays + [Relay(approvalId, runId, k, Active, Hydrating)]
                        && after.relayMap == Put(s.relayMap, approvalId, |s.relays|)
                        && Lookup(after.prompts, k) == Some(Lookup(s.prompts, k).value.(sessionKey := key)))
                  && ((forall k :: Lookup(s.prompts, k).Some? ==> Lookup(s.prompts, k).value.runId != runId) ==>
                        after == s))
  {
    var i, j := FindByKey(s.prompts, key, runId), FindByRun(s.prompts, runId);
    FoundByRun(s.prompts, runId);
    FoundByKey(s.prompts, key, runId);
    if i < |s.prompts| { LookupAt(s.prompts, i); }
    if j < |s.prompts| { LookupAt(s.prompts, j); }
    if Lookup(s.relayMap, approvalId).None? {
      forall k | Lookup(s.prompts, k).Some? && Lookup(s.prompts, k).value.runId == runId
        ensures j < |s.prompts| && s.prompts[j].0 == k && (i < |s.prompts| ==> s.prompts[i].0 == k)
      {
        var n := LookupFinds(s.prompts, k);
      }
    }
  }

  lemma {:induction false} NoneWithKey(prompts: OrderedMap<Prompt>, key: string)
    requires forall k :: 0 <= k < |prompts| ==> prompts[k].1.sessionKey != key
    ensures WithKey(prompts, key) == []
  {
    if prompts != [] { NoneWithKey(prompts[1..], key); }
  }

  lemma {:induction false} SomeWithKey(prompts: OrderedMap<Prompt>, key: string, k: nat)
    requires k < |prompts| && prompts[k].1.sessionKey == key
    ensures |WithKey(prompts, key)| >= 1
  {
    if k > 0 { SomeWithKey(prompts[1..], key, k - 1); }
  }

  lemma {:induction false} TwoWithKey(prompts: OrderedMap<Prompt>, key: string, j: nat, k: nat)
    requires j < k < |prompts| && prompts[j].1.sessionKey == key && prompts[k].1.sessionKey == key
    ensures |WithKey(prompts, key)| >= 2
  {
    if j == 0 { SomeWithKey(prompts[1..], key, k - 1); } else { TwoWithKey(prompts[1..], key, j - 1, k - 1); }
  }

  lemma {:induction false} OneWithKey(prompts: OrderedMap<Prompt>, key: string, k: nat)
    requires k < |prompts| && prompts[k].1.sessionKey == key
    requires forall j :: 0 <= j < |prompts| && j != k ==> prompts[j].1.sessionKey != key
    ensures WithKey(prompts, key) == [prompts[k].1]
  {
    if k == 0 { NoneWithKey(prompts[1..], key); } else { OneWithKey(prompts[1..], key, k - 1); }
  }

  /** One that names no run starts a relay only when its session key is that of a single pending prompt. */
  lemma ApprovalWithoutRun(s: State, approvalId: string, key: string, k: nat)
    requires Lookup(s.relayMap, approvalId).None? && k < |s.prompts| && s.prompts[k].1.sessionKey == key
    ensures var after, p := Step(s, ApprovalRequested(approvalId, key, "")), s.prompts[k].1;
            if forall j :: 0 <= j < |s.prompts| && j != k ==> s.prompts[j].1.sessionKey != key then
              after.relays == s.relays + [Relay(approvalId, p.runId, p.sessionId, Active, Hydrating)]
            else after == s
  {
    if forall j :: 0 <= j < |s.prompts| && j != k ==> s.prompts[j].1.sessionKey != key {
      OneWithKey(s.prompts, key, k);
    } else {
      var j :| 0 <= j < |s.prompts| && j != k && s.prompts[j].1.sessionKey == key;
      if j < k { TwoWithKey(s.prompts, key, j, k); } else { TwoWithKey(s.prompts, key, k, j); }
    }
  }

  /** A denial for relay `r` was sent after the first `from` decisions. */
  predicate DeniedSince(sent: seq<Sent>, from: nat, r: nat) {
    exists k :: from <= k < |sent| && sent[k] == Sent(r, Deny)
  }

  predicate ToDeny(s: State, sessionId: string, runId: string, r: nat)
    requires r < |s.relays|
  {
    && GatewayApprovals.InMap(s, r) && s.relays[r].state == Active
    && s.relays[r].sessionId == sessionId && s.relays[r].runId == runId
  }

  lemma DeniedMore(sent: seq<Sent>, from: nat, r: nat, x: Sent)
    requires from <= |sent|
    ensures DeniedSince(sent + [x], from, r) <==> DeniedSince(sent, from, r) || x == Sent(r, Deny)
  {
    if k :| from <= k < |sent| && sent[k] == Sent(r, Deny) { assert (sent + [x])[k] == Sent(r, Deny); }
    assert (sent + [x])[|sent|] == x;
  }

  lemma {:induction false} CleanupDenies(s: State, sessionId: string, runId: string, n: nat, r: nat)
    requires n <= |s.relays| && r < |s.relays|
    ensures var t := ClearRelaysUpTo(s, sessionId, runId, n);
            && s.sent <= t.sent
            && (DeniedSince(t.sent, |s.sent|, r) <==> r < n && ToDeny(s, sessionId, runId, r))
  {
    if n > 0 {
      CleanupDenies(s, sessionId, runId, n - 1, r);
      DeniedMore(ClearRelaysUpTo(s, sessionId, runId, n - 1).sent, |s.sent|, r, Sent(n - 1, Deny));
    }
  }

  /** Main theorem. When a prompt ends, a denial goes out for exactly its live relays. */
  lemma EndingDenies(s: State, sessionId: string, runId: string, r: nat)
    requires r < |s.relays|
    ensures var t := Step(s, PromptEnds(sessionId, runId));
            s.sent <= t.sent && (DeniedSince(t.sent, |s.sent|, r) <==> ToDeny(s, sessionId, runId, r))
  {
    CleanupDenies(s, sessionId, runId, |s.relays|, r);
  }
}
