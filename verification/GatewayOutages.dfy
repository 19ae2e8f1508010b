/** The disconnect protocol: what every interleaving keeps. */
module GatewayOutages {
  import opened Options
  import opened OrderedMaps
  import opened GatewayAgent

  /** (a) While an outage is active, every pending prompt is stamped with it. */
  ghost predicate Stamped(s: State) {
    s.outage.Some? ==> forall k :: Lookup(s.prompts, k).Some? ==> Lookup(s.prompts, k).value.stamp == s.outage
  }

  /** (b) An armed grace timer means prompts are pending, and it carries the newest generation. */
  ghost predicate TimerMeansPending(s: State) {
    s.timer.Some? ==> s.prompts != [] && s.timer == Some(s.generation)
  }

  /** (c) and (d): a prompt is rejected as disconnected only when the expired deadline is that of its
      current stamp and, once its send was accepted, only while that same outage is still active. */
  predicate Justified(r: Rejection) {
    && r.stamp.Some?
    && r.deadline == r.stamp.value.generation
    && (r.accepted ==> r.outage == r.stamp)
  }

  /** Supporting facts: contexts come from disconnects, tasks watch the outage they were started for,
      keys match their prompts, and run ids are never shared or reused. */
  ghost predicate WellFormed(s: State) {
    && (s.outage.Some? ==> s.outage.value.generation == s.generation)
    && (forall i :: 0 <= i < |s.tasks| && s.tasks[i].phase.Waiting? ==>
          s.tasks[i].phase.context.generation == s.tasks[i].generation)
    && (forall k :: Lookup(s.prompts, k).Some? ==>
          Lookup(s.prompts, k).value.sessionId == k && Lookup(s.prompts, k).value.runId in s.usedRuns)
    && (forall j, k :: j != k && Lookup(s.prompts, j).Some? && Lookup(s.prompts, k).Some? ==>
          Lookup(s.prompts, j).value.runId != Lookup(s.prompts, k).value.runId)
  }

  /** A rejected run was issued once and is not pending any more, so it is rejected only once. */
  ghost predicate RejectedOnce(s: State) {
    && (forall i :: 0 <= i < |s.rejected| ==>
          Justified(s.rejected[i]) && s.rejected[i].runId in s.usedRuns
          && forall k :: Lookup(s.prompts, k).Some? ==> Lookup(s.prompts, k).value.runId != s.rejected[i].runId)
    && (forall i, j :: 0 <= i < j < |s.rejected| ==> s.rejected[i].runId != s.rejected[j].runId)
  }

  ghost predicate Inv(s: State) {
    && Stamped(s)
    && TimerMeansPending(s)
    && WellFormed(s)
    && RejectedOnce(s)
  }

  // ---------------------------------------------------------------- steps

  lemma RemoveKeeps(s: State, sessionId: string, runId: string)
    requires Inv(s)
    ensures Inv(RemovePrompt(s, sessionId, runId))
  {
    var t := RemovePrompt(s, sessionId, runId);
    assert forall k :: Lookup(t.prompts, k).Some? ==> Lookup(t.prompts, k) == Lookup(s.prompts, k);
  }

  lemma RejectKeeps(s: State, p: Prompt, c: Context, deadline: nat)
    requires Inv(s) && Lookup(s.prompts, p.sessionId) == Some(p)
    requires ShouldReject(s, p, c) && deadline == c.generation
    ensures Inv(RejectPrompt(s, p, deadline))
  {
    RemoveKeeps(s, p.sessionId, p.runId);
    var r := Rejection(p.runId, p.stamp, deadline, p.sendAccepted, s.outage);
    assert Justified(r);
    var t := RejectPrompt(s, p, deadline);
    assert forall k :: Lookup(t.prompts, k).Some? ==> Lookup(t.prompts, k) == Lookup(s.prompts, k);
  }

  lemma DeadlineKeeps(s: State, sessionId: string, runId: string, c: Context, deadline: nat)
    requires Inv(s) && deadline == c.generation
    ensures Inv(AtDeadline(s, sessionId, runId, c, deadline))
  {
    if IsPending(s, sessionId, runId) {
      var p := Lookup(s.prompts, sessionId).value;
      if ShouldReject(s, p, c) {
        RejectKeeps(s, p, c, deadline);
      } else if p.stamp == Some(c) {
        // The outage that stamped the prompt is over, so no outage is active at all.
        assert s.outage.None?;
        assert Put(s.prompts, sessionId, p.(stamp := None)) != [];
      }
    }
  }

  lemma ResumeKeeps(s: State, i: nat, t: Task)
    requires Inv(s) && i < |s.tasks|
    ensures Inv(Resume(s, i, t))
  {
  }

  lemma StartReconcileKeeps(s: State, generation: nat, expired: bool)
    requires Inv(s)
    ensures Inv(StartReconcile(s, generation, expired))
  {
  }

  lemma WaitReturnsKeeps(s: State, i: nat, reply: WaitReply)
    requires Inv(s)
    ensures Inv(WaitReturns(s, i, reply))
  {
    if i < |s.tasks| && s.tasks[i].phase.Waiting? {
      var t := s.tasks[i];
      var w := t.phase;
      RemoveKeeps(s, w.sessionId, w.runId);
      DeadlineKeeps(s, w.sessionId, w.runId, w.context, t.generation);
      TaskReturns(Verdict(s, t, reply).0, i, WaitReturns(s, i, reply));
    }
  }

  /** A task that stops waiting changes none of this. */
  lemma TaskReturns(s: State, i: nat, after: State)
    requires Inv(s) && i < |s.tasks| == |after.tasks|
    requires after == s.(tasks := after.tasks) && !after.tasks[i].phase.Waiting?
    requires forall j :: 0 <= j < |s.tasks| && j != i ==> after.tasks[j] == s.tasks[j]
    ensures Inv(after)
  {
  }

  /** Replacing a prompt by one of the same run and stamp changes nothing here. */
  lemma ReplaceKeeps(s: State, k: string, p: Prompt)
    requires Inv(s) && Lookup(s.prompts, k).Some?
    requires var q := Lookup(s.prompts, k).value;
             p.sessionId == q.sessionId && p.runId == q.runId && p.stamp == q.stamp
    ensures Inv(s.(prompts := Put(s.prompts, k, p)))
  {
    assert Put(s.prompts, k, p) != [];
  }

  /** Approval relays touch none of this state. */
  lemma RelayFrame(s: State, t: State)
    requires Inv(s)
    requires t == s.(relayMap := t.relayMap, relays := t.relays, sent := t.sent)
    ensures Inv(t)
  {
  }

  lemma FindTargetKeeps(s: State, sessionKey: string, runId: string)
    requires Inv(s) && Keyed(s.prompts)
    ensures Inv(FindTarget(s, sessionKey, runId).0)
  {
    var j := FindByRun(s.prompts, runId);
    if j < |s.prompts| {
      LookupAt(s.prompts, j);
      ReplaceKeeps(s, s.prompts[j].0, s.prompts[j].1.(sessionKey := sessionKey));
    }
  }

  lemma StartPromptKeeps(s: State, id: string, key: string, run: string)
    requires Inv(s)
    ensures Inv(StartPrompt(s, id, key, run))
  {
    var p := Prompt(id, key, run, false, s.outage);
    var prompts := Put(s.prompts, id, p);
    assert prompts != [];
    assert forall k :: k != id ==> Lookup(prompts, k) == Lookup(s.prompts, k);
  }

  lemma DisconnectKeeps(s: State, reason: string)
    requires Inv(s)
    ensures Inv(Disconnect(s, reason))
  {
    var t := Disconnect(s, reason);
    if s.prompts == [] { EmptyIff(s.prompts); }
    assert forall k :: Lookup(t.prompts, k).Some? ==>
             Lookup(s.prompts, k).Some? && Lookup(t.prompts, k).value
               == Lookup(s.prompts, k).value.(stamp := Lookup(t.prompts, k).value.stamp);
  }

  predicate RelayEvent(e: Event) {
    e.ApprovalRequested? || e.DetailsArrive? || e.ClientAnswers? || e.ResolveDone?
  }

  lemma RelayStepKeeps(s: State, e: Event)
    requires Inv(s) && Keyed(s.prompts) && RelayEvent(e)
    ensures Inv(Step(s, e))
  {
    if e.ApprovalRequested? {
      FindTargetKeeps(s, e.sessionKey, e.runId);
      if Lookup(s.relayMap, e.approvalId).None? {
        RelayFrame(FindTarget(s, e.sessionKey, e.runId).0, Step(s, e));
      }
    } else {
      RelayFrame(s, Step(s, e));
    }
  }

  lemma StepKeeps(s: State, e: Event)
    requires Inv(s) && Keyed(s.prompts)
    ensures Inv(Step(s, e))
  {
    match e
    case GatewayDisconnect(reason) => DisconnectKeeps(s, reason);
    case GatewayReconnect =>
      if s.outage.Some? { StartReconcileKeeps(s.(outage := None), s.outage.value.generation, false); }
    case PromptStarts(id, key, run) => StartPromptKeeps(s, id, key, run);
    case SendAccepted(id, run) =>
      if IsPending(s, id, run) { ReplaceKeeps(s, id, Lookup(s.prompts, id).value.(sendAccepted := true)); }
    case SendFailed(id, run, closed) => RemoveKeeps(s, id, run);
    case PromptEnds(id, run) => RemoveKeeps(s, id, run);
    case GraceTimer =>
      if s.timer.Some? { StartReconcileKeeps(s.(timer := None), s.timer.value, true); }
    case WaitDone(i, reply) => WaitReturnsKeeps(s, i, reply);
    case TaskResumes(i) => if i < |s.tasks| { ResumeKeeps(s, i, s.tasks[i]); }
    case _ => RelayStepKeeps(s, e);
  }

  lemma {:induction false} StampAllKeyed(prompts: OrderedMap<Prompt>, c: Context)
    requires Keyed(prompts)
    ensures Keyed(StampAll(prompts, c))
  {
    if prompts != [] {
      TailKeyed(prompts);
      StampAllKeyed(prompts[1..], c);
      ConsKeyed(prompts[0].0, prompts[0].1.(stamp := Some(c)), StampAll(prompts[1..], c));
    }
  }

  lemma WaitKeyed(s: State, i: nat, reply: WaitReply)
    requires Keyed(s.prompts)
    ensures Keyed(Step(s, WaitDone(i, reply)).prompts)
  {
    if i < |s.tasks| && s.tasks[i].phase.Waiting? {
      var w := s.tasks[i].phase;
      DeleteKeyed(s.prompts, w.sessionId);
      if IsPending(s, w.sessionId, w.runId) {
        var p := Lookup(s.prompts, w.sessionId).value;
        DeleteKeyed(s.prompts, p.sessionId);
        PutKeyed(s.prompts, w.sessionId, p.(stamp := None));
      }
    }
  }

  lemma StepKeyed(s: State, e: Event)
    requires Keyed(s.prompts)
    ensures Keyed(Step(s, e).prompts)
  {
    match e
    case GatewayDisconnect(reason) => StampAllKeyed(s.prompts, Context(s.generation + 1, reason));
    case GatewayReconnect =>
    case PromptStarts(id, key, run) => PutKeyed(s.prompts, id, Prompt(id, key, run, false, s.outage));
    case SendAccepted(id, run) =>
      if IsPending(s, id, run) { PutKeyed(s.prompts, id, Lookup(s.prompts, id).value.(sendAccepted := true)); }
    case SendFailed(id, run, closed) => DeleteKeyed(s.prompts, id);
    case PromptEnds(id, run) => DeleteKeyed(s.prompts, id);
    case GraceTimer =>
    case WaitDone(i, reply) => WaitKeyed(s, i, reply);
    case TaskResumes(i) =>
    case ApprovalRequested(approval, key, run) =>
      var j := FindByRun(s.prompts, run);
      if j < |s.prompts| { PutKeyed(s.prompts, s.prompts[j].0, s.prompts[j].1.(sessionKey := key)); }
    case DetailsArrive(r, allowed) =>
    case ClientAnswers(r, selected) =>
    case ResolveDone(r, accepted) =>
  }

  /** Main theorem: all of it, after any interleaving of gateway, client and timer events. */
  lemma {:induction false} OutageSafety(events: seq<Event>)
    ensures Inv(Run(events)) && Keyed(Run(events).prompts)
  {
    if events != [] {
      var before := events[..|events| - 1];
      OutageSafety(before);
      StepKeeps(Run(before), events[|events| - 1]);
      StepKeyed(Run(before), events[|events| - 1]);
    }
  }

  /** What that means for one rejection, in the source's terms. */
  lemma RejectionsAreJustified(events: seq<Event>, i: nat)
    requires i < |Run(events).rejected|
    ensures Justified(Run(events).rejected[i])
    ensures forall j :: 0 <= j < |Run(events).rejected| && j != i ==>
              Run(events).rejected[j].runId != Run(events).rejected[i].runId
  {
    OutageSafety(events);
  }
}
