/** The gateway agent object. Coroutines suspended at an `await` are records in `tasks` and `relays`;
    every method below runs from one `await` to the next. A valid agent is in the state its history
    of events leads to, so the theorems about runs hold of it. */
module GatewayAgentObject {
  import opened Options
  import opened OrderedMaps
  import opened GatewayAgent
  import GatewayOutages
  import GatewayApprovals

  class AcpGatewayAgent {
    var pendingPrompts: OrderedMap<Prompt>
    var disconnectGeneration: nat
    var activeDisconnectContext: Option<Context>
    var disconnectTimer: Option<nat>
    var tasks: seq<Task>
    var approvalRelays: OrderedMap<int>
    var relays: seq<Relay>
    ghost var usedRuns: set<string>
    ghost var sent: seq<Sent>
    ghost var rejected: seq<Rejection>
    ghost var history: seq<Event>

    ghost predicate Valid()
      reads this
    {
      View() == Run(history)
    }

    ghost function View(): State
      reads this
    {
      State(pendingPrompts, usedRuns, disconnectGeneration, activeDisconnectContext, disconnectTimer,
            tasks, approvalRelays, relays, sent, rejected)
    }

    constructor ()
      ensures Valid() && history == []
    {
      pendingPrompts, usedRuns, disconnectGeneration := [], {}, 0;
      activeDisconnectContext, disconnectTimer, tasks := None, None, [];
      approvalRelays, relays, sent, rejected, history := [], [], [], [], [];
    }

    /** `e` led from `before`, where the history leads, to the present state. */
    ghost method Record(before: State, e: Event)
      requires View() == Step(before, e)
      requires before == Run(history)
      modifies this`history
      ensures Valid() && history == old(history) + [e]
    {
      assert (history + [e])[..|history|] == history;
      history := history + [e];
    }

    // -------------------------------------------------------------- what a valid agent guarantees

    /** A relay that sent an allow has sent nothing before it, and sends only denials after it. */
    lemma OneAllowPerRelay(j: nat, k: nat)
      requires Valid() && j < k < |sent| && sent[j].relay == sent[k].relay
      ensures sent[k].decision == Deny
    {
      GatewayApprovals.RelaySafety(history);
    }

    /** A prompt was rejected as disconnected for the deadline of its stamp, once, and only within that
        outage if its send was accepted; pending prompts carry the active outage. */
    lemma RejectionsAreWarranted(i: nat)
      requires Valid() && i < |rejected|
      ensures rejected[i].stamp.Some? && rejected[i].deadline == rejected[i].stamp.value.generation
      ensures rejected[i].accepted ==> rejected[i].outage == rejected[i].stamp
      ensures forall k :: 0 <= k < |rejected| && k != i ==> rejected[k].runId != rejected[i].runId
    {
      GatewayOutages.RejectionsAreJustified(history, i);
    }

    lemma TimerIsCurrent()
      requires Valid()
      ensures disconnectTimer.Some? ==> pendingPrompts != [] && disconnectTimer == Some(disconnectGeneration)
      ensures activeDisconnectContext.Some? ==>
                forall k :: Lookup(pendingPrompts, k).Some? ==>
                  Lookup(pendingPrompts, k).value.stamp == activeDisconnectContext
    {
      GatewayOutages.OutageSafety(history);
    }

    // -------------------------------------------------------------- prompts and outages

    method ClearDisconnectTimerWhenIdle()
      modifies this`disconnectTimer
      ensures disconnectTimer == if pendingPrompts == [] then None else old(disconnectTimer)
    {
      if |pendingPrompts| == 0 {
        disconnectTimer := None;
      }
    }

    method ClearApprovalRelaysForPrompt(sessionId: string, runId: string)
      modifies this`approvalRelays, this`sent
      ensures View() == ClearRelaysUpTo(old(View()), sessionId, runId, |relays|)
    {
      ghost var before := View();
      var wasIn := approvalRelays;
      for n := 0 to |relays|
        invariant View() == ClearRelaysUpTo(before, sessionId, runId, n)
      {
        var relay := relays[n];
        if Lookup(wasIn, relay.approvalId) == Some(n) && relay.sessionId == sessionId && relay.runId == runId {
          approvalRelays := Delete(approvalRelays, relay.approvalId);
          if relay.state == Active {
            sent := sent + [Sent(n, Deny)];
          }
        }
      }
    }

    /** `finishPrompt` up to its `await`, and the end of `cancelSessionWork`. */
    method EndPrompt(sessionId: string, runId: string)
      requires Valid()
      modifies this
      ensures Valid() && history == old(history) + [PromptEnds(sessionId, runId)]
      ensures forall r :: 0 <= r < |relays| && GatewayApprovals.InMap(View(), r) ==>
                relays[r].sessionId != sessionId || relays[r].runId != runId
    {
      ghost var before := View();
      RemoveFromPending(sessionId, runId);
      forall r | 0 <= r < |relays| && GatewayApprovals.InMap(View(), r)
        ensures relays[r].sessionId != sessionId || relays[r].runId != runId
      {
        GatewayApprovals.PromptCleanup(old(View()), sessionId, runId, r);
      }
      Record(before, PromptEnds(sessionId, runId));
    }

    /** What every way of ending a prompt does: clear its relays, delete by session id. */
    method RemoveFromPending(sessionId: string, runId: string)
      modifies this`approvalRelays, this`sent, this`pendingPrompts, this`disconnectTimer
      ensures View() == RemovePrompt(old(View()), sessionId, runId)
    {
      ClearApprovalRelaysForPrompt(sessionId, runId);
      pendingPrompts := Delete(pendingPrompts, sessionId);
      ClearDisconnectTimerWhenIdle();
    }

    method HandleGatewayDisconnect(reason: string)
      requires Valid()
      modifies this
      ensures Valid() && history == old(history) + [GatewayDisconnect(reason)]
    {
      ghost var before := View();
      StartOutage(reason);
      Record(before, GatewayDisconnect(reason));
    }

    /** A new generation stamps the pending prompts and arms the timer if there are any. */
    method StartOutage(reason: string)
      modifies this`disconnectGeneration, this`activeDisconnectContext, this`pendingPrompts, this`disconnectTimer
      ensures View() == Step(old(View()), GatewayDisconnect(reason))
    {
      var context := Context(disconnectGeneration + 1, reason);
      disconnectGeneration := context.generation;
      activeDisconnectContext := Some(context);
      if |pendingPrompts| > 0 {
        pendingPrompts := StampAll(pendingPrompts, context);
        disconnectTimer := Some(context.generation);
      }
    }

    method HandleGatewayReconnect()
      requires Valid()
      modifies this
      ensures Valid() && history == old(history) + [GatewayReconnect]
    {
      ghost var before := View();
      var context := activeDisconnectContext;
      activeDisconnectContext := None;
      if context.Some? {
        ReconcilePendingPrompts(context.value.generation, false);
      }
      Record(before, GatewayReconnect);
    }

    method OnGraceTimer()
      requires Valid()
      modifies this
      ensures Valid() && history == old(history) + [GraceTimer]
    {
      ghost var before := View();
      if disconnectTimer.Some? {
        var generation := disconnectTimer.value;
        disconnectTimer := None;
        ReconcilePendingPrompts(generation, true);
      }
      Record(before, GraceTimer);
    }

    method StartNewPrompt(sessionId: string, sessionKey: string, runId: string)
      requires runId !in usedRuns // run ids are fresh UUIDs
      requires Valid()
      modifies this
      ensures Valid() && history == old(history) + [PromptStarts(sessionId, sessionKey, runId)]
    {
      ghost var before := View();
      usedRuns := usedRuns + {runId};
      pendingPrompts := Put(pendingPrompts, sessionId,
                            Prompt(sessionId, sessionKey, runId, false, activeDisconnectContext));
      if activeDisconnectContext.Some? && disconnectTimer.None? {
        disconnectTimer := Some(activeDisconnectContext.value.generation);
      }
      Record(before, PromptStarts(sessionId, sessionKey, runId));
    }

    method OnSendAccepted(sessionId: string, runId: string)
      requires Valid()
      modifies this
      ensures Valid() && history == old(history) + [SendAccepted(sessionId, runId)]
    {
      ghost var before := View();
      var pending := Lookup(pendingPrompts, sessionId);
      if pending.Some? && pending.value.runId == runId {
        pendingPrompts := Put(pendingPrompts, sessionId, pending.value.(sendAccepted := true));
      }
      Record(before, SendAccepted(sessionId, runId));
    }

    method OnSendFailed(sessionId: string, runId: string, gatewayClosed: bool)
      requires Valid()
      modifies this
      ensures Valid() && history == old(history) + [SendFailed(sessionId, runId, gatewayClosed)]
    {
      ghost var before := View();
      var pending := Lookup(pendingPrompts, sessionId);
      if !(gatewayClosed && pending.Some? && pending.value.runId == runId) {
        RemoveFromPending(sessionId, runId);
      }
      Record(before, SendFailed(sessionId, runId, gatewayClosed));
    }

    method ReconcilePendingPrompts(generation: nat, expired: bool)
      modifies this`tasks, this`disconnectTimer
      ensures View() == StartReconcile(old(View()), generation, expired)
    {
      if |pendingPrompts| == 0 {
        if disconnectGeneration == generation {
          disconnectTimer := None;
        }
        return;
      }
      var task := Continue(Task(generation, expired, Snapshot(pendingPrompts), false, Returning));
      tasks := tasks + [task];
    }

    /** The reconciliation loop from one `await` to the next. */
    method Continue(task: Task) returns (next: Task)
      modifies this`disconnectTimer
      ensures (View(), next) == Advance(old(View()), task)
    {
      next := task;
      while next.rest != []
        invariant View() == old(View()) && Advance(View(), next) == Advance(View(), task)
        decreases |next.rest|
      {
        var (sessionId, runId) := next.rest[0];
        next := next.(rest := next.rest[1..]);
        var pending := Lookup(pendingPrompts, sessionId);
        if pending.Some? && pending.value.runId == runId && pending.value.stamp.Some?
           && pending.value.stamp.value.generation == next.generation {
          next := next.(phase := Waiting(sessionId, runId, pending.value.stamp.value));
          return;
        }
      }
      if !next.keepTimer && disconnectGeneration == next.generation {
        disconnectTimer := None;
      }
      next := next.(phase := Done);
    }

    method ContinueAt(i: nat, task: Task)
      requires i < |tasks|
      modifies this`tasks, this`disconnectTimer
      ensures View() == Resume(old(View()), i, task)
    {
      var next := Continue(task);
      tasks := tasks[i := next];
    }

    method RejectPendingPrompt(pending: Prompt, ghost deadline: nat)
      modifies this`approvalRelays, this`sent, this`pendingPrompts, this`disconnectTimer, this`rejected
      ensures View() == RejectPrompt(old(View()), pending, deadline)
    {
      RemoveFromPending(pending.sessionId, pending.runId);
      rejected := rejected + [Rejection(pending.runId, pending.stamp, deadline, pending.sendAccepted,
                                        activeDisconnectContext)];
    }

    /** `reconcilePendingPrompt` from its `await` to its end. */
    method OnWaitReply(i: nat, reply: WaitReply)
      requires i < |tasks| && tasks[i].phase.Waiting?
      requires Valid()
      modifies this
      ensures Valid() && history == old(history) + [WaitDone(i, reply)]
    {
      ghost var before := View();
      var task := tasks[i];
      var keep := Judge(task, reply);
      tasks := tasks[i := task.(phase := Returning, keepTimer := task.keepTimer || keep)];
      Record(before, WaitDone(i, reply));
    }

    method Judge(task: Task, reply: WaitReply) returns (keep: bool)
      requires task.phase.Waiting?
      modifies this`approvalRelays, this`sent, this`pendingPrompts, this`disconnectTimer, this`rejected
      ensures (View(), keep) == Verdict(old(View()), task, reply)
    {
      keep := false;
      var Waiting(sessionId, runId, context) := task.phase;
      var current := Lookup(pendingPrompts, sessionId);
      var isCurrent := current.Some? && current.value.runId == runId;
      if reply == RunOk || reply == RunError {
        if isCurrent {
          RemoveFromPending(sessionId, runId);
        }
      } else if task.expired {
        if isCurrent {
          var pending := current.value;
          if pending.stamp == Some(context)
             && (!pending.sendAccepted
                 || (activeDisconnectContext.Some?
                     && activeDisconnectContext.value.generation == context.generation)) {
            RejectPendingPrompt(pending, task.generation);
          } else if pending.stamp == Some(context) {
            pendingPrompts := Put(pendingPrompts, sessionId, pending.(stamp := None));
          }
        }
      } else {
        keep := reply == WaitFailed || isCurrent;
      }
    }

    /** The loop of `reconcilePendingPrompts` goes on with the verdict. */
    method OnTaskResumes(i: nat)
      requires i < |tasks| && tasks[i].phase == Returning
      requires Valid()
      modifies this
      ensures Valid() && history == old(history) + [TaskResumes(i)]
    {
      ghost var before := View();
      ContinueAt(i, tasks[i]);
      Record(before, TaskResumes(i));
    }

    // -------------------------------------------------------------- approval relays

    method FindPending(sessionKey: string, runId: string) returns (target: Option<Prompt>)
      modifies this`pendingPrompts
      ensures (View(), target) == FindTarget(old(View()), sessionKey, runId)
    {
      if runId == "" {
        var found := WithKey(pendingPrompts, sessionKey);
        return if |found| == 1 then Some(found[0]) else None;
      }
      var i := FindByKey(pendingPrompts, sessionKey, runId);
      if i < |pendingPrompts| {
        return Some(pendingPrompts[i].1);
      }
      var j := FindByRun(pendingPrompts, runId);
      if j < |pendingPrompts| {
        var pending := pendingPrompts[j].1.(sessionKey := sessionKey);
        pendingPrompts := Put(pendingPrompts, pendingPrompts[j].0, pending);
        return Some(pending);
      }
      return None;
    }

    method StartApprovalRelay(approvalId: string, sessionKey: string, runId: string)
      requires Valid()
      modifies this
      ensures Valid() && history == old(history) + [ApprovalRequested(approvalId, sessionKey, runId)]
    {
      ghost var before := View();
      if Lookup(approvalRelays, approvalId).None? {
        var pending := FindPending(sessionKey, runId);
        if pending.Some? {
          var relay := Relay(approvalId, pending.value.runId, pending.value.sessionId, Active, Hydrating);
          approvalRelays := Put(approvalRelays, approvalId, |relays|);
          relays := relays + [relay];
        }
      }
      Record(before, ApprovalRequested(approvalId, sessionKey, runId));
    }

    method IsApprovalRelayActive(r: nat) returns (active: bool)
      requires r < |relays|
      ensures active == RelayActive(View(), r)
    {
      var relay := relays[r];
      var pending := Lookup(pendingPrompts, relay.sessionId);
      active := Lookup(approvalRelays, relay.approvalId) == Some(r) && relay.state == Active
                && pending.Some? && pending.value.runId == relay.runId;
    }

    method ResolveGatewayApproval(r: nat, decision: Decision)
      requires r < |relays|
      modifies this`sent, this`relays
      ensures View() == SendDecision(old(View()), r, decision)
    {
      sent := sent + [Sent(r, decision)];
      relays := relays[r := relays[r].(phase := Resolving)];
    }

    method OnApprovalDetails(r: nat, allowed: Option<seq<string>>)
      requires r < |relays| && relays[r].phase == Hydrating
      requires Valid()
      modifies this
      ensures Valid() && history == old(history) + [DetailsArrive(r, allowed)]
    {
      ghost var before := View();
      var active := IsApprovalRelayActive(r);
      if !active {
        ResolveGatewayApproval(r, Deny);
      } else {
        relays := relays[r := relays[r].(phase := Asking(PermissionOptions(allowed)))];
      }
      Record(before, DetailsArrive(r, allowed));
    }

    method OnPermissionResponse(r: nat, selected: Option<string>)
      requires r < |relays| && relays[r].phase.Asking?
      requires Valid()
      modifies this
      ensures Valid() && history == old(history) + [ClientAnswers(r, selected)]
    {
      ghost var before := View();
      var decision := None;
      if selected.Some? {
        decision := FindOption(relays[r].phase.options, selected.value);
      }
      var active := IsApprovalRelayActive(r);
      ResolveGatewayApproval(r, if active && decision.Some? then decision.value else Deny);
      Record(before, ClientAnswers(r, selected));
    }

    method OnApprovalResolved(r: nat, accepted: bool)
      requires r < |relays| && relays[r].phase == Resolving
      requires Valid()
      modifies this
      ensures Valid() && history == old(history) + [ResolveDone(r, accepted)]
    {
      ghost var before := View();
      relays := relays[r := relays[r].(phase := Finished)];
      var relay := relays[r];
      if Lookup(approvalRelays, relay.approvalId) == Some(r) && relay.state == Active {
        if accepted {
          relays := relays[r := relay.(state := Completed)];
        } else {
          approvalRelays := Delete(approvalRelays, relay.approvalId);
        }
      }
      Record(before, ResolveDone(r, accepted));
    }
  }
}
