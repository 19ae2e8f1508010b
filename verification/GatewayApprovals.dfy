/** Exec approval relays: what may be sent to the gateway, and when. */
module GatewayApprovals {
  import opened Options
  import opened OrderedMaps
  import opened GatewayAgent

  predicate NonDeny(x: Sent) { x.decision != Deny }

  predicate Denied(s: State, r: nat) { exists k :: 0 <= k < |s.sent| && s.sent[k] == Sent(r, Deny) }

  /** The approval map points at relay objects of the same id: one live relay per approval. */
  ghost predicate MapSound(s: State) {
    forall id :: Lookup(s.relayMap, id).Some? ==>
      0 <= Lookup(s.relayMap, id).value < |s.relays| && s.relays[Lookup(s.relayMap, id).value].approvalId == id
  }

  predicate InMap(s: State, r: nat)
    requires r < |s.relays|
  {
    Lookup(s.relayMap, s.relays[r].approvalId) == Some(r)
  }

  /** A relay that has not sent its own decision has sent no allow; if it was denied by a cleanup
      in the meantime, it has left the map, so it can only deny from now on. */
  predicate BeforeDecision(s: State, r: nat)
    requires r < |s.relays|
  {
    (s.relays[r].phase.Hydrating? || s.relays[r].phase.Asking?) ==>
      && s.relays[r].state == Active
      && (forall k :: 0 <= k < |s.sent| && s.sent[k].relay == r ==> !NonDeny(s.sent[k]))
      && (Denied(s, r) ==> !InMap(s, r))
  }

  /** At most one allow per relay object, and none after a deny for it. */
  predicate OneDecision(sent: seq<Sent>) {
    forall j, k :: 0 <= j < k < |sent| && sent[j].relay == sent[k].relay ==> !NonDeny(sent[k])
  }

  ghost predicate Inv(s: State) {
    && Keyed(s.relayMap) && MapSound(s)
    && (forall k :: 0 <= k < |s.sent| ==> s.sent[k].relay < |s.relays|)
    && (forall r :: 0 <= r < |s.relays| ==> BeforeDecision(s, r))
    && OneDecision(s.sent)
  }

  // ---------------------------------------------------------------- steps

  lemma DropKeeps(s: State, r: nat, t: State)
    requires Inv(s) && r < |s.relays|
    requires t == s.(relayMap := Delete(s.relayMap, s.relays[r].approvalId),
                     sent := if s.relays[r].state == Active then s.sent + [Sent(r, Deny)] else s.sent)
    ensures Inv(t)
  {
    DeleteKeyed(s.relayMap, s.relays[r].approvalId);
    forall q | 0 <= q < |t.relays| ensures BeforeDecision(t, q) {
      assert BeforeDecision(s, q);
      if Denied(t, q) && q != r {
        var k :| 0 <= k < |t.sent| && t.sent[k] == Sent(q, Deny);
        assert s.sent[k] == Sent(q, Deny);
      }
    }
  }

  lemma {:induction false} ClearKeeps(s: State, sessionId: string, runId: string, n: nat)
    requires Inv(s) && n <= |s.relays|
    ensures Inv(ClearRelaysUpTo(s, sessionId, runId, n))
  {
    if n > 0 {
      ClearKeeps(s, sessionId, runId, n - 1);
      var before, t := ClearRelaysUpTo(s, sessionId, runId, n - 1), ClearRelaysUpTo(s, sessionId, runId, n);
      if t != before { DropKeeps(before, n - 1, t); }
    }
  }

  /** A cleanup only denies, only shrinks the map, and leaves none of the prompt's relays in it. */
  lemma {:induction false} ClearFacts(s: State, sessionId: string, runId: string, n: nat)
    requires n <= |s.relays|
    ensures var t := ClearRelaysUpTo(s, sessionId, runId, n);
            && (forall id :: Lookup(t.relayMap, id).Some? ==> Lookup(t.relayMap, id) == Lookup(s.relayMap, id))
            && (forall r :: 0 <= r < n && InMap(t, r) ==>
                  s.relays[r].sessionId != sessionId || s.relays[r].runId != runId)
            && s.sent <= t.sent
            && (forall k :: |s.sent| <= k < |t.sent| ==> t.sent[k].decision == Deny)
  {
    if n > 0 {
      ClearFacts(s, sessionId, runId, n - 1);
    }
  }

  lemma RemoveKeeps(s: State, sessionId: string, runId: string)
    requires Inv(s)
    ensures Inv(RemovePrompt(s, sessionId, runId))
  {
    ClearKeeps(s, sessionId, runId, |s.relays|);
    SameRelays(ClearRelaysUpTo(s, sessionId, runId, |s.relays|), RemovePrompt(s, sessionId, runId));
  }

  /** Prompts, outages and reconciliation touch none of this state by themselves. */
  lemma SameRelays(s: State, t: State)
    requires Inv(s) && t.relayMap == s.relayMap && t.relays == s.relays && t.sent == s.sent
    ensures Inv(t)
  {
    forall r | 0 <= r < |t.relays| ensures BeforeDecision(t, r) {
      assert BeforeDecision(s, r);
    }
  }

  lemma SendKeeps(s: State, r: nat, d: Decision)
    requires Inv(s) && r < |s.relays|
    requires s.relays[r].phase.Hydrating? || s.relays[r].phase.Asking?
    requires d != Deny ==> RelayActive(s, r)
    ensures Inv(SendDecision(s, r, d))
  {
    var t := SendDecision(s, r, d);
    assert BeforeDecision(s, r);
    forall q | 0 <= q < |t.relays| ensures BeforeDecision(t, q) {
      assert BeforeDecision(s, q);
      if Denied(t, q) && q != r {
        var k :| 0 <= k < |t.sent| && t.sent[k] == Sent(q, Deny);
        assert s.sent[k] == Sent(q, Deny);
      }
    }
    forall j, k | 0 <= j < k < |t.sent| && t.sent[j].relay == t.sent[k].relay ensures !NonDeny(t.sent[k]) {
      if k == |s.sent| && t.sent[j].relay == r {
        assert s.sent[j] == t.sent[j];
        if s.sent[j].decision == Deny { assert s.sent[j] == Sent(r, Deny); }
      }
    }
  }

  lemma StartRelayKeeps(s: State, approvalId: string, sessionKey: string, runId: string)
    requires Inv(s)
    ensures Inv(StartRelay(s, approvalId, sessionKey, runId))
  {
    var (s1, target) := FindTarget(s, sessionKey, runId);
    SameRelays(s, s1);
    var t := StartRelay(s, approvalId, sessionKey, runId);
    if Lookup(s.relayMap, approvalId).None? && target.Some? {
      PutKeyed(s1.relayMap, approvalId, |s1.relays|);
      forall q | 0 <= q < |t.relays| ensures BeforeDecision(t, q) {
        assert t.sent == s.sent;
        if q < |s.relays| {
          assert BeforeDecision(s, q) && t.relays[q] == s.relays[q];
          if Denied(t, q) { assert Denied(s, q); }
        }
      }
    }
  }

  lemma PhaseKeeps(s: State, r: nat, relay: Relay)
    requires Inv(s) && r < |s.relays| && relay.approvalId == s.relays[r].approvalId
    requires relay.phase.Finished? || (relay.phase.Asking? && s.relays[r].phase.Hydrating?
                                       && relay.state == s.relays[r].state)
    ensures Inv(s.(relays := s.relays[r := relay]))
    ensures Inv(s.(relays := s.relays[r := relay], relayMap := Delete(s.relayMap, relay.approvalId)))
  {
    var t := s.(relays := s.relays[r := relay]);
    var u := t.(relayMap := Delete(s.relayMap, relay.approvalId));
    DeleteKeyed(s.relayMap, relay.approvalId);
    forall q | 0 <= q < |t.relays| ensures BeforeDecision(t, q) && BeforeDecision(u, q) {
      assert BeforeDecision(s, q);
      assert Denied(t, q) == Denied(s, q) == Denied(u, q);
    }
  }

  lemma WaitReturnsKeeps(s: State, i: nat, reply: WaitReply)
    requires Inv(s)
    ensures Inv(WaitReturns(s, i, reply))
  {
    if i < |s.tasks| && s.tasks[i].phase.Waiting? {
      var t := s.tasks[i];
      RemoveKeeps(s, t.phase.sessionId, t.phase.runId);
      DeadlineKeeps(s, t.phase.sessionId, t.phase.runId, t.phase.context, t.generation);
      SameRelays(Verdict(s, t, reply).0, WaitReturns(s, i, reply));
    }
  }

  lemma DeadlineKeeps(s: State, sessionId: string, runId: string, c: Context, deadline: nat)
    requires Inv(s)
    ensures Inv(AtDeadline(s, sessionId, runId, c, deadline))
  {
    var after := AtDeadline(s, sessionId, runId, c, deadline);
    if IsPending(s, sessionId, runId) {
      var p := Lookup(s.prompts, sessionId).value;
      RemoveKeeps(s, p.sessionId, p.runId);
      SameRelays(RemovePrompt(s, p.sessionId, p.runId), RejectPrompt(s, p, deadline));
      SameRelays(s, s.(prompts := Put(s.prompts, sessionId, p.(stamp := None))));
    }
  }

  lemma DetailsKeep(s: State, r: nat, allowed: Option<seq<string>>)
    requires Inv(s)
    ensures Inv(Step(s, DetailsArrive(r, allowed)))
  {
    if r < |s.relays| && s.relays[r].phase == Hydrating {
      if RelayActive(s, r) {
        PhaseKeeps(s, r, s.relays[r].(phase := Asking(PermissionOptions(allowed))));
      } else {
        SendKeeps(s, r, Deny);
      }
    }
  }

  lemma AnswerKeeps(s: State, r: nat, selected: Option<string>)
    requires Inv(s)
    ensures Inv(Step(s, ClientAnswers(r, selected)))
  {
    if r < |s.relays| && s.relays[r].phase.Asking? {
      SendKeeps(s, r, Step(s, ClientAnswers(r, selected)).sent[|s.sent|].decision);
    }
  }

  lemma ResolvedKeeps(s: State, r: nat, accepted: bool)
    requires Inv(s)
    ensures Inv(Step(s, ResolveDone(r, accepted)))
  {
    if r < |s.relays| && s.relays[r].phase == Resolving {
      PhaseKeeps(s, r, s.relays[r].(phase := Finished));
      PhaseKeeps(s, r, s.relays[r].(phase := Finished, state := Completed));
    }
  }

  lemma StepKeeps(s: State, e: Event)
    requires Inv(s)
    ensures Inv(Step(s, e))
  {
    match e
    case GatewayDisconnect(reason) => SameRelays(s, Step(s, e));
    case GatewayReconnect => SameRelays(s, Step(s, e));
    case PromptStarts(id, key, run) => SameRelays(s, Step(s, e));
    case SendAccepted(id, run) => SameRelays(s, Step(s, e));
    case SendFailed(id, run, closed) => RemoveKeeps(s, id, run);
    case PromptEnds(id, run) => RemoveKeeps(s, id, run);
    case GraceTimer => SameRelays(s, Step(s, e));
    case WaitDone(i, reply) => WaitReturnsKeeps(s, i, reply);
    case TaskResumes(i) => SameRelays(s, Step(s, e));
    case ApprovalRequested(approval, key, run) => StartRelayKeeps(s, approval, key, run);
    case DetailsArrive(r, allowed) => DetailsKeep(s, r, allowed);
    case ClientAnswers(r, selected) => AnswerKeeps(s, r, selected);
    case ResolveDone(r, accepted) => ResolvedKeeps(s, r, accepted);
  }

  /** In every run each relay object sends at most one allow, and never one after a deny for it. */
  lemma {:induction false} RelaySafety(events: seq<Event>)
    ensures Inv(Run(events))
  {
    if events != [] {
      RelaySafety(events[..|events| - 1]);
      StepKeeps(Run(events[..|events| - 1]), events[|events| - 1]);
    }
  }

  // ---------------------------------------------------------------- the moment of an allow

  lemma RemoveSendsDenies(s: State, sessionId: string, runId: string)
    ensures var t := RemovePrompt(s, sessionId, runId);
            s.sent <= t.sent && forall k :: |s.sent| <= k < |t.sent| ==> t.sent[k].decision == Deny
  {
    ClearFacts(s, sessionId, runId, |s.relays|);
  }

  lemma OnlyAnswersAllow(s: State, e: Event)
    requires !e.ClientAnswers?
    ensures s.sent <= Step(s, e).sent
    ensures forall k :: |s.sent| <= k < |Step(s, e).sent| ==> Step(s, e).sent[k].decision == Deny
  {
    match e
    case SendFailed(id, run, closed) => RemoveSendsDenies(s, id, run);
    case PromptEnds(id, run) => RemoveSendsDenies(s, id, run);
    case WaitDone(i, reply) => WaitSendsDenies(s, i, reply);
    case _ =>
  }

  lemma WaitSendsDenies(s: State, i: nat, reply: WaitReply)
    ensures var t := Step(s, WaitDone(i, reply));
            s.sent <= t.sent && forall k :: |s.sent| <= k < |t.sent| ==> t.sent[k].decision == Deny
  {
    if i < |s.tasks| && s.tasks[i].phase.Waiting? {
      var w := s.tasks[i].phase;
      RemoveSendsDenies(s, w.sessionId, w.runId);
      if IsPending(s, w.sessionId, w.runId) {
        var p := Lookup(s.prompts, w.sessionId).value;
        RemoveSendsDenies(s, p.sessionId, p.runId);
      }
    }
  }

  /** Whatever step sends an allow, from whatever state, at that moment the relay is the approval's
      live relay, its own prompt (same session and run) is pending, and the decision is one the
      client was offered and picked. */
  lemma AllowsAreWarranted(s: State, e: Event, k: nat)
    requires |s.sent| <= k < |Step(s, e).sent| && NonDeny(Step(s, e).sent[k])
    ensures var x := Step(s, e).sent[k];
            && x.relay < |s.relays|
            && RelayActive(s, x.relay)
            && s.relays[x.relay].phase.Asking?
            && x.decision in s.relays[x.relay].phase.options
            && e.ClientAnswers? && e.selected == Some(DecisionId(x.decision))
  {
    if !e.ClientAnswers? {
      OnlyAnswersAllow(s, e);
    } else {
      FindOptionId(s.relays[e.relay].phase.options, e.selected.GetOr(""));
    }
  }

  lemma {:induction false} FindOptionId(options: seq<Decision>, optionId: string)
    ensures FindOption(options, optionId).Some? ==> DecisionId(FindOption(options, optionId).value) == optionId
  {
    if options != [] { FindOptionId(options[1..], optionId); }
  }

  /** Ending a prompt, however it ends, leaves none of its relays in the map. */
  lemma PromptCleanup(s: State, sessionId: string, runId: string, r: nat)
    requires r < |s.relays| && InMap(RemovePrompt(s, sessionId, runId), r)
    ensures s.relays[r].sessionId != sessionId || s.relays[r].runId != runId
  {
    ClearFacts(s, sessionId, runId, |s.relays|);
    assert InMap(ClearRelaysUpTo(s, sessionId, runId, |s.relays|), r);
  }
}
