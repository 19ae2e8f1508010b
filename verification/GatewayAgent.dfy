/** The ACP gateway agent's pending prompts (src/acp/translator.ts): gateway outages with their grace
    timer, and the relays that carry exec approvals to the client. Each `await` ends one step. */
module GatewayAgent {
  import opened Options
  import opened OrderedMaps

  /** One outage. `===` on contexts compares the object made by one disconnect; generations are
      never reused, so equality of values is the same. */
  datatype Context = Context(generation: nat, reason: string)

  /** A pending prompt. Its run id is a fresh UUID and stands for the object's identity. */
  datatype Prompt = Prompt(
    sessionId: string, sessionKey: string, runId: string, sendAccepted: bool, stamp: Option<Context>)

  datatype Decision = AllowOnce | AllowAlways | Deny

  datatype RelayState = Active | Completed

  /** Where the coroutine `runApprovalRelay` is suspended. */
  datatype RelayPhase = Hydrating | Asking(options: seq<Decision>) | Resolving | Finished

  datatype Relay = Relay(
    approvalId: string, runId: string, sessionId: string, state: RelayState, phase: RelayPhase)

  /** Where the coroutine `reconcilePendingPrompts` is suspended: waiting for the gateway's word on one
      prompt, returning to its loop with the verdict (and from `finishPrompt` if that was awaited). */
  datatype TaskPhase = Waiting(sessionId: string, runId: string, context: Context) | Returning | Done

  datatype Task = Task(
    generation: nat, expired: bool, rest: seq<(string, string)>, keepTimer: bool, phase: TaskPhase)

  /** History: an `exec.approval.resolve` request, and a prompt rejected as disconnected together
      with the deadline that expired and what held at that moment. */
  datatype Sent = Sent(relay: nat, decision: Decision)
  datatype Rejection = Rejection(
    runId: string, stamp: Option<Context>, deadline: nat, accepted: bool, outage: Option<Context>)

  datatype State = State(
    prompts: OrderedMap<Prompt>, usedRuns: set<string>,
    generation: nat, outage: Option<Context>, timer: Option<nat>, tasks: seq<Task>,
    relayMap: OrderedMap<int>, relays: seq<Relay>,
    sent: seq<Sent>, rejected: seq<Rejection>)

  const Initial := State([], {}, 0, None, None, [], [], [], [], [])

  // ---------------------------------------------------------------- pending prompts

  predicate IsPending(s: State, sessionId: string, runId: string) {
    var p := Lookup(s.prompts, sessionId);
    p.Some? && p.value.runId == runId
  }

  /** Deny, in insertion order, the active relays of a prompt and take its relays out of the map. */
  function ClearRelaysUpTo(s: State, sessionId: string, runId: string, n: nat): (r: State)
    requires n <= |s.relays|
    ensures r == s.(relayMap := r.relayMap, sent := r.sent)
  {
    if n == 0 then s
    else
      var before := ClearRelaysUpTo(s, sessionId, runId, n - 1);
      var r := s.relays[n - 1];
      if Lookup(s.relayMap, r.approvalId) != Some(n - 1) || r.sessionId != sessionId || r.runId != runId
      then before
      else
        before.(relayMap := Delete(before.relayMap, r.approvalId),
                sent := if r.state == Active then before.sent + [Sent(n - 1, Deny)] else before.sent)
  }

  /** The end of `finishPrompt`'s synchronous part, `cancelSessionWork` and a failed send: clear the
      relays of the prompt in hand, then delete by session id only. */
  function RemovePrompt(s: State, sessionId: string, runId: string): State {
    var cleared := ClearRelaysUpTo(s, sessionId, runId, |s.relays|);
    var prompts := Delete(s.prompts, sessionId);
    cleared.(prompts := prompts, timer := if prompts == [] then None else s.timer)
  }

  function StampAll(prompts: OrderedMap<Prompt>, c: Context): (r: OrderedMap<Prompt>)
    ensures |r| == |prompts|
    ensures forall k :: Lookup(r, k) ==
              (match Lookup(prompts, k) case None => None case Some(p) => Some(p.(stamp := Some(c))))
  {
    if prompts == [] then []
    else [(prompts[0].0, prompts[0].1.(stamp := Some(c)))] + StampAll(prompts[1..], c)
  }

  // ---------------------------------------------------------------- outages

  function Disconnect(s: State, reason: string): State {
    var c := Context(s.generation + 1, reason);
    var s1 := s.(generation := c.generation, outage := Some(c));
    if s.prompts == [] then s1
    else s1.(prompts := StampAll(s.prompts, c), timer := Some(c.generation))
  }

  /** `prompt`: a fresh run, stamped with the outage in progress. */
  function StartPrompt(s: State, sessionId: string, sessionKey: string, runId: string): State {
    if runId in s.usedRuns then s
    else
      s.(usedRuns := s.usedRuns + {runId},
         prompts := Put(s.prompts, sessionId, Prompt(sessionId, sessionKey, runId, false, s.outage)),
         timer := if s.outage.Some? && s.timer.None? then Some(s.outage.value.generation) else s.timer)
  }

  function MarkSendAccepted(s: State, sessionId: string, runId: string): State {
    if !IsPending(s, sessionId, runId) then s
    else
      s.(prompts := Put(s.prompts, sessionId, Lookup(s.prompts, sessionId).value.(sendAccepted := true)))
  }

  /** The send fails; a gateway-closed error leaves a still pending prompt to reconciliation. */
  function SendFails(s: State, sessionId: string, runId: string, gatewayClosed: bool): State {
    if gatewayClosed && IsPending(s, sessionId, runId) then s else RemovePrompt(s, sessionId, runId)
  }

  // ---------------------------------------------------------------- reconciliation

  function Snapshot(prompts: OrderedMap<Prompt>): seq<(string, string)> {
    if prompts == [] then [] else [(prompts[0].0, prompts[0].1.runId)] + Snapshot(prompts[1..])
  }

  /** The loop of `reconcilePendingPrompts` up to its next `await` or its end. */
  function Advance(s: State, t: Task): (r: (State, Task))
    ensures r.0 == s.(timer := r.0.timer) && (r.0.timer == s.timer || r.0.timer == None)
    ensures r.1.generation == t.generation && r.1.expired == t.expired
    ensures r.1.phase.Waiting? ==> r.1.phase.context.generation == t.generation
    decreases |t.rest|
  {
    if t.rest == [] then
      (if !t.keepTimer && s.generation == t.generation then s.(timer := None) else s, t.(phase := Done))
    else
      var (sessionId, runId) := t.rest[0];
      var next := t.(rest := t.rest[1..]);
      if IsPending(s, sessionId, runId) && Lookup(s.prompts, sessionId).value.stamp.Some?
         && Lookup(s.prompts, sessionId).value.stamp.value.generation == t.generation
      then (s, next.(phase := Waiting(sessionId, runId, Lookup(s.prompts, sessionId).value.stamp.value)))
      else Advance(s, next)
  }

  function StartReconcile(s: State, generation: nat, expired: bool): State {
    if s.prompts == [] then
      if s.generation == generation then s.(timer := None) else s
    else
      var (s1, t) := Advance(s, Task(generation, expired, Snapshot(s.prompts), false, Returning));
      s1.(tasks := s1.tasks + [t])
  }

  function Reconnect(s: State): State {
    var s1 := s.(outage := None);
    if s.outage.None? then s1 else StartReconcile(s1, s.outage.value.generation, false)
  }

  function TimerFires(s: State): State {
    if s.timer.None? then s else StartReconcile(s.(timer := None), s.timer.value, true)
  }

  predicate ShouldReject(s: State, p: Prompt, c: Context) {
    && p.stamp == Some(c)
    && (!p.sendAccepted || (s.outage.Some? && s.outage.value.generation == c.generation))
  }

  function RejectPrompt(s: State, p: Prompt, deadline: nat): State {
    RemovePrompt(s, p.sessionId, p.runId)
      .(rejected := s.rejected + [Rejection(p.runId, p.stamp, deadline, p.sendAccepted, s.outage)])
  }

  /** The deadline passed without a verdict on this prompt. */
  function AtDeadline(s: State, sessionId: string, runId: string, c: Context, deadline: nat): (r: State)
    ensures r.tasks == s.tasks
  {
    if !IsPending(s, sessionId, runId) then s
    else
      var p := Lookup(s.prompts, sessionId).value;
      if ShouldReject(s, p, c) then RejectPrompt(s, p, deadline)
      else if p.stamp == Some(c) then s.(prompts := Put(s.prompts, sessionId, p.(stamp := None)))
      else s
  }

  /** The reply to `agent.wait`. */
  datatype WaitReply = WaitFailed | RunOk | RunError | StillRunning

  function Resume(s: State, i: nat, t: Task): State
    requires i < |s.tasks|
  {
    var (s1, t1) := Advance(s, t);
    s1.(tasks := s1.tasks[i := t1])
  }

  /** `reconcilePendingPrompt` after its `await`: what it does to the prompt, and whether the timer
      is to be kept. Its caller goes on in a later step. */
  function Verdict(s: State, t: Task, reply: WaitReply): (State, bool)
    requires t.phase.Waiting?
  {
    var w := t.phase;
    var current := IsPending(s, w.sessionId, w.runId);
    if reply == RunOk || reply == RunError then
      (if current then RemovePrompt(s, w.sessionId, w.runId) else s, false)
    else if t.expired then (AtDeadline(s, w.sessionId, w.runId, w.context, t.generation), false)
    else (s, reply == WaitFailed || current)
  }

  function WaitReturns(s: State, i: nat, reply: WaitReply): State {
    if i >= |s.tasks| || !s.tasks[i].phase.Waiting? then s
    else
      var t := s.tasks[i];
      var (s1, keep) := Verdict(s, t, reply);
      s1.(tasks := s.tasks[i := t.(phase := Returning, keepTimer := t.keepTimer || keep)])
  }

  /** The loop takes the verdict and goes on. */
  function LoopResumes(s: State, i: nat): State {
    if i >= |s.tasks| || s.tasks[i].phase != Returning then s else Resume(s, i, s.tasks[i])
  }

  // ---------------------------------------------------------------- approval relays

  function FindByKey(prompts: OrderedMap<Prompt>, sessionKey: string, runId: string): (i: nat)
    ensures i <= |prompts|
  {
    if prompts == [] then 0
    else if prompts[0].1.sessionKey == sessionKey && prompts[0].1.runId == runId then 0
    else 1 + FindByKey(prompts[1..], sessionKey, runId)
  }

  function FindByRun(prompts: OrderedMap<Prompt>, runId: string): (i: nat)
    ensures i <= |prompts|
  {
    if prompts == [] then 0
    else if prompts[0].1.runId == runId then 0
    else 1 + FindByRun(prompts[1..], runId)
  }

  function WithKey(prompts: OrderedMap<Prompt>, sessionKey: string): seq<Prompt> {
    if prompts == [] then []
    else (if prompts[0].1.sessionKey == sessionKey then [prompts[0].1] else []) + WithKey(prompts[1..], sessionKey)
  }

  /** `startApprovalRelay`'s search. With a run id: the prompt with that key and run, else the one
      with that run, whose key is then corrected. Without (`""`): the only prompt with the key. */
  function FindTarget(s: State, sessionKey: string, runId: string): (State, Option<Prompt>) {
    if runId == "" then
      var found := WithKey(s.prompts, sessionKey);
      (s, if |found| == 1 then Some(found[0]) else None)
    else
      var i := FindByKey(s.prompts, sessionKey, runId);
      var j := FindByRun(s.prompts, runId);
      if i < |s.prompts| then (s, Some(s.prompts[i].1))
      else if j < |s.prompts| then
        var p := s.prompts[j].1.(sessionKey := sessionKey);
        (s.(prompts := Put(s.prompts, s.prompts[j].0, p)), Some(p))
      else (s, None)
  }

  function StartRelay(s: State, approvalId: string, sessionKey: string, runId: string): State {
    if Lookup(s.relayMap, approvalId).Some? then s
    else
      var (s1, target) := FindTarget(s, sessionKey, runId);
      if target.None? then s1
      else
        s1.(relayMap := Put(s1.relayMap, approvalId, |s1.relays|),
            relays := s1.relays
                      + [Relay(approvalId, target.value.runId, target.value.sessionId, Active, Hydrating)])
  }

  predicate RelayActive(s: State, r: nat)
    requires r < |s.relays|
  {
    var relay := s.relays[r];
    Lookup(s.relayMap, relay.approvalId) == Some(r) && relay.state == Active
    && IsPending(s, relay.sessionId, relay.runId)
  }

  function DecisionId(d: Decision): string {
    match d case AllowOnce => "allow-once" case AllowAlways => "allow-always" case Deny => "deny"
  }

  function NormalizeDecision(id: string): Option<Decision> {
    if id == "allow-once" then Some(AllowOnce)
    else if id == "allow-always" then Some(AllowAlways)
    else if id == "deny" then Some(Deny)
    else None
  }

  function KnownDecisions(ids: seq<string>): seq<Decision> {
    if ids == [] then []
    else
      var d := NormalizeDecision(ids[0]);
      (if d.Some? then [d.value] else []) + KnownDecisions(ids[1..])
  }

  /** The options offered for `allowedDecisions` (absent when it is not an array). */
  function PermissionOptions(allowed: Option<seq<string>>): (r: seq<Decision>)
    ensures r != []
  {
    var known := KnownDecisions(allowed.GetOr([]));
    var decisions := if known == [] then [AllowOnce, Deny] else known;
    var options := (if AllowOnce in decisions then [AllowOnce] else [])
                   + (if AllowAlways in decisions then [AllowAlways] else [])
                   + (if Deny in decisions then [Deny] else []);
    if options == [] then [AllowOnce, Deny] else options
  }

  /** Send a decision and suspend until the gateway answers. */
  function SendDecision(s: State, r: nat, d: Decision): State
    requires r < |s.relays|
  {
    s.(sent := s.sent + [Sent(r, d)], relays := s.relays[r := s.relays[r].(phase := Resolving)])
  }

  function Hydrated(s: State, r: nat, allowed: Option<seq<string>>): State {
    if r >= |s.relays| || s.relays[r].phase != Hydrating then s
    else if !RelayActive(s, r) then SendDecision(s, r, Deny)
    else s.(relays := s.relays[r := s.relays[r].(phase := Asking(PermissionOptions(allowed)))])
  }

  /** `options.find((option) => option.optionId === optionId)`. */
  function FindOption(options: seq<Decision>, optionId: string): (d: Option<Decision>)
    ensures d.Some? ==> d.value in options
  {
    if options == [] then None
    else if DecisionId(options[0]) == optionId then Some(options[0])
    else FindOption(options[1..], optionId)
  }

  /** `selected` is the chosen option id; `None` when the client cancelled or the request failed. */
  function PermissionAnswered(s: State, r: nat, selected: Option<string>): State {
    if r >= |s.relays| || !s.relays[r].phase.Asking? then s
    else
      var decision := if selected.None? then None else FindOption(s.relays[r].phase.options, selected.value);
      SendDecision(s, r, if RelayActive(s, r) && decision.Some? then decision.value else Deny)
  }

  function ResolveReturns(s: State, r: nat, accepted: bool): State {
    if r >= |s.relays| || s.relays[r].phase != Resolving then s
    else
      var done := s.relays[r].(phase := Finished);
      if Lookup(s.relayMap, done.approvalId) == Some(r) && done.state == Active then
        if accepted then s.(relays := s.relays[r := done.(state := Completed)])
        else s.(relays := s.relays[r := done], relayMap := Delete(s.relayMap, done.approvalId))
      else s.(relays := s.relays[r := done])
  }

  // ---------------------------------------------------------------- runs

  datatype Event =
    | GatewayDisconnect(reason: string)
    | GatewayReconnect
    | PromptStarts(sessionId: string, sessionKey: string, runId: string)
    | SendAccepted(sessionId: string, runId: string)
    | SendFailed(sessionId: string, runId: string, gatewayClosed: bool)
    | PromptEnds(sessionId: string, runId: string) // finishPrompt or the end of cancelSessionWork
    | GraceTimer
    | WaitDone(task: nat, reply: WaitReply)
    | TaskResumes(task: nat)
    | ApprovalRequested(approvalId: string, sessionKey: string, runId: string)
    | DetailsArrive(relay: nat, allowed: Option<seq<string>>)
    | ClientAnswers(relay: nat, selected: Option<string>)
    | ResolveDone(relay: nat, accepted: bool)

  function Step(s: State, e: Event): State {
    match e
    case GatewayDisconnect(reason) => Disconnect(s, reason)
    case GatewayReconnect => Reconnect(s)
    case PromptStarts(id, key, run) => StartPrompt(s, id, key, run)
    case SendAccepted(id, run) => MarkSendAccepted(s, id, run)
    case SendFailed(id, run, closed) => SendFails(s, id, run, closed)
    case PromptEnds(id, run) => RemovePrompt(s, id, run)
    case GraceTimer => TimerFires(s)
    case WaitDone(i, reply) => WaitReturns(s, i, reply)
    case TaskResumes(i) => LoopResumes(s, i)
    case ApprovalRequested(approval, key, run) => StartRelay(s, approval, key, run)
    case DetailsArrive(r, allowed) => Hydrated(s, r, allowed)
    case ClientAnswers(r, selected) => PermissionAnswered(s, r, selected)
    case ResolveDone(r, accepted) => ResolveReturns(s, r, accepted)
  }

  function Run(events: seq<Event>): State {
    if events == [] then Initial else Step(Run(events[..|events| - 1]), events[|events| - 1])
  }
}
