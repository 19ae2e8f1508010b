/** One response at a time: what the bridge's flags guarantee over whole runs. */
module VoiceBridgeGating {
  import opened VoiceBridge

  datatype Request = Create | Cancel

  predicate Sends(m: Mark, r: Request) {
    match r case Create => m == SentCreate case Cancel => m == SentCancel
  }

  /** What makes room for the next request of its kind. */
  predicate Releases(m: Mark, r: Request) {
    match r
    case Create => m == ServerCreated || m == ServerEnded || m == ServerActiveError || m == Opened
    case Cancel => m == ServerEnded || m == ServerNoActiveError || m == Opened
  }

  /** A request was sent and nothing has released it yet. */
  predicate Outstanding(trace: seq<Mark>, r: Request) {
    trace != [] &&
    (Sends(trace[|trace| - 1], r) || (!Releases(trace[|trace| - 1], r) && Outstanding(trace[..|trace| - 1], r)))
  }

  /** No request is ever sent while another of its kind is outstanding. */
  predicate Alternates(trace: seq<Mark>, r: Request) {
    trace == [] ||
    (Alternates(trace[..|trace| - 1], r)
     && (Sends(trace[|trace| - 1], r) ==> !Outstanding(trace[..|trace| - 1], r)))
  }

  lemma {:induction false} OutstandingSince(trace: seq<Mark>, r: Request, i: nat)
    requires i < |trace| && Sends(trace[i], r)
    requires forall k :: i < k < |trace| ==> !Releases(trace[k], r)
    ensures Outstanding(trace, r)
  {
    if i < |trace| - 1 { OutstandingSince(trace[..|trace| - 1], r, i); }
  }

  /** Between two requests of a kind there is always a release. */
  lemma {:induction false} ReleasedBetween(trace: seq<Mark>, r: Request, i: nat, j: nat)
    requires Alternates(trace, r) && i < j < |trace| && Sends(trace[i], r) && Sends(trace[j], r)
    ensures exists k :: i < k < j && Releases(trace[k], r)
    decreases |trace|
  {
    var init := trace[..|trace| - 1];
    if j < |init| {
      ReleasedBetween(init, r, i, j);
      var k :| i < k < j && Releases(init[k], r);
      assert trace[k] == init[k];
    } else if forall k :: i < k < |init| ==> !Releases(init[k], r) {
      OutstandingSince(init, r, i);
    } else {
      var k :| i < k < |init| && Releases(init[k], r);
      assert trace[k] == init[k];
    }
  }

  predicate Gated(g: Gate) {
    && Alternates(g.trace, Create) && (Outstanding(g.trace, Create) ==> g.createInFlight)
    && Alternates(g.trace, Cancel) && (Outstanding(g.trace, Cancel) ==> g.cancelInFlight)
  }

  lemma LogFacts(g: Gate, m: Mark, r: Request)
    ensures Outstanding(Log(g, m).trace, r) <==> Sends(m, r) || (!Releases(m, r) && Outstanding(g.trace, r))
    ensures Alternates(Log(g, m).trace, r) <==> Alternates(g.trace, r) && (Sends(m, r) ==> !Outstanding(g.trace, r))
  {
    assert Log(g, m).trace[..|g.trace|] == g.trace;
  }

  lemma RequestKeeps(g: Gate, open: bool)
    requires Gated(g)
    ensures Gated(RequestResponseCreate(g, open))
  {
    LogFacts(g, SentCreate, Create);
    LogFacts(g, SentCreate, Cancel);
  }

  lemma CancelKeeps(g: Gate, open: bool, playback: bool)
    requires Gated(g)
    ensures Gated(CancelFor(g, open, playback))
  {
    LogFacts(g, SentCancel, Create);
    LogFacts(g, SentCancel, Cancel);
  }

  lemma ReleaseKeeps(g: Gate, m: Mark, after: Gate)
    requires Gated(g) && !Sends(m, Create) && !Sends(m, Cancel) && after.trace == Log(g, m).trace
    requires !Releases(m, Create) && g.createInFlight ==> after.createInFlight
    requires !Releases(m, Cancel) && g.cancelInFlight ==> after.cancelInFlight
    ensures Gated(after)
  {
    LogFacts(g, m, Create);
    LogFacts(g, m, Cancel);
  }

  lemma EndedKeeps(g: Gate, open: bool)
    requires Gated(g)
    ensures Gated(ResponseEnded(g, open))
  {
    var ended := Log(g, ServerEnded).(responseActive := false, createInFlight := false, cancelInFlight := false);
    ReleaseKeeps(g, ServerEnded, ended);
    RequestKeeps(ended.(createPending := false), open);
  }

  lemma NoActiveKeeps(g: Gate, open: bool)
    requires Gated(g)
    ensures Gated(NoActiveResponseError(g, open))
  {
    var idle := Log(g, ServerNoActiveError).(responseActive := false, cancelInFlight := false);
    ReleaseKeeps(g, ServerNoActiveError, idle);
    RequestKeeps(idle.(createPending := false), open);
  }

  lemma StepGated(cfg: Config, s: State, e: Event)
    requires Gated(s.gate)
    ensures Gated(Step(cfg, s, e).gate)
  {
    var g, open := s.gate, s.link.wsOpen;
    match e
    case Open => ReleaseKeeps(g, Opened, SocketOpened(s).gate);
    case UserMessage => RequestKeeps(g, open);
    case ToolResult(id, willContinue, suppress) => RequestKeeps(g.(continuing := g.continuing - {id}), open);
    case Interrupt(force, playback) => CancelKeeps(g, open, playback);
    case OnSpeechStarted => CancelKeeps(g, open, false);
    case OnCreated => ReleaseKeeps(g, ServerCreated, Step(cfg, s, e).gate);
    case OnEnded => EndedKeeps(g, open);
    case OnActiveResponseError => ReleaseKeeps(g, ServerActiveError, ActiveResponseError(g));
    case OnNoActiveResponseError => NoActiveKeeps(g, open);
    case _ =>
  }

  lemma {:induction false} AlwaysGated(cfg: Config, events: seq<Event>)
    ensures Gated(Run(cfg, events).gate)
  {
    if events != [] {
      AlwaysGated(cfg, events[..|events| - 1]);
      StepGated(cfg, Run(cfg, events[..|events| - 1]), events[|events| - 1]);
    }
  }

  /** Main theorem. Between two `response.create` on the wire the server always created, ended or
      refused a response, or the socket reopened; likewise for two `response.cancel`. */
  lemma OneAtATime(cfg: Config, events: seq<Event>, r: Request, i: nat, j: nat)
    requires var trace := Run(cfg, events).gate.trace; i < j < |trace| && Sends(trace[i], r) && Sends(trace[j], r)
    ensures exists k :: i < k < j && Releases(Run(cfg, events).gate.trace[k], r)
  {
    AlwaysGated(cfg, events);
    ReleasedBetween(Run(cfg, events).gate.trace, r, i, j);
  }

  /** What one step may put on the wire. */
  predicate Lawful(g: Gate, open: bool, after: Gate) {
    forall k :: |g.trace| <= k < |after.trace| ==>
      && (after.trace[k] == SentCreate ==>
            open && !after.responseActive && !after.cancelInFlight && after.continuing == {} && !after.createPending)
      && (after.trace[k] == SentCancel ==> open && after.responseActive && !g.cancelInFlight)
  }

  /** A create goes out only when no response is active, no cancel is in flight and no tool call
      continues; a cancel only while a response is active and none is being cancelled. */
  lemma SentOnlyWhenAllowed(cfg: Config, s: State, e: Event)
    ensures Lawful(s.gate, s.link.wsOpen, Step(cfg, s, e).gate)
  {
    match e
    case Interrupt(force, playback) => assert Lawful(s.gate, s.link.wsOpen, CancelFor(s.gate, s.link.wsOpen, playback));
    case OnSpeechStarted => assert Lawful(s.gate, s.link.wsOpen, CancelFor(s.gate, s.link.wsOpen, false));
    case OnSessionUpdated => assert Step(cfg, s, e).gate == s.gate;
    case _ =>
  }

  // ---------------------------------------------------------------- deferred creates

  /** A deferred create still has something to wait for. */
  predicate NotStranded(g: Gate) { g.createPending ==> Blocked(g) }

  /** A final result that is suppressed. */
  predicate EndsSuppressed(e: Event) { e.ToolResult? && !e.willContinue && e.suppress }

  /** A suppressed final result that removes the last blocker of a deferred create. */
  predicate Strands(g: Gate, e: Event) {
    && EndsSuppressed(e)
    && g.createPending && !g.responseActive && !g.createInFlight && !g.cancelInFlight
    && g.continuing == {e.callId}
  }

  /** The one step that can strand a deferred create, and exactly when it does. */
  lemma StrandsExactlyWhen(cfg: Config, s: State, e: Event)
    requires NotStranded(s.gate)
    ensures NotStranded(Step(cfg, s, e).gate) <==> !Strands(s.gate, e)
  {
    if EndsSuppressed(e) {
      var all, id := s.gate.continuing, e.callId;
      assert all - {id} == {} ==> all == {} || all == {id} by {
        if all - {id} == {} { assert forall x :: x in all ==> x in {id} || x in all - {id}; }
      }
    }
  }

  /** No deferred create was stranded after any event so far. */
  predicate NeverStranded(cfg: Config, events: seq<Event>) {
    NotStranded(Run(cfg, events).gate) && (events != [] ==> NeverStranded(cfg, events[..|events| - 1]))
  }

  /** No event so far was one that strands. */
  predicate NoStrandingStep(cfg: Config, events: seq<Event>) {
    events == [] ||
    var init, last := events[..|events| - 1], events[|events| - 1];
    NoStrandingStep(cfg, init) && !Strands(Run(cfg, init).gate, last)
  }

  /** Main theorem. A run never strands a deferred create exactly when none of its steps does what
      `Strands` says. */
  lemma {:induction false} NeverStrandedIff(cfg: Config, events: seq<Event>)
    ensures NeverStranded(cfg, events) <==> NoStrandingStep(cfg, events)
  {
    if events != [] {
      var init, last := events[..|events| - 1], events[|events| - 1];
      NeverStrandedIff(cfg, init);
      if NotStranded(Run(cfg, init).gate) { StrandsExactlyWhen(cfg, Run(cfg, init), last); }
    }
  }

  /** No tool call that is continuing ends with `suppressResponse`; one that never continued may. */
  predicate ContinuingCallsAnswer(cfg: Config, events: seq<Event>) {
    forall n :: 0 <= n < |events| && EndsSuppressed(events[n]) ==>
      events[n].callId !in Run(cfg, events[..n]).gate.continuing
  }

  /** In such a run a deferred create always has something to wait for. */
  lemma {:induction false} DeferredCreatesAreNotStranded(cfg: Config, events: seq<Event>)
    requires ContinuingCallsAnswer(cfg, events)
    ensures NoStrandingStep(cfg, events) && NotStranded(Run(cfg, events).gate)
  {
    if events != [] {
      var init, last := events[..|events| - 1], events[|events| - 1];
      forall n | 0 <= n < |init| ensures init[..n] == events[..n] {}
      DeferredCreatesAreNotStranded(cfg, init);
      assert EndsSuppressed(last) ==> last.callId !in Run(cfg, events[..|events| - 1]).gate.continuing;
      StrandsExactlyWhen(cfg, Run(cfg, init), last);
    }
  }

  /** A reachable stranding: a continuing tool call defers a create, then ends suppressed. */
  lemma SuppressedResultStrands(cfg: Config, callId: string)
    ensures !NotStranded(Run(cfg, [ToolResult(callId, true, false), UserMessage, ToolResult(callId, false, true)]).gate)
  {
    var events := [ToolResult(callId, true, false), UserMessage, ToolResult(callId, false, true)];
    assert events[..2][..1] == events[..1] && events[..|events| - 1] == events[..2];
    var s1 := Run(cfg, events[..1]);
    assert s1.gate == Initial.gate.(continuing := {callId}) by {
      assert events[..1][..0] == [] && Run(cfg, []) == Initial;
      assert {} + {callId} == {callId};
    }
    var s2 := Run(cfg, events[..2]);
    assert s2 == Step(cfg, s1, UserMessage);
    assert s2.gate.continuing == {callId} && s2.gate.createPending && !s2.gate.responseActive;
    StrandsExactlyWhen(cfg, s2, events[2]);
    assert Run(cfg, events) == Step(cfg, s2, events[2]);
  }
}
