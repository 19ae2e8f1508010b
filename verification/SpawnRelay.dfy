/** The relay that streams a spawned child's output to its parent session
    (src/agents/acp-spawn-parent-stream.ts). */
module SpawnRelay {
  import opened Text

  const STREAM_BUFFER_MAX_CHARS: nat := 4000
  const STREAM_SNIPPET_MAX_CHARS: nat := 220

  datatype Config = Config(streamFlushMs: nat, noOutputNoticeMs: nat, emitStartNotice: bool)

  /** Why no output is visible yet, as the stall notice words it. */
  datatype Stage = NoPrompt | NoRuntimeEvent | NoVisibleOutput | WaitingForInput

  /** The notices the relay emits, in the order they are enqueued; a progress notice carries the
      buffer it reports. */
  datatype Notice =
    | Started
    | Progress(buffer: string)
    | Stall(stage: Stage)
    | Resumed
    | Done
    | Failed
    | TimedOut

  predicate Final(n: Notice) { n.Done? || n.Failed? || n.TimedOut? }

  /** `received` and `flushed` are history: the visible text so far, and the buffer at each flush. */
  datatype State = State(
    disposed: bool, pendingText: string, lastProgressAt: int, stallNotified: bool,
    promptSubmitted: bool, runtimeSeen: bool, outputSeen: bool,
    flushTimer: bool, lifetimeTimer: bool,
    sent: seq<Notice>, received: string, flushed: seq<string>)

  // ---------------------------------------------------------------- text

  /** `value.replace(/\s+/g, " ")` on the first `n` characters. */
  function Squeeze(s: string, n: nat): string
    requires n <= |s|
  {
    if n == 0 then ""
    else if !IsSpace(s[n - 1]) then Squeeze(s, n - 1) + [s[n - 1]]
    else if n >= 2 && IsSpace(s[n - 2]) then Squeeze(s, n - 1)
    else Squeeze(s, n - 1) + " "
  }

  function CompactWhitespace(s: string): string { Trim(Squeeze(s, |s|)) }

  function Truncate(s: string, maxChars: nat): string {
    if |s| <= maxChars then s else if maxChars <= 1 then s[..maxChars] else s[..maxChars - 1] + "\U{2026}"
  }

  function Snippet(buffer: string): string { Truncate(CompactWhitespace(buffer), STREAM_SNIPPET_MAX_CHARS) }

  /** What a progress notice says. */
  function ProgressText(relayLabel: string, buffer: string): string { relayLabel + ": " + Snippet(buffer) }

  lemma {:induction false} SqueezeBlank(s: string, n: nat)
    requires n <= |s|
    ensures Blank(Squeeze(s, n)) <==> forall i :: 0 <= i < n ==> IsSpace(s[i])
  {
    if n > 0 {
      SqueezeBlank(s, n - 1);
      var before := Squeeze(s, n - 1);
      if !IsSpace(s[n - 1]) {
        BlankAppend(before, s[n - 1]);
      } else {
        BlankAppend(before, ' ');
        assert IsSpace(' ') && before + " " == before + [' '];
      }
    }
  }

  lemma BlankAppend(s: string, c: char)
    ensures Blank(s + [c]) <==> Blank(s) && IsSpace(c)
  {
    if Blank(s + [c]) {
      forall i | 0 <= i < |s| ensures IsSpace(s[i]) { assert (s + [c])[i] == s[i]; }
      assert (s + [c])[|s|] == c;
    }
  }

  /** Only a blank buffer has an empty snippet, and no snippet is longer than 220 characters. */
  lemma SnippetFacts(buffer: string)
    ensures Snippet(buffer) == "" <==> Blank(buffer)
    ensures |Snippet(buffer)| <= STREAM_SNIPPET_MAX_CHARS
  {
    SqueezeBlank(buffer, |buffer|);
    TrimEmptyIff(Squeeze(buffer, |buffer|));
  }

  /** `s.slice(-n)`. */
  function LastChars(s: string, n: nat): string { if |s| > n then s[|s| - n..] else s }

  predicate HasBreak(s: string) { exists i :: 0 <= i < |s| - 1 && s[i] == '\n' && s[i + 1] == '\n' }

  // ---------------------------------------------------------------- steps

  function Emit(s: State, n: Notice): State { s.(sent := s.sent + [n]) }

  function Initial(cfg: Config, now: int): State {
    var s := State(false, "", now, false, false, false, false, false, true, [], "", []);
    if cfg.emitStartNotice then Emit(s, Started) else s
  }

  /** The notices a buffer gives rise to: none when only white space is left of it. */
  function ProgressOf(buffer: string): seq<Notice> { if Blank(buffer) then [] else [Progress(buffer)] }

  function FlushPending(s: State): State {
    if s.pendingText == "" then s.(flushTimer := false)
    else s.(flushTimer := false, pendingText := "", flushed := s.flushed + [s.pendingText],
            sent := s.sent + ProgressOf(s.pendingText))
  }

  function ScheduleFlush(cfg: Config, s: State): State {
    if s.disposed || s.flushTimer || cfg.streamFlushMs == 0 then s else s.(flushTimer := true)
  }

  function DisposeRelay(s: State): State {
    if s.disposed then s else s.(disposed := true, flushTimer := false, lifetimeTimer := false)
  }

  function ResumeNotice(s: State): State {
    if s.stallNotified then Emit(s.(stallNotified := false), Resumed) else s
  }

  function BufferOutput(s: State, now: int, delta: string): State {
    s.(lastProgressAt := now, outputSeen := true, received := s.received + delta,
       pendingText := LastChars(s.pendingText + delta, STREAM_BUFFER_MAX_CHARS))
  }

  /** A visible assistant delta that is not blank. */
  function VisibleOutput(cfg: Config, s: State, now: int, delta: string): State {
    var buffered := BufferOutput(ResumeNotice(s), now, delta);
    if |buffered.pendingText| >= STREAM_SNIPPET_MAX_CHARS || HasBreak(delta) then FlushPending(buffered)
    else ScheduleFlush(cfg, buffered)
  }

  function StageOf(s: State): Stage {
    if !s.promptSubmitted then NoPrompt
    else if !s.runtimeSeen then NoRuntimeEvent
    else if !s.outputSeen then NoVisibleOutput
    else WaitingForInput
  }

  datatype Event =
    | AssistantDelta(now: int, delta: string, commentary: bool)
    | PromptSubmitted(now: int)
    | RuntimeEvent(now: int)
    | LifecycleEnd
    | LifecycleError
    | FlushTimer
    | NoOutputPoll(now: int)
    | LifetimeTimer
    | NotifyStarted
    | Dispose

  function Step(cfg: Config, s: State, e: Event): State {
    match e
    case AssistantDelta(now, delta, commentary) =>
      if s.disposed || Blank(delta) then s
      else if commentary then s.(lastProgressAt := now)
      else VisibleOutput(cfg, s, now, delta)
    case PromptSubmitted(now) => if s.disposed then s else s.(promptSubmitted := true, lastProgressAt := now)
    case RuntimeEvent(now) => if s.disposed then s else s.(runtimeSeen := true, lastProgressAt := now)
    case LifecycleEnd => if s.disposed then s else DisposeRelay(Emit(FlushPending(s), Done))
    case LifecycleError => if s.disposed then s else DisposeRelay(Emit(FlushPending(s), Failed))
    case FlushTimer => if s.flushTimer then FlushPending(s) else s
    case NoOutputPoll(now) =>
      if s.disposed || cfg.noOutputNoticeMs == 0 || s.stallNotified || now - s.lastProgressAt < cfg.noOutputNoticeMs
      then s
      else Emit(s.(stallNotified := true), Stall(StageOf(s)))
    case LifetimeTimer => if !s.lifetimeTimer || s.disposed then s else DisposeRelay(Emit(s, TimedOut))
    case NotifyStarted => Emit(s, Started)
    case Dispose => DisposeRelay(s)
  }

  function Run(cfg: Config, now: int, events: seq<Event>): State {
    if events == [] then Initial(cfg, now)
    else Step(cfg, Run(cfg, now, events[..|events| - 1]), events[|events| - 1])
  }
}

/** What every run of the relay keeps. */
module SpawnRelayLifecycle {
  import opened Text
  import opened SpawnRelay
  import Sequences

  // ---------------------------------------------------------------- at most one final notice

  function Finals(sent: seq<Notice>): nat {
    if sent == [] then 0 else Finals(sent[..|sent| - 1]) + if Final(sent[|sent| - 1]) then 1 else 0
  }

  /** Stall and resumed notices strictly alternate, a stall first; `stalled` tells which was last. */
  predicate StallsAlternate(sent: seq<Notice>, stalled: bool) {
    if sent == [] then !stalled
    else
      var init, last := sent[..|sent| - 1], sent[|sent| - 1];
      if last.Stall? then stalled && StallsAlternate(init, false)
      else if last.Resumed? then !stalled && StallsAlternate(init, true)
      else StallsAlternate(init, stalled)
  }

  predicate Orderly(s: State) {
    && Finals(s.sent) <= (if s.disposed then 1 else 0)
    && StallsAlternate(s.sent, s.stallNotified)
  }

  /** The buffer stays short, and never waits without its timer. */
  predicate Buffered(cfg: Config, s: State) {
    && |s.pendingText| < STREAM_SNIPPET_MAX_CHARS
    && (s.pendingText != "" && !s.disposed && cfg.streamFlushMs > 0 ==> s.flushTimer)
    && (s.flushTimer ==> !s.disposed && s.pendingText != "")
    && (s.lifetimeTimer ==> !s.disposed)
  }

  lemma EmitFacts(s: State, n: Notice)
    ensures Finals(Emit(s, n).sent) == Finals(s.sent) + if Final(n) then 1 else 0
    ensures forall b :: StallsAlternate(Emit(s, n).sent, b) <==>
              if n.Stall? then b && StallsAlternate(s.sent, false)
              else if n.Resumed? then !b && StallsAlternate(s.sent, true)
              else StallsAlternate(s.sent, b)
  {
    assert Emit(s, n).sent[..|s.sent|] == s.sent;
  }

  lemma FlushFacts(s: State)
    ensures Finals(FlushPending(s).sent) == Finals(s.sent)
    ensures forall b :: StallsAlternate(FlushPending(s).sent, b) <==> StallsAlternate(s.sent, b)
  {
    var out := ProgressOf(s.pendingText);
    if out == [] { assert s.sent + out == s.sent; } else { EmitFacts(s, out[0]); assert out == [out[0]]; }
  }

  lemma ResumeOrderly(s: State)
    requires Orderly(s)
    ensures Orderly(ResumeNotice(s))
  {
    if s.stallNotified { EmitFacts(s.(stallNotified := false), Resumed); }
  }

  lemma VisibleOrderly(cfg: Config, s: State, now: int, delta: string)
    requires Orderly(s)
    ensures Orderly(VisibleOutput(cfg, s, now, delta))
  {
    ResumeOrderly(s);
    var buffered := BufferOutput(ResumeNotice(s), now, delta);
    assert Orderly(buffered);
    FlushOrderly(buffered);
  }

  lemma StallOrderly(s: State, stage: Stage)
    requires Orderly(s) && !s.stallNotified
    ensures Orderly(Emit(s.(stallNotified := true), Stall(stage)))
  {
    EmitFacts(s.(stallNotified := true), Stall(stage));
  }

  lemma StartOrderly(s: State)
    requires Orderly(s)
    ensures Orderly(Emit(s, Started))
  {
    EmitFacts(s, Started);
  }

  lemma FinishOrderly(s: State, n: Notice)
    requires Orderly(s) && !s.disposed && Final(n)
    ensures Orderly(DisposeRelay(Emit(s, n)))
  {
    EmitFacts(s, n);
  }

  lemma FlushOrderly(s: State)
    requires Orderly(s)
    ensures Orderly(FlushPending(s))
  {
    var t := FlushPending(s);
    assert t.disposed == s.disposed && t.stallNotified == s.stallNotified;
    FlushFacts(s);
  }

  lemma EndOrderly(s: State, n: Notice)
    requires Orderly(s) && !s.disposed && Final(n)
    ensures Orderly(DisposeRelay(Emit(FlushPending(s), n)))
  {
    FlushOrderly(s);
    FinishOrderly(FlushPending(s), n);
  }

  lemma StepOrderly(cfg: Config, s: State, e: Event)
    requires Orderly(s)
    ensures Orderly(Step(cfg, s, e))
  {
    match e
    case AssistantDelta(now, delta, commentary) => VisibleOrderly(cfg, s, now, delta);
    case LifecycleEnd => if !s.disposed { EndOrderly(s, Done); }
    case LifecycleError => if !s.disposed { EndOrderly(s, Failed); }
    case FlushTimer => FlushOrderly(s);
    case NoOutputPoll(now) => if !s.stallNotified { StallOrderly(s, StageOf(s)); }
    case LifetimeTimer => if !s.disposed { FinishOrderly(s, TimedOut); }
    case NotifyStarted => StartOrderly(s);
    case _ =>
  }

  lemma FlushBuffered(s: State)
    ensures var t := FlushPending(s);
            t.pendingText == "" && !t.flushTimer && t.disposed == s.disposed && t.lifetimeTimer == s.lifetimeTimer
  {
  }

  lemma VisibleBuffered(cfg: Config, s: State, now: int, delta: string)
    requires Buffered(cfg, s) && !s.disposed && !Blank(delta)
    ensures Buffered(cfg, VisibleOutput(cfg, s, now, delta))
  {
    FlushBuffered(BufferOutput(ResumeNotice(s), now, delta));
  }

  lemma StepBuffered(cfg: Config, s: State, e: Event)
    requires Buffered(cfg, s)
    ensures Buffered(cfg, Step(cfg, s, e))
  {
    match e
    case AssistantDelta(now, delta, commentary) =>
      if !s.disposed && !Blank(delta) { VisibleBuffered(cfg, s, now, delta); }
    case LifecycleEnd => FlushBuffered(s);
    case LifecycleError => FlushBuffered(s);
    case FlushTimer => FlushBuffered(s);
    case _ =>
  }

  lemma {:induction false} AlwaysOrderly(cfg: Config, now: int, events: seq<Event>)
    ensures Orderly(Run(cfg, now, events)) && Buffered(cfg, Run(cfg, now, events))
  {
    if events != [] {
      var s, e := Run(cfg, now, events[..|events| - 1]), events[|events| - 1];
      AlwaysOrderly(cfg, now, events[..|events| - 1]);
      StepOrderly(cfg, s, e);
      StepBuffered(cfg, s, e);
    } else if cfg.emitStartNotice {
      EmitFacts(Initial(cfg.(emitStartNotice := false), now), Started);
    }
  }

  lemma {:induction false} FinalsCounts(sent: seq<Notice>, i: nat, j: nat)
    requires i < j < |sent| && Final(sent[i]) && Final(sent[j])
    ensures Finals(sent) >= 2
  {
    var init := sent[..|sent| - 1];
    if j < |init| { FinalsCounts(init, i, j); } else { FinalsCountOne(init, i); }
  }

  lemma {:induction false} FinalsCountOne(sent: seq<Notice>, i: nat)
    requires i < |sent| && Final(sent[i])
    ensures Finals(sent) >= 1
  {
    if i < |sent| - 1 { FinalsCountOne(sent[..|sent| - 1], i); }
  }

  /** Main theorem. A relay announces completion, failure or timeout at most once. */
  lemma OneFinalNotice(cfg: Config, now: int, events: seq<Event>, i: nat, j: nat)
    requires var sent := Run(cfg, now, events).sent; i < |sent| && j < |sent| && Final(sent[i]) && Final(sent[j])
    ensures i == j
  {
    AlwaysOrderly(cfg, now, events);
    var sent := Run(cfg, now, events).sent;
    if i < j { FinalsCounts(sent, i, j); } else if j < i { FinalsCounts(sent, j, i); }
  }

  /** Main theorem. Between two stall notices there is a resumed one. */
  lemma {:induction false} ResumedBetweenStalls(sent: seq<Notice>, stalled: bool, i: nat, j: nat)
    requires StallsAlternate(sent, stalled) && i < j < |sent| && sent[i].Stall? && sent[j].Stall?
    ensures exists k :: i < k < j && sent[k].Resumed?
    decreases |sent|
  {
    var init, last := sent[..|sent| - 1], sent[|sent| - 1];
    if j < |init| {
      ResumedBetweenStalls(init, if last.Stall? then false else if last.Resumed? then true else stalled, i, j);
      var k :| i < k < j && init[k].Resumed?;
      assert sent[k].Resumed?;
    } else {
      var k := LastSwitch(init, i);
      assert sent[k].Resumed?;
    }
  }

  /** With no stall open, the latest stall was followed by a resumed notice. */
  lemma {:induction false} LastSwitch(sent: seq<Notice>, i: nat) returns (k: nat)
    requires StallsAlternate(sent, false) && i < |sent| && sent[i].Stall?
    ensures i < k < |sent| && sent[k].Resumed?
  {
    if sent[|sent| - 1].Resumed? { k := |sent| - 1; } else { k := LastSwitch(sent[..|sent| - 1], i); }
  }

  lemma DisposedStep(cfg: Config, s: State, e: Event)
    requires s.disposed && Buffered(cfg, s)
    ensures Step(cfg, s, e).disposed
    ensures Step(cfg, s, e).sent == s.sent || Step(cfg, s, e).sent == s.sent + [Started]
  {
  }

  lemma StartsContinue(earlier: seq<Notice>, sent: seq<Notice>, later: seq<Notice>)
    requires OnlyStarts(earlier, sent) && (later == sent || later == sent + [Started])
    ensures OnlyStarts(earlier, later)
  {
  }

  /** Main theorem. A relay disposed after `n` events stays silent but for explicit start notices. */
  lemma {:induction false} SilentOnceDisposed(cfg: Config, now: int, events: seq<Event>, n: nat)
    requires n <= |events| && Run(cfg, now, events[..n]).disposed
    ensures Run(cfg, now, events).disposed
    ensures OnlyStarts(Run(cfg, now, events[..n]).sent, Run(cfg, now, events).sent)
  {
    if n == |events| {
      assert events[..n] == events;
    } else {
      var init := events[..|events| - 1];
      assert init[..n] == events[..n];
      SilentOnceDisposed(cfg, now, init, n);
      AlwaysOrderly(cfg, now, init);
      DisposedStep(cfg, Run(cfg, now, init), events[|events| - 1]);
      StartsContinue(Run(cfg, now, events[..n]).sent, Run(cfg, now, init).sent, Run(cfg, now, events).sent);
    }
  }

  /** `later` continues `earlier` with start notices alone. */
  predicate OnlyStarts(earlier: seq<Notice>, later: seq<Notice>) {
    earlier <= later && forall k :: |earlier| <= k < |later| ==> later[k] == Started
  }

  /** Main theorem. Buffered text stays under 220 characters, and while the relay lives it never
      waits without its flush timer. */
  lemma BufferIsBounded(cfg: Config, now: int, events: seq<Event>)
    ensures var s := Run(cfg, now, events);
            && |s.pendingText| < 220
            && (s.pendingText != "" && !s.disposed && cfg.streamFlushMs > 0 ==> s.flushTimer)
  {
    AlwaysOrderly(cfg, now, events);
  }

  // ---------------------------------------------------------------- nothing is lost on the way

  function Concat(parts: seq<string>): string {
    if parts == [] then "" else Concat(parts[..|parts| - 1]) + parts[|parts| - 1]
  }

  function ProgressNotices(flushed: seq<string>): seq<Notice> {
    if flushed == [] then []
    else ProgressNotices(flushed[..|flushed| - 1]) + ProgressOf(flushed[|flushed| - 1])
  }

  function OnlyProgress(sent: seq<Notice>): seq<Notice> {
    if sent == [] then []
    else OnlyProgress(sent[..|sent| - 1]) + if sent[|sent| - 1].Progress? then [sent[|sent| - 1]] else []
  }

  /** All visible text is either in some flushed buffer or still pending, in order. */
  predicate Conserved(s: State) { Concat(s.flushed) + s.pendingText == s.received }

  lemma FlushConserves(s: State)
    requires Conserved(s)
    ensures Conserved(FlushPending(s))
  {
    var t := FlushPending(s);
    if s.pendingText != "" {
      assert t.flushed[..|s.flushed|] == s.flushed;
      assert Concat(t.flushed) + "" == Concat(t.flushed);
    }
  }

  /** Visible output after which the buffer exceeds 4,000 characters, so that its start is cut off. */
  predicate Overflows(s: State, e: Event) {
    && e.AssistantDelta? && !s.disposed && !Blank(e.delta) && !e.commentary
    && |s.pendingText| + |e.delta| > STREAM_BUFFER_MAX_CHARS
  }

  /** Characters of the visible output that are neither flushed nor pending. */
  function Missing(s: State): int { |s.received| - |Concat(s.flushed)| - |s.pendingText| }

  lemma VisibleConserves(cfg: Config, s: State, now: int, delta: string)
    ensures var t, over := VisibleOutput(cfg, s, now, delta), |s.pendingText| + |delta| - STREAM_BUFFER_MAX_CHARS;
            && Missing(t) == Missing(s) + (if over > 0 then over else 0)
            && (Conserved(s) && over <= 0 ==> Conserved(t))
  {
    Sequences.AppendAssociative(Concat(s.flushed), s.pendingText, delta);
    var b := BufferOutput(ResumeNotice(s), now, delta);
    FlushLength(b);
    if Conserved(b) { FlushConserves(b); }
    VisibleIs(cfg, s, now, delta);
  }

  lemma FlushLength(s: State)
    ensures Missing(FlushPending(s)) == Missing(s)
  {
    if s.pendingText != "" { assert FlushPending(s).flushed[..|s.flushed|] == s.flushed; }
  }

  lemma DeltaConserves(cfg: Config, s: State, now: int, delta: string, commentary: bool)
    ensures Accounts(s, AssistantDelta(now, delta, commentary), Step(cfg, s, AssistantDelta(now, delta, commentary)))
  {
    VisibleConserves(cfg, s, now, delta);
  }

  lemma FlushAccounts(s: State, e: Event, t: State)
    requires !e.AssistantDelta? && t.received == s.received
    requires t.pendingText == FlushPending(s).pendingText && t.flushed == FlushPending(s).flushed
    ensures Accounts(s, e, t)
  {
    FlushLength(s);
    if Conserved(s) { FlushConserves(s); }
  }

  /** Text goes missing at an overflow, as much as exceeds the cap, and at no other step. */
  predicate Accounts(s: State, e: Event, t: State) {
    && Missing(t) == Missing(s) + (if Overflows(s, e) then |s.pendingText| + |e.delta| - STREAM_BUFFER_MAX_CHARS else 0)
    && (Conserved(s) && !Overflows(s, e) ==> Conserved(t))
  }

  predicate SameText(s: State, t: State) {
    t.received == s.received && t.pendingText == s.pendingText && t.flushed == s.flushed
  }

  lemma SameTextAccounts(s: State, e: Event, t: State)
    requires !e.AssistantDelta? && SameText(s, t)
    ensures Accounts(s, e, t)
  {
  }

  /** Every other step leaves the text alone or flushes it. */
  lemma TextStep(cfg: Config, s: State, e: Event)
    requires !e.AssistantDelta?
    ensures SameText(s, Step(cfg, s, e)) || SameText(FlushPending(s), Step(cfg, s, e))
  {
  }

  lemma StepAccounts(cfg: Config, s: State, e: Event)
    ensures Accounts(s, e, Step(cfg, s, e))
  {
    if e.AssistantDelta? {
      DeltaConserves(cfg, s, e.now, e.delta, e.commentary);
    } else {
      TextStep(cfg, s, e);
      if SameText(s, Step(cfg, s, e)) {
        SameTextAccounts(s, e, Step(cfg, s, e));
      } else {
        FlushAccounts(s, e, Step(cfg, s, e));
      }
    }
  }

  predicate NeverOverflows(cfg: Config, now: int, events: seq<Event>) {
    events == [] ||
    (NeverOverflows(cfg, now, events[..|events| - 1])
     && !Overflows(Run(cfg, now, events[..|events| - 1]), events[|events| - 1]))
  }

  lemma {:induction false} AlwaysAccounts(cfg: Config, now: int, events: seq<Event>)
    ensures Missing(Run(cfg, now, events)) >= 0
    ensures NeverOverflows(cfg, now, events) <==> Missing(Run(cfg, now, events)) == 0
    ensures NeverOverflows(cfg, now, events) ==> Conserved(Run(cfg, now, events))
  {
    if events != [] {
      AlwaysAccounts(cfg, now, events[..|events| - 1]);
      StepAccounts(cfg, Run(cfg, now, events[..|events| - 1]), events[|events| - 1]);
    }
  }

  /** Main theorem. The flushed buffers and the pending text concatenate to the visible output if and
      only if no step overflowed the buffer. */
  lemma OutputIsConserved(cfg: Config, now: int, events: seq<Event>)
    ensures Conserved(Run(cfg, now, events)) <==> NeverOverflows(cfg, now, events)
  {
    AlwaysAccounts(cfg, now, events);
    var s := Run(cfg, now, events);
    assert |Concat(s.flushed) + s.pendingText| == |Concat(s.flushed)| + |s.pendingText|;
  }

  /** No delta of at most 3,781 characters overflows, as the buffer always has room for that many. */
  lemma {:induction false} ShortDeltasSuffice(cfg: Config, now: int, events: seq<Event>)
    requires forall e :: e in events && e.AssistantDelta? ==> |e.delta| <= 3781
    ensures NeverOverflows(cfg, now, events)
  {
    if events != [] {
      ShortDeltasSuffice(cfg, now, events[..|events| - 1]);
      AlwaysOrderly(cfg, now, events[..|events| - 1]);
      assert events[|events| - 1] in events;
    }
  }

  /** A first visible delta that is too long loses text. */
  lemma LongDeltaOverflows(cfg: Config, start: int, now: int, delta: string)
    requires |delta| > 4000 && !Blank(delta)
    ensures !Conserved(Run(cfg, start, [AssistantDelta(now, delta, false)]))
  {
    assert [AssistantDelta(now, delta, false)][..0] == [];
    OutputIsConserved(cfg, start, [AssistantDelta(now, delta, false)]);
  }

  lemma OnlyProgressAppend(sent: seq<Notice>, n: Notice)
    ensures OnlyProgress(sent + [n]) == OnlyProgress(sent) + if n.Progress? then [n] else []
  {
    assert (sent + [n])[..|sent|] == sent;
  }

  /** The progress notices are exactly the flushed buffers that are not blank, in order. */
  predicate Reported(sent: seq<Notice>, flushed: seq<string>) { OnlyProgress(sent) == ProgressNotices(flushed) }

  lemma FlushReports(sent: seq<Notice>, flushed: seq<string>, buffer: string)
    requires Reported(sent, flushed)
    ensures Reported(sent + ProgressOf(buffer), flushed + [buffer])
  {
    assert (flushed + [buffer])[..|flushed|] == flushed;
    if Blank(buffer) { assert sent + [] == sent; } else { OnlyProgressAppend(sent, Progress(buffer)); }
  }

  lemma EmitReports(sent: seq<Notice>, flushed: seq<string>, n: Notice)
    requires Reported(sent, flushed) && !n.Progress?
    ensures Reported(sent + [n], flushed)
  {
    OnlyProgressAppend(sent, n);
    assert OnlyProgress(sent) + [] == OnlyProgress(sent);
  }

  lemma FlushPendingReports(s: State)
    requires Reported(s.sent, s.flushed)
    ensures Reported(FlushPending(s).sent, FlushPending(s).flushed)
  {
    FlushReports(s.sent, s.flushed, s.pendingText);
  }

  lemma VisibleReports(cfg: Config, s: State, now: int, delta: string)
    requires Reported(s.sent, s.flushed)
    ensures Reported(VisibleOutput(cfg, s, now, delta).sent, VisibleOutput(cfg, s, now, delta).flushed)
  {
    EmitReports(s.sent, s.flushed, Resumed);
    var b := BufferOutput(ResumeNotice(s), now, delta);
    assert Reported(b.sent, b.flushed);
    FlushPendingReports(b);
    VisibleIs(cfg, s, now, delta);
  }

  /** Visible output is buffered, and then flushed or left waiting. */
  lemma VisibleIs(cfg: Config, s: State, now: int, delta: string)
    ensures var b, t := BufferOutput(ResumeNotice(s), now, delta), VisibleOutput(cfg, s, now, delta);
            t == FlushPending(b) || (t.sent == b.sent && t.flushed == b.flushed)
  {
  }

  lemma EndReports(s: State, n: Notice)
    requires Reported(s.sent, s.flushed) && Final(n)
    ensures var t := DisposeRelay(Emit(FlushPending(s), n)); Reported(t.sent, t.flushed)
  {
    FlushPendingReports(s);
    EmitReports(FlushPending(s).sent, FlushPending(s).flushed, n);
  }

  lemma DeltaReports(cfg: Config, s: State, now: int, delta: string, commentary: bool)
    requires Reported(s.sent, s.flushed)
    ensures var t := Step(cfg, s, AssistantDelta(now, delta, commentary)); Reported(t.sent, t.flushed)
  {
    VisibleReports(cfg, s, now, delta);
  }

  lemma StepReports(cfg: Config, s: State, e: Event)
    requires Reported(s.sent, s.flushed)
    ensures Reported(Step(cfg, s, e).sent, Step(cfg, s, e).flushed)
  {
    match e
    case AssistantDelta(now, delta, commentary) => DeltaReports(cfg, s, now, delta, commentary);
    case LifecycleEnd => EndReports(s, Done);
    case LifecycleError => EndReports(s, Failed);
    case FlushTimer => FlushPendingReports(s);
    case NoOutputPoll(now) => EmitReports(s.sent, s.flushed, Stall(StageOf(s)));
    case LifetimeTimer => EmitReports(s.sent, s.flushed, TimedOut);
    case NotifyStarted => EmitReports(s.sent, s.flushed, Started);
    case _ =>
  }

  /** Main theorem. Every flushed buffer that is not blank is reported by one progress notice, in order. */
  lemma {:induction false} AlwaysReported(cfg: Config, now: int, events: seq<Event>)
    ensures Reported(Run(cfg, now, events).sent, Run(cfg, now, events).flushed)
  {
    if events != [] {
      AlwaysReported(cfg, now, events[..|events| - 1]);
      StepReports(cfg, Run(cfg, now, events[..|events| - 1]), events[|events| - 1]);
    } else {
      EmitReports([], [], Started);
      assert [] + [Started] == [Started];
    }
  }

  /** A completed or failed relay has flushed everything before saying so; a timed-out one drops what
      it had buffered. */
  lemma CompletionFlushes(cfg: Config, s: State, e: Event)
    requires !s.disposed && (e.LifecycleEnd? || e.LifecycleError? || (e.LifetimeTimer? && s.lifetimeTimer))
    ensures var t := Step(cfg, s, e);
            && t.disposed && t.sent != [] && Final(t.sent[|t.sent| - 1])
            && t.pendingText == (if e.LifetimeTimer? then s.pendingText else "")
            && Concat(t.flushed) == Concat(s.flushed) + (if e.LifetimeTimer? then "" else s.pendingText)
  {
    if s.pendingText != "" {
      assert (s.flushed + [s.pendingText])[..|s.flushed|] == s.flushed;
    }
    assert Concat(s.flushed) + "" == Concat(s.flushed);
  }
}
