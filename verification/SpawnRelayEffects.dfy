/** What each callback of the spawn relay brings about, and what its notices say. */
module SpawnRelayEffects {
  import opened Text
  import opened SpawnRelay

  // ---------------------------------------------------------------- output

  /** The buffer once a delta has joined it: its last 4,000 characters. */
  function Joined(s: State, delta: string): string {
    var all := s.pendingText + delta;
    if |all| > 4000 then all[|all| - 4000..] else all
  }

  /** Two line breaks in a row. */
  predicate BlankLine(delta: string) {
    exists i :: 0 <= i < |delta| - 1 && delta[i] == '\n' && delta[i + 1] == '\n'
  }

  /** What visible output makes of a live relay: a stall ends with a notice before anything else; a buffer
      of 220 characters or a blank line in the delta reports the buffer at once, and anything less waits
      for the flush timer. */
  predicate OutputTaken(cfg: Config, s: State, now: int, delta: string, t: State) {
    var buffer, begun := Joined(s, delta), s.sent + if s.stallNotified then [Resumed] else [];
    && t.lastProgressAt == now && t.outputSeen && !t.stallNotified && t.received == s.received + delta
    && (if |buffer| >= 220 || BlankLine(delta) then
          && t.pendingText == "" && !t.flushTimer
          && (buffer != "" ==> t.sent == begun + if Blank(buffer) then [] else [Progress(buffer)])
        else
          && t.sent == begun && t.pendingText == buffer
          && (t.flushTimer <==> s.flushTimer || cfg.streamFlushMs > 0))
  }

  lemma VisibleIsTaken(cfg: Config, s: State, now: int, delta: string)
    requires !s.disposed
    ensures OutputTaken(cfg, s, now, delta, VisibleOutput(cfg, s, now, delta))
  {
    assert s.sent + [] == s.sent;
    assert HasBreak(delta) <==> BlankLine(delta);
    Flushes(BufferOutput(ResumeNotice(s), now, delta));
  }

  /** Main theorem. Blank deltas, and all once disposed, do nothing; commentary only counts as progress;
      and any other output is taken. */
  lemma OutputTakesEffect(cfg: Config, s: State, now: int, delta: string, commentary: bool)
    ensures var t := Step(cfg, s, AssistantDelta(now, delta, commentary));
            if s.disposed || Blank(delta) then t == s
            else if commentary then t == s.(lastProgressAt := now)
            else OutputTaken(cfg, s, now, delta, t)
  {
    if !s.disposed { VisibleIsTaken(cfg, s, now, delta); }
  }

  lemma Flushes(b: State)
    ensures var t := FlushPending(b);
            && t == b.(pendingText := "", flushTimer := false, sent := t.sent, flushed := t.flushed)
            && (b.pendingText != "" ==>
                  t.sent == b.sent + if Blank(b.pendingText) then [] else [Progress(b.pendingText)])
            && (b.pendingText == "" ==> t.sent == b.sent)
  {
  }

  /** The flush timer reports what is buffered, if it is still armed. */
  lemma TimerReports(cfg: Config, s: State)
    requires s.flushTimer && s.pendingText != ""
    ensures var t := Step(cfg, s, FlushTimer);
            && t.pendingText == "" && !t.flushTimer
            && t.sent == s.sent + if Blank(s.pendingText) then [] else [Progress(s.pendingText)]
  {
    Flushes(s);
  }

  // ---------------------------------------------------------------- silence

  /** Main theorem. A poll reports a stall exactly when the relay lives, such notices are wanted, none is
      open and nothing happened for the time given; the notice names the first stage not reached. */
  lemma SilenceIsReported(cfg: Config, s: State, now: int)
    ensures var t := Step(cfg, s, NoOutputPoll(now));
            var stage := if !s.promptSubmitted then NoPrompt else if !s.runtimeSeen then NoRuntimeEvent
                         else if !s.outputSeen then NoVisibleOutput else WaitingForInput;
            if !s.disposed && cfg.noOutputNoticeMs > 0 && !s.stallNotified
               && now - s.lastProgressAt >= cfg.noOutputNoticeMs
            then t == s.(stallNotified := true, sent := s.sent + [Stall(stage)])
            else t == s
  {
  }

  /** Submitting the prompt and runtime events count as progress until the relay is disposed. */
  lemma ProgressIsNoted(cfg: Config, s: State, now: int)
    ensures Step(cfg, s, PromptSubmitted(now))
         == if s.disposed then s else s.(promptSubmitted := true, lastProgressAt := now)
    ensures Step(cfg, s, RuntimeEvent(now)) == if s.disposed then s else s.(runtimeSeen := true, lastProgressAt := now)
  {
  }

  // ---------------------------------------------------------------- the end

  /** A live relay says how its child ended, and is disposed by it; a disposed one says nothing. */
  lemma EndsAreAnnounced(cfg: Config, s: State)
    ensures var t := Step(cfg, s, LifecycleEnd);
            if s.disposed then t == s else t.disposed && t.sent != [] && t.sent[|t.sent| - 1] == Done
    ensures var t := Step(cfg, s, LifecycleError);
            if s.disposed then t == s else t.disposed && t.sent != [] && t.sent[|t.sent| - 1] == Failed
  {
    Flushes(s);
  }

  /** The lifetime timer ends a relay only while armed, and an explicit start notice is always given. */
  lemma LifetimeEnds(cfg: Config, s: State)
    ensures var t := Step(cfg, s, LifetimeTimer);
            if s.disposed || !s.lifetimeTimer then t == s else t.disposed && t.sent == s.sent + [TimedOut]
    ensures Step(cfg, s, NotifyStarted) == s.(sent := s.sent + [Started])
    ensures Step(cfg, s, Dispose).disposed && Step(cfg, s, Dispose).sent == s.sent
  {
  }

  lemma StartIsAnnounced(cfg: Config, now: int)
    ensures Run(cfg, now, []).sent == if cfg.emitStartNotice then [Started] else []
    ensures Run(cfg, now, []).lifetimeTimer && !Run(cfg, now, []).disposed && Run(cfg, now, []).lastProgressAt == now
  {
    assert [] + [Started] == [Started];
  }

  // ---------------------------------------------------------------- what a notice says

  /** The characters that are not white space, in order. */
  function Visible(s: string): string {
    if s == "" then ""
    else Visible(s[..|s| - 1]) + if IsSpace(s[|s| - 1]) then "" else [s[|s| - 1]]
  }

  lemma VisibleNext(s: string, c: char)
    ensures Visible(s + [c]) == Visible(s) + if IsSpace(c) then "" else [c]
  {
    assert (s + [c])[..|s|] == s;
  }

  /** Compacting white space loses no other character. */
  lemma {:induction false} SqueezeKeepsText(s: string, n: nat)
    requires n <= |s|
    ensures Visible(Squeeze(s, n)) == Visible(s[..n])
  {
    if n > 0 {
      SqueezeKeepsText(s, n - 1);
      assert s[..n] == s[..n - 1] + [s[n - 1]];
      VisibleNext(s[..n - 1], s[n - 1]);
      var before := Squeeze(s, n - 1);
      if !IsSpace(s[n - 1]) {
        VisibleNext(before, s[n - 1]);
      } else {
        VisibleNext(before, ' ');
        assert before + " " == before + [' '] && Visible(before) + "" == Visible(before);
      }
    }
  }

  /** White space is left only as single spaces. */
  predicate SingleSpaced(s: string) {
    forall i :: 0 <= i < |s| && IsSpace(s[i]) ==> s[i] == ' ' && (i + 1 < |s| ==> !IsSpace(s[i + 1]))
  }

  lemma {:induction false} SqueezeIsSingleSpaced(s: string, n: nat)
    requires n <= |s|
    ensures SingleSpaced(Squeeze(s, n))
    ensures var r := Squeeze(s, n); n > 0 ==> r != "" && (IsSpace(r[|r| - 1]) <==> IsSpace(s[n - 1]))
  {
    if n > 0 {
      SqueezeIsSingleSpaced(s, n - 1);
      assert IsSpace(' ');
    }
  }

  lemma {:induction false} BlankIsInvisible(s: string)
    requires Blank(s)
    ensures Visible(s) == ""
  {
    if s != "" { BlankIsInvisible(s[..|s| - 1]); }
  }

  lemma {:induction false} VisibleAppend(a: string, b: string)
    ensures Visible(a + b) == Visible(a) + Visible(b)
  {
    if b == "" {
      assert a + b == a;
    } else {
      VisibleAppend(a, b[..|b| - 1]);
      assert (a + b)[..|a + b| - 1] == a + b[..|b| - 1];
    }
  }

  lemma BlankEndsAreInvisible(left: string, mid: string, right: string)
    requires Blank(left) && Blank(right)
    ensures Visible(left + mid + right) == Visible(mid)
  {
    BlankIsInvisible(left);
    BlankIsInvisible(right);
    VisibleAppend(left, mid);
    VisibleAppend(left + mid, right);
    assert "" + Visible(mid) + "" == Visible(mid);
  }

  lemma MiddleIsSingleSpaced(left: string, mid: string, right: string)
    requires SingleSpaced(left + mid + right)
    ensures SingleSpaced(mid)
  {
    assert forall i :: 0 <= i < |mid| ==> mid[i] == (left + mid + right)[|left| + i];
  }

  /** Main theorem. A notice shows the buffer with its white space compacted to single spaces, and no
      other character is lost unless it is longer than 220; then it shows 219 and an ellipsis. */
  lemma SnippetShowsBuffer(buffer: string)
    ensures var compact := CompactWhitespace(buffer);
            && Visible(compact) == Visible(buffer) && SingleSpaced(compact)
            && Snippet(buffer) == if |compact| <= 220 then compact else compact[..219] + "\U{2026}"
  {
    var squeezed := Squeeze(buffer, |buffer|);
    SqueezeKeepsText(buffer, |buffer|);
    SqueezeIsSingleSpaced(buffer, |buffer|);
    assert buffer[..|buffer|] == buffer;
    var left, right := TrimParts(squeezed);
    BlankEndsAreInvisible(left, Trim(squeezed), right);
    MiddleIsSingleSpaced(left, Trim(squeezed), right);
  }
}
