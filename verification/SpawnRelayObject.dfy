/** The relay's closure variables and callbacks. A valid relay is in the state its history of events
    leads to, so the theorems about runs hold of it. */
module SpawnRelayObject {
  import opened Options
  import opened Text
  import opened SpawnRelay
  import opened SpawnRelayLifecycle

  class AcpSpawnParentStreamRelay {
    const config: Config
    const relayLabel: string
    var disposed: bool
    var pendingText: string
    var lastProgressAt: int
    var stallNotified: bool
    var promptSubmitted: bool
    var runtimeSeen: bool
    var outputSeen: bool
    var flushTimerArmed: bool
    var lifetimeTimerArmed: bool
    ghost var sent: seq<Notice>
    ghost var received: string
    ghost var flushed: seq<string>
    ghost const startedAt: int
    ghost var history: seq<Event>

    ghost predicate Valid()
      reads this
    {
      View() == Run(config, startedAt, history)
    }

    ghost function View(): State
      reads this
    {
      State(disposed, pendingText, lastProgressAt, stallNotified, promptSubmitted, runtimeSeen, outputSeen,
            flushTimerArmed, lifetimeTimerArmed, sent, received, flushed)
    }

    constructor (config: Config, relayLabel: string, now: int)
      ensures this.config == config && this.relayLabel == relayLabel && startedAt == now
      ensures Valid() && history == []
    {
      this.config, this.relayLabel, startedAt, history := config, relayLabel, now, [];
      disposed, pendingText, lastProgressAt, stallNotified := false, "", now, false;
      promptSubmitted, runtimeSeen, outputSeen := false, false, false;
      flushTimerArmed, lifetimeTimerArmed := false, true;
      sent, received, flushed := if config.emitStartNotice then [Started] else [], "", [];
    }

    /** `e` led from `before`, where the history leads, to the present state. */
    ghost method Record(before: State, e: Event)
      requires View() == Step(config, before, e)
      requires before == Run(config, startedAt, history)
      modifies this`history
      ensures Valid() && history == old(history) + [e]
    {
      assert (history + [e])[..|history|] == history;
      history := history + [e];
    }

    // -------------------------------------------------------------- what a valid relay guarantees

    /** At most one final notice, and a resumed notice between two stalls. */
    lemma NoticesAreOrderly(i: nat, j: nat)
      requires Valid() && i < j < |sent|
      ensures !(Final(sent[i]) && Final(sent[j]))
      ensures sent[i].Stall? && sent[j].Stall? ==> exists k :: i < k < j && sent[k].Resumed?
    {
      if Final(sent[i]) && Final(sent[j]) { OneFinalNotice(config, startedAt, history, i, j); }
      AlwaysOrderly(config, startedAt, history);
      if sent[i].Stall? && sent[j].Stall? { ResumedBetweenStalls(sent, stallNotified, i, j); }
    }

    /** Each flushed buffer that is not blank was reported once, in order, and nothing else is lost but
        what overflowed. */
    lemma OutputIsReported()
      requires Valid()
      ensures OnlyProgress(sent) == ProgressNotices(flushed)
      ensures Concat(flushed) + pendingText == received <==> NeverOverflows(config, startedAt, history)
      ensures |pendingText| < STREAM_SNIPPET_MAX_CHARS
      ensures pendingText != "" && !disposed && config.streamFlushMs > 0 ==> flushTimerArmed
    {
      AlwaysReported(config, startedAt, history);
      OutputIsConserved(config, startedAt, history);
      AlwaysOrderly(config, startedAt, history);
    }

    // -------------------------------------------------------------- internal operations

    /** `flushPending`; `text` is the notice it emits, if any. */
    method FlushPending() returns (text: Option<string>)
      modifies this`flushTimerArmed, this`pendingText, this`sent, this`flushed
      ensures View() == SpawnRelay.FlushPending(old(View()))
      ensures text == if Blank(old(pendingText)) then None else Some(ProgressText(relayLabel, old(pendingText)))
    {
      flushTimerArmed := false;
      text := None;
      if pendingText == "" {
        return;
      }
      SnippetFacts(pendingText);
      var snippet := Snippet(pendingText);
      if snippet != "" {
        text := Some(relayLabel + ": " + snippet);
        sent := sent + [Progress(pendingText)];
      }
      flushed := flushed + [pendingText];
      pendingText := "";
    }

    method ScheduleFlush()
      modifies this`flushTimerArmed
      ensures View() == SpawnRelay.ScheduleFlush(config, old(View()))
    {
      if disposed || flushTimerArmed || config.streamFlushMs <= 0 {
        return;
      }
      flushTimerArmed := true;
    }

    method DisposeNow()
      modifies this`disposed, this`flushTimerArmed, this`lifetimeTimerArmed
      ensures View() == DisposeRelay(old(View()))
    {
      if disposed {
        return;
      }
      disposed := true;
      flushTimerArmed := false;
      lifetimeTimerArmed := false;
    }

    method OnVisibleOutput(now: int, delta: string)
      modifies this`stallNotified, this`lastProgressAt, this`outputSeen, this`pendingText, this`flushTimerArmed,
               this`sent, this`received, this`flushed
      ensures View() == VisibleOutput(config, old(View()), now, delta)
    {
      NoticeResumed();
      BufferOutput(now, delta);
      if |pendingText| >= STREAM_SNIPPET_MAX_CHARS || HasBreak(delta) {
        var _ := FlushPending();
        return;
      }
      ScheduleFlush();
    }

    method NoticeResumed()
      modifies this`stallNotified, this`sent
      ensures View() == ResumeNotice(old(View()))
    {
      if stallNotified {
        stallNotified := false;
        sent := sent + [Resumed];
      }
    }

    method BufferOutput(now: int, delta: string)
      modifies this`lastProgressAt, this`outputSeen, this`received, this`pendingText
      ensures View() == SpawnRelay.BufferOutput(old(View()), now, delta)
    {
      lastProgressAt := now;
      outputSeen := true;
      received := received + delta;
      pendingText := pendingText + delta;
      if |pendingText| > STREAM_BUFFER_MAX_CHARS {
        pendingText := pendingText[|pendingText| - STREAM_BUFFER_MAX_CHARS..];
      }
    }

    method FlushAndFinish(notice: Notice)
      requires !disposed
      modifies this`disposed, this`flushTimerArmed, this`lifetimeTimerArmed, this`pendingText, this`sent, this`flushed
      ensures View() == DisposeRelay(Emit(SpawnRelay.FlushPending(old(View())), notice))
    {
      var _ := FlushPending();
      Announce(notice);
      DisposeNow();
    }

    method Announce(notice: Notice)
      modifies this`sent
      ensures View() == Emit(old(View()), notice)
    {
      sent := sent + [notice];
    }

    method StallStage() returns (stage: Stage)
      ensures stage == StageOf(View())
    {
      return if !promptSubmitted then NoPrompt
             else if !runtimeSeen then NoRuntimeEvent
             else if !outputSeen then NoVisibleOutput
             else WaitingForInput;
    }

    // -------------------------------------------------------------- callbacks

    method OnAssistantDelta(now: int, delta: string, commentary: bool)
      requires Valid()
      modifies this
      ensures Valid() && history == old(history) + [AssistantDelta(now, delta, commentary)]
    {
      ghost var before := View();
      if !disposed && !Blank(delta) {
        if commentary {
          lastProgressAt := now;
        } else {
          OnVisibleOutput(now, delta);
        }
      }
      Record(before, AssistantDelta(now, delta, commentary));
    }

    method OnPromptSubmitted(now: int)
      requires Valid()
      modifies this`promptSubmitted, this`lastProgressAt, this`history
      ensures Valid() && history == old(history) + [PromptSubmitted(now)]
    {
      ghost var before := View();
      if !disposed {
        promptSubmitted := true;
        lastProgressAt := now;
      }
      Record(before, PromptSubmitted(now));
    }

    method OnRuntimeEvent(now: int)
      requires Valid()
      modifies this`runtimeSeen, this`lastProgressAt, this`history
      ensures Valid() && history == old(history) + [RuntimeEvent(now)]
    {
      ghost var before := View();
      if !disposed {
        runtimeSeen := true;
        lastProgressAt := now;
      }
      Record(before, RuntimeEvent(now));
    }

    method OnLifecycle(failed: bool)
      requires Valid()
      modifies this
      ensures Valid() && history == old(history) + [if failed then LifecycleError else LifecycleEnd]
    {
      ghost var before := View();
      if !disposed {
        FlushAndFinish(if failed then Failed else Done);
      }
      Record(before, if failed then LifecycleError else LifecycleEnd);
    }

    method OnFlushTimer()
      requires Valid()
      modifies this`flushTimerArmed, this`pendingText, this`sent, this`flushed, this`history
      ensures Valid() && history == old(history) + [FlushTimer]
    {
      ghost var before := View();
      if flushTimerArmed {
        var _ := FlushPending();
      }
      Record(before, FlushTimer);
    }

    method OnNoOutputPoll(now: int)
      requires Valid()
      modifies this`stallNotified, this`sent, this`history
      ensures Valid() && history == old(history) + [NoOutputPoll(now)]
    {
      ghost var before := View();
      var stage := StallStage();
      if !disposed && config.noOutputNoticeMs > 0 && !stallNotified
         && now - lastProgressAt >= config.noOutputNoticeMs {
        stallNotified := true;
        Announce(Stall(stage));
      }
      Record(before, NoOutputPoll(now));
    }

    method OnLifetimeTimer()
      requires Valid()
      modifies this
      ensures Valid() && history == old(history) + [LifetimeTimer]
    {
      ghost var before := View();
      if lifetimeTimerArmed && !disposed {
        Announce(TimedOut);
        DisposeNow();
      }
      Record(before, LifetimeTimer);
    }

    method EmitStartNotice()
      requires Valid()
      modifies this`sent, this`history
      ensures Valid() && history == old(history) + [NotifyStarted]
    {
      ghost var before := View();
      Announce(Started);
      Record(before, NotifyStarted);
    }

    method DisposeRequested()
      requires Valid()
      modifies this`disposed, this`flushTimerArmed, this`lifetimeTimerArmed, this`history
      ensures Valid() && history == old(history) + [Dispose]
    {
      ghost var before := View();
      DisposeNow();
      Record(before, Dispose);
    }
  }
}
