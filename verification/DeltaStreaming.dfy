/** From assistant snapshots to streamed chunks (`handleDeltaEvent` in src/acp/translator.ts). */
module DeltaStreaming {
  import opened Options
  import opened Text
  import Sequences

  datatype Block = TextBlock(text: Option<string>) | ThinkingBlock(thinking: Option<string>) | OtherBlock

  datatype Kind = Thought | Message

  type Content = seq<Block>

  function Part(b: Block, kind: Kind): seq<string> {
    match (b, kind)
    case (TextBlock(t), Message) => [t.GetOr("")]
    case (ThinkingBlock(t), Thought) => [t.GetOr("")]
    case _ => []
  }

  /** `content.filter(...).map(...)` for one kind of block. */
  function Parts(content: Content, kind: Kind): seq<string> {
    if content == [] then []
    else Parts(content[..|content| - 1], kind) + Part(content[|content| - 1], kind)
  }

  function RawSnapshot(content: Content, kind: Kind): string { Join(Parts(content, kind), "\n") }

  function Snapshot(content: Content, kind: Kind): string { TrimEnd(RawSnapshot(content, kind)) }

  /** One stream of a prompt: the length sent so far and, as history, the chunks emitted, joined,
      and the events processed. */
  datatype Stream = Stream(sentLength: nat, emitted: string, processed: seq<Content>)

  function Emit(st: Stream, content: Content, kind: Kind): Stream {
    var full := Snapshot(content, kind);
    if |full| > st.sentLength
    then Stream(|full|, st.emitted + full[st.sentLength..], st.processed + [content])
    else st.(processed := st.processed + [content])
  }

  /** Events of one prompt. `suspended` holds those awaiting the delivery of their thought chunk;
      `arrived` is history. */
  datatype State = State(thought: Stream, message: Stream, suspended: seq<Content>, arrived: seq<Content>)

  const Initial := State(Stream(0, "", []), Stream(0, "", []), [], [])

  datatype Event = Delta(content: Content) | ThoughtDelivered(index: nat)

  function Step(s: State, e: Event): State {
    match e
    case Delta(content) =>
      var full := Snapshot(content, Thought);
      var s1 := s.(thought := Emit(s.thought, content, Thought), arrived := s.arrived + [content]);
      if |full| > s.thought.sentLength then s1.(suspended := s1.suspended + [content])
      else s1.(message := Emit(s1.message, content, Message))
    case ThoughtDelivered(i) =>
      if i >= |s.suspended| then s
      else
        s.(message := Emit(s.message, s.suspended[i], Message),
           suspended := s.suspended[..i] + s.suspended[i + 1..])
  }

  function Run(events: seq<Event>): State {
    if events == [] then Initial else Step(Run(events[..|events| - 1]), events[|events| - 1])
  }

  // ---------------------------------------------------------------- prefixes

  predicate Comparable(a: string, b: string) { a <= b || b <= a }

  /** Right-trimming preserves the prefix order. */
  lemma TrimEndMonotone(a: string, b: string)
    requires a <= b
    ensures TrimEnd(a) <= TrimEnd(b)
  {
    var t, u := TrimEnd(a), TrimEnd(b);
    TrimmedOffIsSpace(b, |b|);
    if t != "" {
      assert b[|t| - 1] == a[|t| - 1] == t[|t| - 1];
      assert |u| >= |t|;
    }
  }

  /** A block may grow at its tail, keeping its type. */
  predicate BlockGrows(a: Block, b: Block) {
    match (a, b)
    case (TextBlock(s), TextBlock(t)) => s.GetOr("") <= t.GetOr("")
    case (ThinkingBlock(s), ThinkingBlock(t)) => s.GetOr("") <= t.GetOr("")
    case _ => a == b
  }

  /** `b` continues `a`: earlier blocks are final, the last one may grow, new ones may follow. */
  predicate Grows(a: Content, b: Content) {
    && |a| <= |b|
    && (a != [] ==> a[..|a| - 1] == b[..|a| - 1] && BlockGrows(a[|a| - 1], b[|a| - 1]))
  }

  predicate PartsGrow(p: seq<string>, q: seq<string>) {
    && |p| <= |q|
    && (p != [] ==> p[..|p| - 1] == q[..|p| - 1] && p[|p| - 1] <= q[|p| - 1])
  }

  lemma {:induction false} JoinGrows(p: seq<string>, q: seq<string>)
    requires PartsGrow(p, q)
    ensures Join(p, "\n") <= Join(q, "\n")
    decreases |q|
  {
    if p != [] {
      if |p| < |q| {
        var init := q[..|q| - 1];
        assert init[..|p| - 1] == q[..|p| - 1];
        JoinGrows(p, init);
        assert Join(init, "\n") <= Join(q, "\n");
      } else if |p| > 1 {
        assert p[..|p| - 1] == q[..|q| - 1];
      }
    }
  }

  lemma {:induction false} PartsGrowWithContent(a: Content, b: Content, kind: Kind)
    requires Grows(a, b)
    ensures PartsGrow(Parts(a, kind), Parts(b, kind))
    decreases |b|
  {
    var pa, pb := Parts(a, kind), Parts(b, kind);
    if a != [] {
      var init := b[..|b| - 1];
      if |a| < |b| {
        assert init[..|a| - 1] == b[..|a| - 1];
        PartsGrowWithContent(a, init, kind);
        var pi := Parts(init, kind);
        assert pb == pi + Part(b[|b| - 1], kind);
        if pa != [] { assert pb[..|pa| - 1] == pi[..|pa| - 1]; }
      } else {
        assert a[..|a| - 1] == init;
        var pi := Parts(init, kind);
        assert pa == pi + Part(a[|a| - 1], kind) && pb == pi + Part(b[|b| - 1], kind);
        if pa != [] { assert pa[..|pa| - 1] == pb[..|pa| - 1]; }
      }
    }
  }

  /** Growth of the content at its tail survives the filter, the join and the trim. */
  lemma GrowthKeepsPrefixes(a: Content, b: Content, kind: Kind)
    requires Grows(a, b)
    ensures RawSnapshot(a, kind) <= RawSnapshot(b, kind)
    ensures Snapshot(a, kind) <= Snapshot(b, kind)
  {
    PartsGrowWithContent(a, b, kind);
    JoinGrows(Parts(a, kind), Parts(b, kind));
    TrimEndMonotone(RawSnapshot(a, kind), RawSnapshot(b, kind));
  }

  // ---------------------------------------------------------------- which block goes where

  lemma {:induction false} PartsAppend(a: Content, b: Content, kind: Kind)
    ensures Parts(a + b, kind) == Parts(a, kind) + Parts(b, kind)
  {
    if b == [] {
      assert a + b == a;
    } else {
      var init := b[..|b| - 1];
      PartsAppend(a, init, kind);
      assert (a + b)[..|a + b| - 1] == a + init;
      Sequences.AppendAssociative(Parts(a, kind), Parts(init, kind), Part(b[|b| - 1], kind));
    }
  }

  /** Main theorem. Text blocks make up the message and thinking blocks the thought, each on its own
      lines and in order; no block shows in the other stream, and blocks of other types in neither. */
  lemma BlocksGoWhere(a: Content, b: Content, text: Option<string>)
    ensures Parts(a + [TextBlock(text)] + b, Message) == Parts(a, Message) + [text.GetOr("")] + Parts(b, Message)
    ensures Parts(a + [ThinkingBlock(text)] + b, Thought) == Parts(a, Thought) + [text.GetOr("")] + Parts(b, Thought)
    ensures Snapshot(a + [TextBlock(text)] + b, Thought) == Snapshot(a + b, Thought)
    ensures Snapshot(a + [ThinkingBlock(text)] + b, Message) == Snapshot(a + b, Message)
    ensures forall kind: Kind :: Snapshot(a + [OtherBlock] + b, kind) == Snapshot(a + b, kind)
  {
    OneBlock(a, TextBlock(text), b, Message);
    OneBlock(a, TextBlock(text), b, Thought);
    OneBlock(a, ThinkingBlock(text), b, Message);
    OneBlock(a, ThinkingBlock(text), b, Thought);
    OneBlock(a, OtherBlock, b, Message);
    OneBlock(a, OtherBlock, b, Thought);
    forall kind: Kind ensures Snapshot(a + [OtherBlock] + b, kind) == Snapshot(a + b, kind) {
      match kind case Thought => case Message =>
    }
  }

  lemma OneBlock(a: Content, x: Block, b: Content, kind: Kind)
    ensures Parts(a + [x] + b, kind) == Parts(a, kind) + Part(x, kind) + Parts(b, kind)
    ensures Part(x, kind) == [] ==> Parts(a + [x] + b, kind) == Parts(a + b, kind)
  {
    PartsAppend(a + [x], b, kind);
    PartsAppend(a, [x], kind);
    PartsAppend(a, b, kind);
    assert [x][..0] == [];
    assert Parts([x], kind) == Part(x, kind);
    assert Parts(a, kind) + [] == Parts(a, kind);
  }

  /** Two texts are two lines. */
  lemma TextsAreLines(first: string, second: string)
    ensures RawSnapshot([TextBlock(Some(first)), TextBlock(Some(second))], Message) == first + "\n" + second
  {
    OneBlock([], TextBlock(Some(first)), [TextBlock(Some(second))], Message);
    OneBlock([], TextBlock(Some(second)), [], Message);
    assert [] + [TextBlock(Some(first))] + [TextBlock(Some(second))]
        == [TextBlock(Some(first)), TextBlock(Some(second))];
    assert [] + [TextBlock(Some(second))] + [] == [TextBlock(Some(second))];
    assert Parts([TextBlock(Some(first)), TextBlock(Some(second))], Message) == [first, second];
    assert [first, second][..1] == [first];
    assert Join([first, second], "\n") == Join([first], "\n") + "\n" + second;
  }

  // ---------------------------------------------------------------- what the client sees

  /** The emitted text is the longest snapshot processed: nothing repeated, nothing lost. */
  ghost predicate UpToDate(st: Stream, kind: Kind) {
    && st.sentLength == |st.emitted|
    && (st.emitted == "" || exists c :: c in st.processed && Snapshot(c, kind) == st.emitted)
    && (forall c :: c in st.processed ==> Snapshot(c, kind) <= st.emitted)
  }

  /** Of any two snapshots one continues the other, in whatever order they came. */
  ghost predicate PrefixChain(contents: seq<Content>, kind: Kind) {
    forall a, b :: a in contents && b in contents ==> Comparable(Snapshot(a, kind), Snapshot(b, kind))
  }

  lemma PrefixTransitive(a: string, b: string, c: string)
    requires a <= b && b <= c
    ensures a <= c
  {
  }

  lemma PrefixesComparable(a: string, b: string, c: string)
    requires a <= c && b <= c
    ensures Comparable(a, b)
  {
  }

  lemma EmitComparable(st: Stream, content: Content, kind: Kind)
    requires UpToDate(st, kind) && Comparable(st.emitted, Snapshot(content, kind))
    ensures UpToDate(Emit(st, content, kind), kind)
  {
    var t, full := Emit(st, content, kind), Snapshot(content, kind);
    if |full| > st.sentLength { assert st.emitted + full[st.sentLength..] == full; }
    assert content in t.processed;
    forall c | c in t.processed ensures Snapshot(c, kind) <= t.emitted {
      if c in st.processed { PrefixTransitive(Snapshot(c, kind), st.emitted, t.emitted); }
    }
    if t.emitted == st.emitted && t.emitted != "" {
      var c :| c in st.processed && Snapshot(c, kind) == st.emitted;
      assert c in t.processed;
    }
  }

  /** Slicing by the sent length is right exactly for a snapshot that continues what was sent, or that
      what was sent continues. */
  lemma EmitExact(st: Stream, content: Content, kind: Kind)
    requires UpToDate(st, kind)
    ensures UpToDate(Emit(st, content, kind), kind) <==> Comparable(st.emitted, Snapshot(content, kind))
  {
    var t := Emit(st, content, kind);
    if Comparable(st.emitted, Snapshot(content, kind)) {
      EmitComparable(st, content, kind);
    } else if UpToDate(t, kind) {
      assert content in t.processed;
      PrefixesComparable(st.emitted, Snapshot(content, kind), t.emitted);
    }
  }

  /** The stream is right, or some pair of its snapshots diverges. */
  ghost predicate Exact(st: Stream, kind: Kind) { UpToDate(st, kind) <==> PrefixChain(st.processed, kind) }

  lemma UpToDateChain(st: Stream, kind: Kind)
    requires UpToDate(st, kind)
    ensures PrefixChain(st.processed, kind)
  {
    forall a, b | a in st.processed && b in st.processed
      ensures Comparable(Snapshot(a, kind), Snapshot(b, kind))
    {
      PrefixesComparable(Snapshot(a, kind), Snapshot(b, kind), st.emitted);
    }
  }

  lemma EmitStaysExact(st: Stream, content: Content, kind: Kind)
    requires Exact(st, kind)
    ensures Exact(Emit(st, content, kind), kind)
  {
    var t := Emit(st, content, kind);
    if PrefixChain(t.processed, kind) {
      assert forall c :: c in st.processed ==> c in t.processed;
      assert content in t.processed;
      assert Comparable(st.emitted, Snapshot(content, kind));
      EmitExact(st, content, kind);
    } else if UpToDate(t, kind) {
      UpToDateChain(t, kind);
    }
  }

  /** A message waits for the delivery of its event's thought; without a new thought it is sent at once. */
  lemma ThoughtComesFirst(s: State, content: Content)
    ensures var t := Step(s, Delta(content));
            if |Snapshot(content, Thought)| > s.thought.sentLength then
              t.message == s.message && t.suspended == s.suspended + [content]
            else
              t.message == Emit(s.message, content, Message) && t.suspended == s.suspended
              && t.thought.emitted == s.thought.emitted
  {
  }

  /** Every arrived event has passed the thought stage, and the message stage unless suspended. */
  ghost predicate Progress(s: State) {
    && (forall c :: c in s.suspended || c in s.thought.processed || c in s.message.processed ==> c in s.arrived)
    && (forall c :: c in s.arrived ==> c in s.thought.processed)
    && (forall c :: c in s.arrived ==> c in s.suspended || c in s.message.processed)
  }

  lemma StepProgress(s: State, e: Event)
    requires Progress(s)
    ensures Progress(Step(s, e))
  {
    if e.ThoughtDelivered? && e.index < |s.suspended| {
      var i, t := e.index, Step(s, e);
      assert t.message.processed == s.message.processed + [s.suspended[i]];
      forall d | d in s.suspended && d != s.suspended[i] ensures d in t.suspended {
        var k :| 0 <= k < |s.suspended| && s.suspended[k] == d;
        assert if k < i then t.suspended[k] == d else t.suspended[k - 1] == d;
      }
    }
  }

  lemma StepExact(s: State, e: Event)
    requires Exact(s.thought, Thought) && Exact(s.message, Message)
    ensures Exact(Step(s, e).thought, Thought) && Exact(Step(s, e).message, Message)
  {
    match e
    case Delta(c) =>
      EmitStaysExact(s.thought, c, Thought);
      EmitStaysExact(s.message, c, Message);
    case ThoughtDelivered(i) =>
      if i < |s.suspended| { EmitStaysExact(s.message, s.suspended[i], Message); }
  }

  /** Main theorem. In any order and with the thought and message stages of different events
      interleaved, each stream has emitted exactly the longest right-trimmed snapshot it processed if
      and only if those snapshots form a prefix chain. */
  lemma {:induction false} StreamsTheLongestSnapshot(events: seq<Event>)
    ensures Progress(Run(events))
    ensures Exact(Run(events).thought, Thought) && Exact(Run(events).message, Message)
  {
    if events != [] {
      var before := events[..|events| - 1];
      StreamsTheLongestSnapshot(before);
      StepProgress(Run(before), events[|events| - 1]);
      StepExact(Run(before), events[|events| - 1]);
    }
  }

  function StreamOf(s: State, kind: Kind): Stream { if kind == Thought then s.thought else s.message }

  /** Once no event is suspended, what was sent is the longest snapshot that ever arrived and every
      other is a prefix of it, so the client has the whole latest text, once; exactly when the arrived
      snapshots form a prefix chain. */
  lemma NothingLost(events: seq<Event>, kind: Kind)
    requires Run(events).suspended == []
    ensures var s, emitted := Run(events), StreamOf(Run(events), kind).emitted;
            PrefixChain(s.arrived, kind) <==>
              && (forall c :: c in s.arrived ==> Snapshot(c, kind) <= emitted)
              && (emitted == "" || exists c :: c in s.arrived && Snapshot(c, kind) == emitted)
  {
    StreamsTheLongestSnapshot(events);
    SentLengths(events);
    var s := Run(events);
    var st := StreamOf(s, kind);
    assert forall c :: c in s.arrived <==> c in st.processed;
    assert PrefixChain(s.arrived, kind) <==> PrefixChain(st.processed, kind);
  }

  predicate LengthsAgree(s: State) {
    s.thought.sentLength == |s.thought.emitted| && s.message.sentLength == |s.message.emitted|
  }

  lemma EmitLength(st: Stream, content: Content, kind: Kind)
    requires st.sentLength == |st.emitted|
    ensures var t := Emit(st, content, kind); t.sentLength == |t.emitted|
  {
  }

  lemma StepLengths(s: State, e: Event)
    requires LengthsAgree(s)
    ensures LengthsAgree(Step(s, e))
  {
    match e
    case Delta(c) =>
      EmitLength(s.thought, c, Thought);
      EmitLength(s.message, c, Message);
    case ThoughtDelivered(i) => if i < |s.suspended| { EmitLength(s.message, s.suspended[i], Message); }
  }

  lemma {:induction false} SentLengths(events: seq<Event>)
    ensures LengthsAgree(Run(events))
  {
    if events != [] {
      SentLengths(events[..|events| - 1]);
      StepLengths(Run(events[..|events| - 1]), events[|events| - 1]);
    }
  }

  /** Contents that only ever grow at the tail form such a chain. */
  lemma GrowingContentsChain(arrived: seq<Content>, kind: Kind)
    requires forall a, b :: a in arrived && b in arrived ==> Grows(a, b) || Grows(b, a)
    ensures PrefixChain(arrived, kind)
  {
    forall a, b | a in arrived && b in arrived ensures Comparable(Snapshot(a, kind), Snapshot(b, kind)) {
      if Grows(a, b) { GrowthKeepsPrefixes(a, b, kind); } else { GrowthKeepsPrefixes(b, a, kind); }
    }
  }

  /** Content that is one text block. */
  function OneText(t: string): Content { [TextBlock(Some(t))] }

  lemma OneTextSnapshots(t: string)
    ensures Snapshot(OneText(t), Message) == TrimEnd(t)
    ensures Snapshot(OneText(t), Thought) == ""
  {
    assert OneText(t)[..0] == [];
    assert Parts(OneText(t), Message) == [t] && Parts(OneText(t), Thought) == [];
  }

  lemma RunText(events: seq<Event>, t: string)
    requires Run(events).thought.sentLength == 0
    ensures Run(events + [Delta(OneText(t))]).message == Emit(Run(events).message, OneText(t), Message)
    ensures Run(events + [Delta(OneText(t))]).thought.sentLength == 0
  {
    assert (events + [Delta(OneText(t))])[..|events|] == events;
    OneTextSnapshots(t);
  }

  /** What a stream that has sent `first` makes of a text that replaces it. */
  function Grafted(first: string, second: string): string {
    if |second| > |first| then first + second[|first|..] else first
  }

  lemma GraftedIsWrong(first: string, second: string)
    requires !Comparable(first, second)
    ensures Grafted(first, second) != second
  {
    if |second| > |first| { assert Grafted(first, second)[..|first|] == first; }
  }

  lemma EmitGrafts(st: Stream, t: string)
    requires st.sentLength == |st.emitted| && TrimEnd(t) == t
    ensures Emit(st, OneText(t), Message).emitted == Grafted(st.emitted, t)
  {
    OneTextSnapshots(t);
  }

  /** A snapshot that replaces the text is not streamed: a longer one is grafted onto what was sent, and
      one that is no longer is dropped. */
  lemma ReplacedTextIsStreamedWrongly(first: string, second: string)
    requires TrimEnd(first) == first && TrimEnd(second) == second && !Comparable(first, second)
    ensures var events := [] + [Delta(OneText(first))] + [Delta(OneText(second))];
            Run(events).message.emitted == Grafted(first, second) != second
  {
    RunText([], first);
    RunText([] + [Delta(OneText(first))], second);
    EmitGrafts(Initial.message, first);
    EmitLength(Initial.message, OneText(first), Message);
    assert Grafted("", first) == first by { assert "" + first[0..] == first; }
    EmitGrafts(Run([] + [Delta(OneText(first))]).message, second);
    GraftedIsWrong(first, second);
  }

  // ---------------------------------------------------------------- the pending prompt's fields

  /** A valid prompt has streamed what its history of events says. */
  class PromptStreams {
    var sentThoughtLength: nat
    var sentTextLength: nat
    var suspended: seq<Content>
    ghost var thoughts: Stream
    ghost var messages: Stream
    ghost var arrived: seq<Content>
    ghost var history: seq<Event>

    ghost predicate Valid()
      reads this
    {
      && thoughts.sentLength == sentThoughtLength && messages.sentLength == sentTextLength
      && View() == Run(history)
    }

    ghost function View(): State
      reads this
    {
      State(thoughts, messages, suspended, arrived)
    }

    constructor ()
      ensures Valid() && history == []
    {
      history := [];
      sentThoughtLength, sentTextLength, suspended := 0, 0, [];
      thoughts, messages, arrived := Stream(0, "", []), Stream(0, "", []), [];
    }

    /** `e` led from `before`, where the history leads, to the present state. */
    ghost method Record(before: State, e: Event)
      requires View() == Step(before, e)
      requires before == Run(history)
      requires thoughts.sentLength == sentThoughtLength && messages.sentLength == sentTextLength
      modifies this`history
      ensures Valid() && history == old(history) + [e]
    {
      assert (history + [e])[..|history|] == history;
      history := history + [e];
    }

    /** What the client was sent is the longest snapshot, and holds every other, exactly when the
        snapshots that arrived form a prefix chain. */
    lemma StreamsAreExact(kind: Kind)
      requires Valid() && suspended == []
      ensures var emitted := if kind == Thought then thoughts.emitted else messages.emitted;
              PrefixChain(arrived, kind) <==>
                && (forall c :: c in arrived ==> Snapshot(c, kind) <= emitted)
                && (emitted == "" || exists c :: c in arrived && Snapshot(c, kind) == emitted)
    {
      NothingLost(history, kind);
      assert StreamOf(View(), kind).emitted == if kind == Thought then thoughts.emitted else messages.emitted;
    }

    /** `handleDeltaEvent` up to the `await` on its thought chunk, or to its end. */
    method HandleDelta(content: Content) returns (thoughtChunk: string, messageChunk: string)
      requires Valid()
      modifies this
      ensures Valid() && history == old(history) + [Delta(content)]
      ensures thoughts.emitted == old(thoughts.emitted) + thoughtChunk
      ensures messages.emitted == old(messages.emitted) + messageChunk
    {
      ghost var before := View();
      thoughtChunk, messageChunk := "", "";
      arrived := arrived + [content];
      var fullThought := Snapshot(content, Thought);
      thoughts := Emit(thoughts, content, Thought);
      if |fullThought| > sentThoughtLength {
        thoughtChunk := fullThought[sentThoughtLength..];
        sentThoughtLength := |fullThought|;
        suspended := suspended + [content];
      } else {
        messageChunk := EmitMessage(content);
      }
      Record(before, Delta(content));
    }

    /** The message stage. */
    method EmitMessage(content: Content) returns (chunk: string)
      requires messages.sentLength == sentTextLength
      modifies this`sentTextLength, this`messages
      ensures messages.sentLength == sentTextLength && messages == Emit(old(messages), content, Message)
      ensures messages.emitted == old(messages.emitted) + chunk
    {
      chunk := "";
      var fullText := Snapshot(content, Message);
      messages := Emit(messages, content, Message);
      if |fullText| <= sentTextLength {
        return;
      }
      chunk := fullText[sentTextLength..];
      sentTextLength := |fullText|;
    }

    /** The thought chunk of a suspended event was delivered; its message stage follows. */
    method OnThoughtDelivered(i: nat) returns (chunk: string)
      requires Valid() && i < |suspended|
      modifies this
      ensures Valid() && history == old(history) + [ThoughtDelivered(i)]
      ensures messages.emitted == old(messages.emitted) + chunk
    {
      ghost var before := View();
      var content := suspended[i];
      suspended := suspended[..i] + suspended[i + 1..];
      chunk := EmitMessage(content);
      Record(before, ThoughtDelivered(i));
    }
  }
}
