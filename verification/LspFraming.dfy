/** Content-Length framing of the Language Server Protocol 3.17 Base Protocol
    (src/agents/agent-bundle-lsp-runtime.ts): an incremental parser and its printer. */
module LspFraming {
  import opened Options
  import opened Json
  import opened Sequences

  type Byte = x: int | 0 <= x < 256
  type Bytes = seq<Byte>

  /** `JSON.parse` of a UTF-8 body; `None` when it throws. */
  type Decoder = Bytes -> Option<Json>

  // ---------------------------------------------------------------- the header

  predicate SeparatorAt(s: Bytes, i: nat) {
    i + 4 <= |s| && s[i] == 13 && s[i + 1] == 10 && s[i + 2] == 13 && s[i + 3] == 10
  }

  /** `buffer.indexOf("\r\n\r\n", from)`. */
  function IndexOfSeparator(s: Bytes, from: nat := 0): (r: Option<nat>)
    requires from <= |s|
    ensures r.None? ==> forall j :: from <= j ==> !SeparatorAt(s, j)
    ensures r.Some? ==> from <= r.value && SeparatorAt(s, r.value)
    ensures r.Some? ==> forall j :: from <= j < r.value ==> !SeparatorAt(s, j)
    decreases |s| - from
  {
    if SeparatorAt(s, from) then Some(from)
    else if from == |s| then None
    else IndexOfSeparator(s, from + 1)
  }

  /** Decoding as ASCII drops the high bit of every byte. */
  function Ascii(b: Byte): int { b % 128 }

  function Lower(c: int): int { if 65 <= c <= 90 then c + 32 else c }

  predicate IsDigit(c: int) { 48 <= c <= 57 }

  predicate IsSpace(c: int) { 9 <= c <= 13 || c == 32 }

  /** `content-length:` */
  const Label: seq<int> := [99, 111, 110, 116, 101, 110, 116, 45, 108, 101, 110, 103, 116, 104, 58]

  /** First position from `i` on that is not whitespace. */
  function SkipSpaces(h: Bytes, i: nat): (r: nat)
    requires i <= |h|
    ensures i <= r <= |h| && (r < |h| ==> !IsSpace(Ascii(h[r])))
    decreases |h| - i
  {
    if i < |h| && IsSpace(Ascii(h[i])) then SkipSpaces(h, i + 1) else i
  }

  /** First position from `i` on that is not a digit. */
  function SkipDigits(h: Bytes, i: nat): (r: nat)
    requires i <= |h|
    ensures i <= r <= |h| && forall k :: i <= k < r ==> IsDigit(Ascii(h[k]))
    ensures r < |h| ==> !IsDigit(Ascii(h[r]))
    decreases |h| - i
  {
    if i < |h| && IsDigit(Ascii(h[i])) then SkipDigits(h, i + 1) else i
  }

  /** `Number.parseInt` of a run of digits. */
  function ParseDecimal(d: Bytes): nat
    requires forall k :: 0 <= k < |d| ==> IsDigit(Ascii(d[k]))
  {
    if d == [] then 0
    else
      assert IsDigit(Ascii(d[|d| - 1]));
      10 * ParseDecimal(d[..|d| - 1]) + (Ascii(d[|d| - 1]) - 48)
  }

  /** Does `/Content-Length:\s*(\d+)/i` match starting at `i`? */
  predicate LabelAt(h: Bytes, i: nat) {
    && i + |Label| <= |h|
    && (forall k :: 0 <= k < |Label| ==> Lower(Ascii(h[i + k])) == Label[k])
    && SkipSpaces(h, i + |Label|) < |h|
    && IsDigit(Ascii(h[SkipSpaces(h, i + |Label|)]))
  }

  function LengthAt(h: Bytes, i: nat): nat
    requires LabelAt(h, i)
  {
    var d := SkipSpaces(h, i + |Label|);
    ParseDecimal(h[d..SkipDigits(h, d)])
  }

  /** The captured length of the leftmost match, if the header has one. */
  function ContentLength(h: Bytes, from: nat := 0): Option<nat>
    requires from <= |h|
    decreases |h| - from
  {
    if LabelAt(h, from) then Some(LengthAt(h, from))
    else if from == |h| then None
    else ContentLength(h, from + 1)
  }

  // ---------------------------------------------------------------- parseLspMessages

  /** What one turn of the loop finds at the front of the buffer. */
  datatype Next =
    | Wait                                  // no complete header, or an incomplete body
    | Discard(end: nat)                     // a header without a length
    | Frame(start: nat, end: nat)           // a body in `[start, end)`

  function NextFrame(s: Bytes): (n: Next)
    ensures n.Discard? ==> 4 <= n.end <= |s|
    ensures n.Frame? ==> 4 <= n.start <= n.end <= |s|
  {
    var h := IndexOfSeparator(s);
    if h.None? then Wait
    else
      var length := ContentLength(s[..h.value]);
      if length.None? then Discard(h.value + 4)
      else if |s| < h.value + 4 + length.value then Wait
      else Frame(h.value + 4, h.value + 4 + length.value)
  }

  datatype Framed = Framed(bodies: seq<Bytes>, remaining: Bytes)

  /** The bodies of all complete frames, and the bytes left over. Every turn removes at least the
      four separator bytes, so this ends. */
  function Split(s: Bytes): (r: Framed)
    decreases |s|
  {
    match NextFrame(s)
    case Wait => Framed([], s)
    case Discard(end) => Split(s[end..])
    case Frame(start, end) =>
      var rest := Split(s[end..]);
      Framed([s[start..end]] + rest.bodies, rest.remaining)
  }

  /** `try { messages.push(JSON.parse(body)) } catch {}`. */
  function MessageOf(decode: Decoder, body: Bytes): seq<Json> {
    match decode(body)
    case None => []
    case Some(m) => [m]
  }

  /** The messages of the bodies that decode; malformed ones are skipped. */
  function Messages(decode: Decoder, bodies: seq<Bytes>): seq<Json> {
    if bodies == [] then []
    else Messages(decode, bodies[..|bodies| - 1]) + MessageOf(decode, bodies[|bodies| - 1])
  }

  datatype Parsed = Parsed(messages: seq<Json>, remaining: Bytes)

  function Parse(decode: Decoder, s: Bytes): Parsed {
    Parsed(Messages(decode, Split(s).bodies), Split(s).remaining)
  }

  lemma MessagesSnoc(decode: Decoder, bodies: seq<Bytes>, body: Bytes)
    ensures Messages(decode, bodies + [body]) == Messages(decode, bodies) + MessageOf(decode, body)
  {
    assert (bodies + [body])[..|bodies|] == bodies;
  }

  lemma MessagesAppendOne(decode: Decoder, a: seq<Bytes>, b: seq<Bytes>, last: Bytes)
    requires Messages(decode, a + b) == Messages(decode, a) + Messages(decode, b)
    ensures Messages(decode, a + (b + [last])) == Messages(decode, a) + Messages(decode, b + [last])
  {
    MessagesSnoc(decode, a + b, last);
    MessagesSnoc(decode, b, last);
    AppendAssociative(a, b, [last]);
    AppendAssociative(Messages(decode, a), Messages(decode, b), MessageOf(decode, last));
  }

  lemma {:induction false} MessagesAppend(decode: Decoder, a: seq<Bytes>, b: seq<Bytes>)
    ensures Messages(decode, a + b) == Messages(decode, a) + Messages(decode, b)
    decreases |b|
  {
    if b == [] {
      assert a + b == a;
    } else {
      var init, last := b[..|b| - 1], b[|b| - 1];
      MessagesAppend(decode, a, init);
      MessagesAppendOne(decode, a, init, last);
      assert b == init + [last];
    }
  }

  /** Main theorem. A body that does not decode loses that body only, and a header without a length its
      own bytes only: the messages after it are read. */
  lemma MalformedIsSkipped(decode: Decoder, a: seq<Bytes>, bad: Bytes, b: seq<Bytes>, s: Bytes, h: nat)
    requires decode(bad).None?
    ensures Messages(decode, a + [bad] + b) == Messages(decode, a + b)
    ensures IndexOfSeparator(s) == Some(h) && (forall i :: 0 <= i <= h ==> !LabelAt(s[..h], i)) ==>
              Split(s) == Split(s[h + 4..])
  {
    MessagesAppend(decode, a + [bad], b);
    MessagesAppend(decode, a, b);
    MessagesSnoc(decode, a, bad);
    assert Messages(decode, a) + [] == Messages(decode, a);
    if IndexOfSeparator(s) == Some(h) && forall i :: 0 <= i <= h ==> !LabelAt(s[..h], i) {
      UnlabelledHasNoLength(s[..h], 0);
    }
  }

  lemma {:induction false} UnlabelledHasNoLength(h: Bytes, from: nat)
    requires from <= |h| && forall i :: from <= i <= |h| ==> !LabelAt(h, i)
    ensures ContentLength(h, from).None?
    decreases |h| - from
  {
    if from < |h| { UnlabelledHasNoLength(h, from + 1); }
  }

  /** One turn of the loop moves a body from the unread frames to the read ones. */
  lemma FrameTurn(bodies: seq<Bytes>, s: Bytes, start: nat, end: nat)
    requires NextFrame(s) == Frame(start, end)
    ensures Ahead(bodies + [s[start..end]], s[end..]) == Ahead(bodies, s)
  {
    AppendAssociative(bodies, [s[start..end]], Split(s[end..]).bodies);
  }

  /** The frames already read and those still in the buffer. */
  ghost function Ahead(bodies: seq<Bytes>, s: Bytes): Framed { Framed(bodies + Split(s).bodies, Split(s).remaining) }

  method ParseLspMessages(decode: Decoder, buffer: Bytes) returns (messages: seq<Json>, remaining: Bytes)
    ensures Parsed(messages, remaining) == Parse(decode, buffer)
  {
    messages := [];
    remaining := buffer;
    ghost var bodies: seq<Bytes> := [];
    while true
      invariant messages == Messages(decode, bodies)
      invariant Ahead(bodies, remaining) == Ahead([], buffer)
      decreases |remaining|
    {
      var headerEnd := IndexOfSeparator(remaining);
      if headerEnd.None? {
        assert NextFrame(remaining) == Wait;
        break;
      }
      var header := remaining[..headerEnd.value];
      var contentLength := ContentLength(header);
      var bodyStart := headerEnd.value + 4;
      if contentLength.None? {
        assert NextFrame(remaining) == Discard(bodyStart);
        remaining := remaining[bodyStart..];
        continue;
      }
      var bodyEnd := bodyStart + contentLength.value;
      if |remaining| < bodyEnd {
        assert NextFrame(remaining) == Wait;
        break;
      }
      assert NextFrame(remaining) == Frame(bodyStart, bodyEnd);
      var body := remaining[bodyStart..bodyEnd];
      messages := messages + MessageOf(decode, body);
      MessagesSnoc(decode, bodies, body);
      FrameTurn(bodies, remaining, bodyStart, bodyEnd);
      bodies := bodies + [body];
      remaining := remaining[bodyEnd..];
    }
    assert bodies + [] == bodies && [] + Split(buffer).bodies == Split(buffer).bodies;
  }

  // ---------------------------------------------------------------- chunking independence

  /** Bytes that arrive later never change where the first header ends. */
  lemma SeparatorStable(a: Bytes, b: Bytes)
    requires IndexOfSeparator(a).Some?
    ensures IndexOfSeparator(a + b) == IndexOfSeparator(a)
  {
    var h := IndexOfSeparator(a).value;
    assert SeparatorAt(a + b, h);
    forall j | 0 <= j < h ensures !SeparatorAt(a + b, j) {
      assert !SeparatorAt(a, j);
    }
  }

  lemma FrameStable(a: Bytes, b: Bytes)
    requires NextFrame(a) != Wait
    ensures NextFrame(a + b) == NextFrame(a)
    ensures NextFrame(a).Discard? ==> (a + b)[NextFrame(a).end..] == a[NextFrame(a).end..] + b
    ensures NextFrame(a).Frame? ==>
              && (a + b)[NextFrame(a).end..] == a[NextFrame(a).end..] + b
              && (a + b)[NextFrame(a).start..NextFrame(a).end] == a[NextFrame(a).start..NextFrame(a).end]
  {
    SeparatorStable(a, b);
    var h := IndexOfSeparator(a).value;
    assert (a + b)[..h] == a[..h];
  }

  lemma {:induction false} SplitAppend(a: Bytes, b: Bytes)
    ensures Split(a + b).bodies == Split(a).bodies + Split(Split(a).remaining + b).bodies
    ensures Split(a + b).remaining == Split(Split(a).remaining + b).remaining
    decreases |a|
  {
    match NextFrame(a)
    case Wait =>
    case Discard(end) =>
      FrameStable(a, b);
      SplitAppend(a[end..], b);
    case Frame(start, end) =>
      FrameStable(a, b);
      SplitAppend(a[end..], b);
      AppendAssociative([a[start..end]], Split(a[end..]).bodies, Split(Split(a).remaining + b).bodies);
  }

  /** Parsing `a`, then its remainder followed by `b`, is parsing `a + b`, for arbitrary bytes. */
  lemma ChunkingIndependence(decode: Decoder, a: Bytes, b: Bytes)
    ensures var first := Parse(decode, a);
            var second := Parse(decode, first.remaining + b);
            Parse(decode, a + b) == Parsed(first.messages + second.messages, second.remaining)
  {
    SplitAppend(a, b);
    MessagesAppend(decode, Split(a).bodies, Split(Split(a).remaining + b).bodies);
  }

  /** What is left over never holds a complete frame. */
  lemma {:induction false} RemainderHoldsNoFrame(s: Bytes)
    ensures NextFrame(Split(s).remaining) == Wait
    decreases |s|
  {
    match NextFrame(s)
    case Wait =>
    case Discard(end) => RemainderHoldsNoFrame(s[end..]);
    case Frame(start, end) => RemainderHoldsNoFrame(s[end..]);
  }

  /** Feeding chunks one at a time, as `handleIncomingData` does: the frames found so far. */
  function Feed(buffer: Bytes, chunks: seq<Bytes>): Framed
    decreases |chunks|
  {
    if chunks == [] then Framed([], buffer)
    else
      var first := Split(buffer + chunks[0]);
      var rest := Feed(first.remaining, chunks[1..]);
      Framed(first.bodies + rest.bodies, rest.remaining)
  }

  function Joined(chunks: seq<Bytes>): Bytes {
    if chunks == [] then [] else chunks[0] + Joined(chunks[1..])
  }

  /** Any split of a stream finds the same frames, hence decodes the same messages, and leaves the
      same buffer. */
  lemma {:induction false} SplitsAgree(buffer: Bytes, chunks: seq<Bytes>)
    requires NextFrame(buffer) == Wait
    ensures Feed(buffer, chunks) == Split(buffer + Joined(chunks))
    decreases |chunks|
  {
    if chunks == [] {
      assert buffer + Joined(chunks) == buffer;
    } else {
      var head, tail := buffer + chunks[0], Joined(chunks[1..]);
      RemainderHoldsNoFrame(head);
      SplitsAgree(Split(head).remaining, chunks[1..]);
      SplitAppend(head, tail);
      AppendAssociative(buffer, chunks[0], tail);
    }
  }

  // ---------------------------------------------------------------- the printer

  /** `Content-Length: ` */
  const Prefix: Bytes := [67, 111, 110, 116, 101, 110, 116, 45, 76, 101, 110, 103, 116, 104, 58, 32]
  const Separator: Bytes := [13, 10, 13, 10]

  function Decimal(n: nat): (d: Bytes)
    ensures |d| >= 1 && forall k :: 0 <= k < |d| ==> IsDigit(d[k])
  {
    if n < 10 then [48 + n] else Decimal(n / 10) + [48 + n % 10]
  }

  function Header(length: nat): Bytes { Prefix + Decimal(length) }

  /** `encodeLspMessage`, given the UTF-8 bytes of the JSON text. */
  function Encode(body: Bytes): Bytes { Header(|body|) + Separator + body }

  lemma {:induction false} DecimalRoundTrip(n: nat)
    ensures ParseDecimal(Decimal(n)) == n
  {
    var d := Decimal(n);
    if n < 10 {
      assert d[..|d| - 1] == [];
    } else {
      DecimalRoundTrip(n / 10);
      assert d[..|d| - 1] == Decimal(n / 10);
    }
  }

  lemma HeaderIsLabelled(n: nat)
    ensures var h := Header(n); LabelAt(h, 0) && SkipSpaces(h, 15) == 16 && h[16..] == Decimal(n)
  {
    var h := Header(n);
    forall k | 0 <= k < |Label| ensures Lower(Ascii(h[k])) == Label[k] {
      assert h[k] == Prefix[k];
    }
    assert h[15] == 32 && h[16] == Decimal(n)[0] && h[16..] == Decimal(n);
    assert SkipSpaces(h, 15) == SkipSpaces(h, 16) == 16;
  }

  lemma HeaderDigits(n: nat)
    ensures SkipDigits(Header(n), 16) == |Header(n)|
  {
    var h, d := Header(n), Decimal(n);
    assert forall k :: 16 <= k < |h| ==> h[k] == d[k - 16];
  }

  /** Main theorem. A header gives its length whatever the case of its label, the white space after it, and
      what follows the number. */
  lemma AnyHeaderLength(label': Bytes, spaces: Bytes, n: nat, rest: Bytes)
    requires |label'| == |Label| && forall k :: 0 <= k < |Label| ==> Lower(Ascii(label'[k])) == Label[k]
    requires forall k :: 0 <= k < |spaces| ==> 9 <= spaces[k] <= 13 || spaces[k] == 32
    requires rest != [] ==> !IsDigit(Ascii(rest[0]))
    ensures ContentLength(label' + spaces + Decimal(n) + rest) == Some(n)
  {
    var h, from := label' + spaces + Decimal(n) + rest, |label'| + |spaces|;
    HeaderIsPlaced(label', spaces, Decimal(n), rest);
    LengthRead(h, from, from + |Decimal(n)|);
    DecimalRoundTrip(n);
  }

  /** The label is followed by white space up to `from`, where the number stands, up to `end`. */
  predicate Placed(h: Bytes, from: nat, end: nat) {
    && |Label| <= from < end <= |h|
    && (forall k :: 0 <= k < |Label| ==> Lower(Ascii(h[k])) == Label[k])
    && (forall k :: |Label| <= k < from ==> 9 <= h[k] <= 13 || h[k] == 32)
    && (forall k :: from <= k < end ==> IsDigit(Ascii(h[k])))
    && (end < |h| ==> !IsDigit(Ascii(h[end])))
  }

  lemma HeaderIsPlaced(a: Bytes, b: Bytes, c: Bytes, d: Bytes)
    requires |a| == |Label| && forall k :: 0 <= k < |Label| ==> Lower(Ascii(a[k])) == Label[k]
    requires forall k :: 0 <= k < |b| ==> 9 <= b[k] <= 13 || b[k] == 32
    requires c != [] && forall k :: 0 <= k < |c| ==> IsDigit(c[k])
    requires d != [] ==> !IsDigit(Ascii(d[0]))
    ensures var h, from := a + b + c + d, |a| + |b|;
            Placed(h, from, from + |c|) && h[from..from + |c|] == c
  {
    var h, from := a + b + c + d, |a| + |b|;
    forall k | 0 <= k < |Label| ensures Lower(Ascii(h[k])) == Label[k] { assert h[k] == a[k]; }
    forall k | |Label| <= k < from ensures 9 <= h[k] <= 13 || h[k] == 32 { assert h[k] == b[k - |a|]; }
    forall k | from <= k < from + |c| ensures IsDigit(Ascii(h[k])) { assert h[k] == c[k - from]; }
    assert d != [] ==> h[from + |c|] == d[0];
  }

  lemma LengthRead(h: Bytes, from: nat, end: nat)
    requires Placed(h, from, end)
    ensures ContentLength(h) == Some(ParseDecimal(h[from..end]))
  {
    SpacesSkipped(h, |Label|, from);
    DigitsSkipped(h, from, end);
    assert LabelAt(h, 0);
  }

  lemma {:induction false} SpacesSkipped(h: Bytes, i: nat, end: nat)
    requires i <= end < |h| && forall k :: i <= k < end ==> 9 <= h[k] <= 13 || h[k] == 32
    requires IsDigit(Ascii(h[end]))
    ensures SkipSpaces(h, i) == end
    decreases end - i
  {
    if i < end { SpacesSkipped(h, i + 1, end); }
  }

  lemma {:induction false} DigitsSkipped(h: Bytes, i: nat, end: nat)
    requires i <= end <= |h| && forall k :: i <= k < end ==> IsDigit(Ascii(h[k]))
    requires end < |h| ==> !IsDigit(Ascii(h[end]))
    ensures SkipDigits(h, i) == end
    decreases end - i
  {
    if i < end { DigitsSkipped(h, i + 1, end); }
  }

  lemma HeaderLength(n: nat)
    ensures ContentLength(Header(n)) == Some(n)
  {
    var h := Header(n);
    HeaderIsLabelled(n);
    HeaderDigits(n);
    DecimalRoundTrip(n);
    assert h[16..|h|] == Decimal(n);
  }

  /** No separator begins inside the printed header. */
  lemma HeaderEnds(n: nat, tail: Bytes)
    ensures IndexOfSeparator(Header(n) + Separator + tail) == Some(|Header(n)|)
  {
    var h := Header(n);
    var s := h + Separator + tail;
    assert SeparatorAt(s, |h|);
    forall j | 0 <= j < |h| ensures !SeparatorAt(s, j) {
      assert s[j] == h[j];
      assert j < 16 ==> h[j] == Prefix[j];
      assert j >= 16 ==> h[j] == Decimal(n)[j - 16];
    }
  }

  lemma FrameSplits(body: Bytes, rest: Bytes)
    ensures Split(Encode(body) + rest) == Framed([body] + Split(rest).bodies, Split(rest).remaining)
  {
    var s, h := Encode(body) + rest, Header(|body|);
    assert s == h + Separator + (body + rest);
    HeaderEnds(|body|, body + rest);
    HeaderLength(|body|);
    assert s[..|h|] == h;
    assert s[|h| + 4..|h| + 4 + |body|] == body;
    assert s[|h| + 4 + |body|..] == rest;
  }

  /** A strict prefix of one frame yields nothing and is kept whole. */
  lemma PartialFrameWaits(body: Bytes, partial: Bytes)
    requires partial < Encode(body)
    ensures Split(partial) == Framed([], partial)
  {
    var h := Header(|body|);
    var frame := Encode(body);
    HeaderEnds(|body|, body);
    HeaderLength(|body|);
    var found := IndexOfSeparator(partial);
    if found.Some? {
      SeparatorStable(partial, frame[|partial|..]);
      assert frame == partial + frame[|partial|..];
      assert partial[..|h|] == frame[..|h|] == h;
    }
  }

  function EncodeAll(bodies: seq<Bytes>): Bytes {
    if bodies == [] then [] else Encode(bodies[0]) + EncodeAll(bodies[1..])
  }

  lemma {:induction false} FramesRoundTrip(bodies: seq<Bytes>, next: Bytes, partial: Bytes)
    requires partial < Encode(next)
    ensures Split(EncodeAll(bodies) + partial) == Framed(bodies, partial)
    decreases |bodies|
  {
    var s := EncodeAll(bodies) + partial;
    if bodies == [] {
      assert s == partial;
      PartialFrameWaits(next, partial);
    } else {
      var rest := EncodeAll(bodies[1..]) + partial;
      FramesRoundTrip(bodies[1..], next, partial);
      FrameSplits(bodies[0], rest);
      AppendAssociative(Encode(bodies[0]), EncodeAll(bodies[1..]), partial);
      assert [bodies[0]] + bodies[1..] == bodies;
    }
  }

  function Stringified(stringify: Json -> Bytes, messages: seq<Json>): (bodies: seq<Bytes>)
    ensures |bodies| == |messages|
  {
    if messages == [] then []
    else Stringified(stringify, messages[..|messages| - 1]) + [stringify(messages[|messages| - 1])]
  }

  lemma {:induction false} StringifiedDecodes(
    decode: Decoder, stringify: Json -> Bytes, messages: seq<Json>)
    requires forall m :: decode(stringify(m)) == Some(m)
    ensures Messages(decode, Stringified(stringify, messages)) == messages
  {
    if messages != [] {
      var init, last := messages[..|messages| - 1], messages[|messages| - 1];
      StringifiedDecodes(decode, stringify, init);
      MessagesSnoc(decode, Stringified(stringify, init), stringify(last));
    }
  }

  /** Printer/parser round trip: any list of encoded messages followed by any strict prefix of
      another frame parses to exactly that list, with that prefix left over. */
  lemma RoundTrip(
    decode: Decoder, stringify: Json -> Bytes, messages: seq<Json>, next: Bytes, partial: Bytes)
    requires forall m :: decode(stringify(m)) == Some(m)
    requires partial < Encode(next)
    ensures Parse(decode, EncodeAll(Stringified(stringify, messages)) + partial) == Parsed(messages, partial)
  {
    FramesRoundTrip(Stringified(stringify, messages), next, partial);
    StringifiedDecodes(decode, stringify, messages);
  }
}
