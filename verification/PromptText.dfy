/** The text of an ACP prompt and its size limit (`extractTextFromPrompt` in src/acp/event-mapper.ts). */
module PromptText {
  import opened Options
  import opened Text

  datatype Block =
    | TextBlock(text: string)
    | Resource(content: Option<string>)
    | ResourceLink(title: Option<string>, uri: Option<string>)
    | Other

  /** Length in UTF-8. */
  function CharBytes(c: char): nat {
    var n := c as int;
    if n < 0x80 then 1 else if n < 0x800 then 2 else if n < 0x10000 then 3 else 4
  }

  function ByteLength(s: string): nat {
    if s == "" then 0 else ByteLength(s[..|s| - 1]) + CharBytes(s[|s| - 1])
  }

  lemma {:induction false} ByteLengthAppend(a: string, b: string)
    ensures ByteLength(a + b) == ByteLength(a) + ByteLength(b)
  {
    if b == "" {
      assert a + b == a;
    } else {
      assert (a + b)[..|a + b| - 1] == a + b[..|b| - 1];
      ByteLengthAppend(a, b[..|b| - 1]);
    }
  }

  /** The text of one block, if it has any; how a link is rendered is a parameter. */
  function BlockText(link: (Option<string>, Option<string>) -> string, block: Block): Option<string> {
    match block
    case TextBlock(text) => Some(text)
    case Resource(content) => if content == Some("") then None else content
    case ResourceLink(title, uri) => Some(link(title, uri))
    case Other => None
  }

  function Texts(link: (Option<string>, Option<string>) -> string, prompt: seq<Block>): seq<string> {
    if prompt == [] then []
    else
      var last := BlockText(link, prompt[|prompt| - 1]);
      Texts(link, prompt[..|prompt| - 1]) + if last.Some? then [last.value] else []
  }

  /** Which blocks have text, and what it is: text, a resource's contents unless empty, and a link as
      rendered; the texts are kept in order. */
  lemma TextsAre(
    link: (Option<string>, Option<string>) -> string, prompt: seq<Block>, text: string,
    title: Option<string>, uri: Option<string>)
    ensures Texts(link, prompt + [TextBlock(text)]) == Texts(link, prompt) + [text]
    ensures Texts(link, prompt + [Resource(Some(text))]) == Texts(link, prompt) + if text == "" then [] else [text]
    ensures Texts(link, prompt + [ResourceLink(title, uri)]) == Texts(link, prompt) + [link(title, uri)]
    ensures Texts(link, prompt + [Resource(None)]) == Texts(link, prompt) == Texts(link, prompt + [Other])
  {
    NextText(link, prompt, TextBlock(text));
    NextText(link, prompt, Resource(Some(text)));
    NextText(link, prompt, ResourceLink(title, uri));
    NextText(link, prompt, Resource(None));
    NextText(link, prompt, Other);
    assert Texts(link, prompt) + [] == Texts(link, prompt);
  }

  lemma NextText(link: (Option<string>, Option<string>) -> string, prompt: seq<Block>, block: Block)
    ensures var text := BlockText(link, block);
            Texts(link, prompt + [block]) == Texts(link, prompt) + if text.Some? then [text.value] else []
  {
    assert (prompt + [block])[..|prompt|] == prompt;
  }

  /** Characters up to U+007F take one byte each. */
  lemma {:induction false} AsciiLength(s: string)
    requires forall i :: 0 <= i < |s| ==> s[i] as int < 128
    ensures ByteLength(s) == |s|
  {
    if s != "" { AsciiLength(s[..|s| - 1]); }
  }

  /** Bytes of the joined text: separators count too. */
  function TotalBytes(parts: seq<string>): nat { ByteLength(Join(parts, "\n")) }

  lemma NextPart(parts: seq<string>, part: string)
    ensures TotalBytes(parts + [part]) == TotalBytes(parts) + (if parts == [] then 0 else 1) + ByteLength(part)
  {
    var all := parts + [part];
    assert all[..|all| - 1] == parts && all[|all| - 1] == part;
    if parts != [] {
      ByteLengthAppend(Join(parts, "\n"), "\n");
      ByteLengthAppend(Join(parts, "\n") + "\n", part);
      assert ByteLength("\n") == 1 by { assert "\n"[..0] == "" && CharBytes("\n"[0]) == 1; }
    }
  }

  /** Adding blocks never makes the text shorter. */
  lemma {:induction false} PrefixIsNoLonger(
    link: (Option<string>, Option<string>) -> string, prompt: seq<Block>, n: nat)
    requires n <= |prompt|
    ensures TotalBytes(Texts(link, prompt[..n])) <= TotalBytes(Texts(link, prompt))
  {
    if n == |prompt| {
      assert prompt[..n] == prompt;
    } else {
      var init, last := prompt[..|prompt| - 1], BlockText(link, prompt[|prompt| - 1]);
      assert prompt[..n] == init[..n];
      PrefixIsNoLonger(link, init, n);
      if last.Some? {
        NextPart(Texts(link, init), last.value);
      } else {
        assert Texts(link, prompt) == Texts(link, init);
      }
    }
  }

  /** Main theorem. The running count rejects a prompt exactly when the joined text would exceed the
      limit, and otherwise the result is that text. */
  method ExtractTextFromPrompt(
    link: (Option<string>, Option<string>) -> string, prompt: seq<Block>, maxBytes: Option<nat>)
    returns (text: Option<string>)
    ensures var joined := Join(Texts(link, prompt), "\n");
            text == if maxBytes.Some? && ByteLength(joined) > maxBytes.value then None else Some(joined)
  {
    var parts: seq<string>, totalBytes := [], 0;
    for n := 0 to |prompt|
      invariant parts == Texts(link, prompt[..n])
      invariant maxBytes.Some? ==> totalBytes == TotalBytes(parts) && totalBytes <= maxBytes.value
    {
      assert prompt[..n + 1][..n] == prompt[..n];
      var blockText := BlockText(link, prompt[n]);
      if blockText.Some? {
        NextPart(parts, blockText.value);
        if maxBytes.Some? {
          totalBytes := totalBytes + (if |parts| > 0 then 1 else 0) + ByteLength(blockText.value);
          if totalBytes > maxBytes.value {
            PrefixIsNoLonger(link, prompt, n + 1);
            return None;
          }
        }
        parts := parts + [blockText.value];
      }
    }
    assert prompt[..|prompt|] == prompt;
    text := Some(Join(parts, "\n"));
  }
}
