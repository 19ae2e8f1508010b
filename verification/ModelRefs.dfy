/** Anthropic model references (extensions/anthropic/claude-model-refs.ts): retired and abbreviated
    Claude names are rewritten to current ones. */
module ModelRefs {
  import opened Options
  import opened Text

  const CLI := "claude-cli"

  datatype Split = Split(model: string, profile: Option<string>)

  predicate IsDigit(c: char) { '0' <= c <= '9' }

  predicate Digits(s: string, from: nat, n: nat) {
    from + n <= |s| && forall k :: from <= k < from + n ==> IsDigit(s[k])
  }

  /** `/^\d{8}(?:@|$)/` at position `from`. */
  predicate DateAt(s: string, from: nat) {
    Digits(s, from, 8) && (from + 8 == |s| || s[from + 8] == '@')
  }

  /** Where the `@` before the auth profile is, if there is one: the first after the last slash, or
      the next one when an eight-digit date follows it. */
  function ProfileAt(t: string): (r: Option<nat>)
    ensures r.Some? ==> 0 < r.value < |t| && t[r.value] == '@'
  {
    var first := IndexOf(t, '@', AfterLast(t, '/', |t|));
    if first.None? || first.value == 0 then None
    else if DateAt(t, first.value + 1) then IndexOf(t, '@', first.value + 9)
    else first
  }

  function SplitTrailingModelAuthProfile(raw: string): Split {
    var t := Trim(raw);
    var d := ProfileAt(t);
    if d.None? then Split(t, None) else SplitAt(t, d.value)
  }

  function SplitAt(t: string, d: nat): Split
    requires d < |t|
  {
    var model, profile := Trim(t[..d]), Trim(t[d + 1..]);
    if model != "" && profile != "" then Split(model, Some(profile)) else Split(t, None)
  }

  function Attach(model: string, profile: Option<string>): string {
    if profile.Some? && profile.value != "" then model + "@" + profile.value else model
  }

  // ---------------------------------------------------------------- versions

  const OPUS := "claude-opus-4-8"
  const SONNET := "claude-sonnet-4-6"

  /** Names with one of these beginnings are current and kept. */
  const CURRENT: seq<string> := [
    "claude-opus-4-8", "claude-opus-4.8", "claude-opus-4-7", "claude-opus-4.7", "claude-opus-4-6", "claude-opus-4.6",
    "claude-sonnet-4-6", "claude-sonnet-4.6", "claude-haiku-4-5", "claude-haiku-4.5"]

  const RETIRED_OPUS: seq<string> := [
    "claude-opus-4-7", "claude-opus-4.7", "claude-opus-4-5", "claude-opus-4.5",
    "claude-opus-4-1", "claude-opus-4.1", "claude-opus-4-0", "claude-opus-4.0"]

  const RETIRED_SONNET: seq<string> := [
    "claude-sonnet-4-5", "claude-sonnet-4.5", "claude-sonnet-4-1", "claude-sonnet-4.1",
    "claude-sonnet-4-0", "claude-sonnet-4.0"]

  const SHORT_OPUS: seq<string> := ["opus-4.5", "opus-4.1", "opus-4", "opus-3"]

  const SHORT_SONNET: seq<string> := [
    "sonnet-4.5", "sonnet-4.1", "sonnet-4.0", "sonnet-4", "sonnet-3.7", "sonnet-3.5", "sonnet-3",
    "haiku-3.5", "haiku-3"]

  predicate StartsWithAny(n: string, prefixes: seq<string>) {
    exists i :: 0 <= i < |prefixes| && StartsWith(n, prefixes[i])
  }

  predicate HasRetiredVersionPrefix(n: string, prefix: string) {
    n == prefix || (StartsWith(n, prefix) && |n| > |prefix| && n[|prefix|] in "-.:@")
  }

  predicate HasAnyRetired(n: string, prefixes: seq<string>) {
    exists i :: 0 <= i < |prefixes| && HasRetiredVersionPrefix(n, prefixes[i])
  }

  /** `/^<family>20\d{6}/`. */
  predicate Dated(n: string, family: string) { StartsWith(n, family + "20") && Digits(n, |family| + 2, 6) }

  function UpgradeOldClaudeModelId(n: string): Option<string> {
    if StartsWithAny(n, CURRENT) then None
    else if n == "claude-opus-4" || HasAnyRetired(n, RETIRED_OPUS) || Dated(n, "claude-opus-4-") then Some(OPUS)
    else if n == "claude-sonnet-4" || HasAnyRetired(n, RETIRED_SONNET) || Dated(n, "claude-sonnet-4-") then Some(SONNET)
    else if StartsWith(n, "claude-3") && Includes(n, "opus") then Some(OPUS)
    else if StartsWith(n, "claude-3") && (Includes(n, "sonnet") || Includes(n, "haiku")) then Some(SONNET)
    else if n in SHORT_OPUS then Some(OPUS)
    else if n in SHORT_SONNET then Some(SONNET)
    else None
  }

  /** The family names and the aliases that stand for a full name. */
  function FullName(n: string): Option<string> {
    if n == "opus" then Some(OPUS)
    else if n == "sonnet" then Some(SONNET)
    else if n == "haiku" then Some("claude-haiku-4-5")
    else if n == "opus-4.8" then Some(OPUS)
    else if n == "opus-4.7" then Some("claude-opus-4-7")
    else if n == "opus-4.6" then Some("claude-opus-4-6")
    else if n == "sonnet-4.6" then Some(SONNET)
    else None
  }

  /** The current name a model name without profile stands for. */
  function KnownName(model: string): Option<string> {
    var trimmed := Trim(model);
    var n := Lower(trimmed);
    if n == "" then None
    else if UpgradeOldClaudeModelId(n).Some? then UpgradeOldClaudeModelId(n)
    else if StartsWith(n, "claude-") then Some(trimmed)
    else FullName(n)
  }

  function CanonicalizeKnownClaudeCliModelId(modelId: string): Option<string> {
    var split := SplitTrailingModelAuthProfile(modelId);
    match KnownName(split.model)
    case None => None
    case Some(name) => Some(Attach(name, split.profile))
  }

  // ---------------------------------------------------------------- references

  datatype Parsed = Parsed(provider: string, model: string, explicit: bool)

  function ParseProviderModelRef(raw: string): Option<Parsed> {
    var t := Trim(raw);
    if t == "" then None
    else
      var slash := IndexOf(t, '/', 0);
      if slash.None? || slash.value == 0 then Some(Parsed("anthropic", t, false))
      else
        var provider, model := Trim(t[..slash.value]), Trim(t[slash.value + 1..]);
        if provider == "" || model == "" then None else Some(Parsed(Lower(provider), model, true))
  }

  datatype Resolved = Resolved(selectedRef: string, runtimeRefs: seq<string>, rewriteRef: Option<string>)

  function ResolveParsed(p: Parsed): Option<Resolved> {
    var canonical := CanonicalizeKnownClaudeCliModelId(p.model);
    if p.provider !in {"anthropic", CLI} || (!p.explicit && canonical.None?) then None
    else
      var selected := "anthropic/" + p.model;
      var rewrite :=
        if canonical.Some? || p.provider == CLI then Some("anthropic/" + canonical.GetOr(p.model)) else None;
      Some(Resolved(
        selected,
        if rewrite.Some? && rewrite.value != selected then [selected, rewrite.value] else [selected],
        rewrite))
  }

  function ResolveClaudeCliAnthropicModelRefs(raw: string): Option<Resolved> {
    var parsed := ParseProviderModelRef(raw);
    if parsed.None? then None else ResolveParsed(parsed.value)
  }

  function ResolveKnownAnthropicModelRef(raw: Option<string>): Option<string> {
    if raw.None? || Trim(raw.value) == "" then None
    else
      var t := Trim(raw.value);
      var resolved := ResolveClaudeCliAnthropicModelRefs(t);
      if resolved.Some? && resolved.value.rewriteRef.Some? then resolved.value.rewriteRef else Some(t)
  }

  function RuntimeRefs(raw: string): seq<string> {
    var resolved := ResolveClaudeCliAnthropicModelRefs(raw);
    if resolved.Some? then resolved.value.runtimeRefs else []
  }
}
