/** Which model names are rewritten, and to what. */
module ModelRefRewrites {
  import opened Options
  import opened Text
  import opened ModelRefs

  // ---------------------------------------------------------------- names that are not current

  /** Position 7 tells the families apart, and after the family's `-4-` comes the release. */
  lemma CurrentShape(i: nat)
    requires i < |CURRENT|
    ensures var c := CURRENT[i];
            && |c| >= 15 && c[..7] == "claude-"
            && (c[7] == 'o' || c[7] == 's' || c[7] == 'h')
            && (c[7] == 'o' ==> c[14] == '8' || c[14] == '7' || c[14] == '6')
            && (c[7] == 's' ==> |c| >= 17 && c[16] == '6')
  {
  }

  predicate OutOfDate(n: string) {
    || |n| < 15 || n[..7] != "claude-"
    || (n[7] != 'o' && n[7] != 's' && n[7] != 'h')
    || (n[7] == 'o' && n[14] != '8' && n[14] != '7' && n[14] != '6')
    || (n[7] == 's' && (|n| < 17 || n[16] != '6'))
  }

  lemma PrefixAgrees(n: string, p: string)
    ensures StartsWith(n, p) ==> |p| <= |n| && forall k :: 0 <= k < |p| ==> n[k] == p[k]
    ensures StartsWith(n, p) ==> forall k :: 0 <= k <= |p| ==> n[..k] == p[..k]
  {
    if StartsWith(n, p) {
      forall k | 0 <= k <= |p| ensures n[..k] == p[..k] { assert n[..|p|][..k] == n[..k]; }
      forall k | 0 <= k < |p| ensures n[k] == p[k] { assert n[..|p|][k] == n[k]; }
    }
  }

  lemma OutOfDateIsNotCurrent(n: string)
    requires OutOfDate(n)
    ensures !StartsWithAny(n, CURRENT)
  {
    forall i | 0 <= i < |CURRENT| ensures !StartsWith(n, CURRENT[i]) {
      CurrentShape(i);
      PrefixAgrees(n, CURRENT[i]);
    }
  }

  /** What may follow a version for it to be that version. */
  predicate Tail(suffix: string) { suffix == "" || suffix[0] in "-.:@" }

  lemma RetiredWith(p: string, suffix: string, prefixes: seq<string>, i: nat)
    requires i < |prefixes| && prefixes[i] == p && Tail(suffix)
    ensures HasAnyRetired(p + suffix, prefixes)
  {
    assert (p + suffix)[..|p|] == p;
    assert suffix == "" ==> p + suffix == p;
    assert HasRetiredVersionPrefix(p + suffix, prefixes[i]);
  }

  lemma RetiredOpusShape(i: nat)
    requires 2 <= i < |RETIRED_OPUS|
    ensures var p := RETIRED_OPUS[i]; |p| == 15 && p[..7] == "claude-" && p[7] == 'o' && p[14] in "510"
  {
  }

  lemma RetiredSonnetShape(i: nat)
    requires i < |RETIRED_SONNET|
    ensures var p := RETIRED_SONNET[i]; |p| == 17 && p[..7] == "claude-" && p[7] == 's' && p[16] in "510"
    ensures var p := RETIRED_SONNET[i]; p[..15] == "claude-sonnet-4"
  {
  }

  /** Main theorem. A retired Opus release becomes the current Opus, whatever date or variant follows. */
  lemma RetiredOpusIsUpgraded(i: nat, suffix: string)
    requires 2 <= i < |RETIRED_OPUS| && Tail(suffix)
    ensures UpgradeOldClaudeModelId(RETIRED_OPUS[i] + suffix) == Some("claude-opus-4-8")
  {
    var p := RETIRED_OPUS[i];
    var n := p + suffix;
    RetiredOpusShape(i);
    assert n[..7] == p[..7] && n[7] == p[7] && n[14] == p[14];
    OutOfDateIsNotCurrent(n);
    RetiredWith(p, suffix, RETIRED_OPUS, i);
  }

  /** A name that is not Opus passes the Opus tests. */
  lemma NotOpus(n: string)
    requires |n| > 7 && n[7] != 'o'
    ensures n != "claude-opus-4" && !HasAnyRetired(n, RETIRED_OPUS) && !Dated(n, "claude-opus-4-")
  {
    forall i | 0 <= i < |RETIRED_OPUS| ensures !HasRetiredVersionPrefix(n, RETIRED_OPUS[i]) {
      OpusAt7(i);
      PrefixAgrees(n, RETIRED_OPUS[i]);
    }
    var f := "claude-opus-4-" + "20";
    assert f[7] == 'o';
    PrefixAgrees(n, f);
  }

  lemma OpusAt7(i: nat)
    requires i < |RETIRED_OPUS|
    ensures |RETIRED_OPUS[i]| == 15 && RETIRED_OPUS[i][7] == 'o'
  {
  }

  /** Main theorem. A retired Sonnet release becomes the current Sonnet. */
  lemma RetiredSonnetIsUpgraded(i: nat, suffix: string)
    requires i < |RETIRED_SONNET| && Tail(suffix)
    ensures UpgradeOldClaudeModelId(RETIRED_SONNET[i] + suffix) == Some("claude-sonnet-4-6")
  {
    var p := RETIRED_SONNET[i];
    var n := p + suffix;
    RetiredSonnetShape(i);
    assert n[..7] == p[..7] && n[7] == p[7] && n[16] == p[16];
    OutOfDateIsNotCurrent(n);
    NotOpus(n);
    RetiredWith(p, suffix, RETIRED_SONNET, i);
  }

  /** Names dated 20yymmdd, and those without a release, are retired as well. */
  lemma DatedIsUpgraded(rest: string)
    requires Digits(rest, 0, 6)
    ensures UpgradeOldClaudeModelId("claude-opus-4-" + "20" + rest) == Some("claude-opus-4-8")
    ensures UpgradeOldClaudeModelId("claude-sonnet-4-" + "20" + rest) == Some("claude-sonnet-4-6")
  {
    DatedName("claude-opus-4-", rest);
    DatedName("claude-sonnet-4-", rest);
    var o, s := "claude-opus-4-" + "20" + rest, "claude-sonnet-4-" + "20" + rest;
    assert o[..7] == "claude-" && o[7] == 'o' && o[14] == '2';
    assert s[..7] == "claude-" && s[7] == 's' && s[16] == '2';
    OutOfDateIsNotCurrent(o);
    OutOfDateIsNotCurrent(s);
    NotOpus(s);
  }

  lemma DatedName(family: string, rest: string)
    requires Digits(rest, 0, 6)
    ensures Dated(family + "20" + rest, family)
  {
    var n := family + "20" + rest;
    assert n[..|family + "20"|] == family + "20";
    forall k | |family| + 2 <= k < |family| + 8 ensures IsDigit(n[k]) { assert n[k] == rest[k - |family| - 2]; }
  }

  /** Main theorem. All third-generation names are retired: Opus to the current Opus, Sonnet and Haiku to
      the current Sonnet. */
  lemma ThirdGenerationIsUpgraded(rest: string)
    ensures var n := "claude-3" + rest;
            UpgradeOldClaudeModelId(n) == if Includes(n, "opus") then Some("claude-opus-4-8")
                                          else if Includes(n, "sonnet") || Includes(n, "haiku")
                                          then Some("claude-sonnet-4-6") else None
  {
    var n := "claude-3" + rest;
    assert n[..8] == "claude-3" && n[..7] == "claude-" && n[7] == '3';
    OutOfDateIsNotCurrent(n);
    NotOpus(n);
    NotSonnet(n);
    assert n[0] == 'c';
    ShortNames(n);
  }

  lemma NotSonnet(n: string)
    requires |n| > 7 && n[7] != 's'
    ensures n != "claude-sonnet-4" && !HasAnyRetired(n, RETIRED_SONNET) && !Dated(n, "claude-sonnet-4-")
  {
    forall i | 0 <= i < |RETIRED_SONNET| ensures !HasRetiredVersionPrefix(n, RETIRED_SONNET[i]) {
      RetiredSonnetShape(i);
      PrefixAgrees(n, RETIRED_SONNET[i]);
    }
    var f := "claude-sonnet-4-" + "20";
    assert f[7] == 's';
    PrefixAgrees(n, f);
  }

  /** No short name begins as the full ones do. */
  lemma ShortNames(n: string)
    requires n != "" && n[0] == 'c'
    ensures n !in SHORT_OPUS && n !in SHORT_SONNET
  {
  }

  /** A name of a current release is kept, dates and variants included. */
  lemma CurrentIsKept(i: nat, suffix: string)
    requires i < |CURRENT|
    ensures UpgradeOldClaudeModelId(CURRENT[i] + suffix).None?
  {
    assert (CURRENT[i] + suffix)[..|CURRENT[i]|] == CURRENT[i];
    assert StartsWith(CURRENT[i] + suffix, CURRENT[i]);
  }

  /** Names that do not begin as the full ones do pass every test on those. */
  lemma ShortPasses(n: string)
    requires n != "" && n[0] != 'c'
    ensures UpgradeOldClaudeModelId(n)
         == if n in SHORT_OPUS then Some("claude-opus-4-8")
            else if n in SHORT_SONNET then Some("claude-sonnet-4-6") else None
    ensures !StartsWith(n, "claude-")
  {
    forall i | 0 <= i < |CURRENT| ensures !StartsWith(n, CURRENT[i]) {
      CurrentShape(i);
      PrefixAgrees(n, CURRENT[i]);
      assert CURRENT[i][..7][0] == "claude-"[0];
    }
    forall i | 0 <= i < |RETIRED_OPUS| ensures !HasRetiredVersionPrefix(n, RETIRED_OPUS[i]) {
      OpusAt0(i);
      PrefixAgrees(n, RETIRED_OPUS[i]);
    }
    forall i | 0 <= i < |RETIRED_SONNET| ensures !HasRetiredVersionPrefix(n, RETIRED_SONNET[i]) {
      SonnetAt0(i);
      PrefixAgrees(n, RETIRED_SONNET[i]);
    }
    PrefixAgrees(n, "claude-");
    PrefixAgrees(n, "claude-3");
    PrefixAgrees(n, "claude-opus-4-" + "20");
    PrefixAgrees(n, "claude-sonnet-4-" + "20");
    assert ("claude-opus-4-" + "20")[0] == 'c' && ("claude-sonnet-4-" + "20")[0] == 'c';
  }

  lemma OpusAt0(i: nat)
    requires i < |RETIRED_OPUS|
    ensures RETIRED_OPUS[i] != "" && RETIRED_OPUS[i][0] == 'c'
  {
  }

  lemma SonnetAt0(i: nat)
    requires i < |RETIRED_SONNET|
    ensures RETIRED_SONNET[i] != "" && RETIRED_SONNET[i][0] == 'c'
  {
  }

  /** The short names a user may write, and what each stands for. */
  const SHORT: map<string, string> := map[
    "opus" := "claude-opus-4-8", "sonnet" := "claude-sonnet-4-6", "haiku" := "claude-haiku-4-5",
    "opus-4.8" := "claude-opus-4-8", "opus-4.7" := "claude-opus-4-7", "opus-4.6" := "claude-opus-4-6",
    "sonnet-4.6" := "claude-sonnet-4-6",
    "opus-4.5" := "claude-opus-4-8", "opus-4.1" := "claude-opus-4-8", "opus-4" := "claude-opus-4-8",
    "opus-3" := "claude-opus-4-8",
    "sonnet-4.5" := "claude-sonnet-4-6", "sonnet-4.1" := "claude-sonnet-4-6", "sonnet-4.0" := "claude-sonnet-4-6",
    "sonnet-4" := "claude-sonnet-4-6", "sonnet-3.7" := "claude-sonnet-4-6", "sonnet-3.5" := "claude-sonnet-4-6",
    "sonnet-3" := "claude-sonnet-4-6", "haiku-3.5" := "claude-sonnet-4-6", "haiku-3" := "claude-sonnet-4-6"]

  /** Main theorem. A name that is not a full one is known exactly if it is one of these, in any case and
      with white space around it, and then stands for the name listed. */
  lemma ShortNamesStand(model: string)
    requires var n := Lower(Trim(model)); n != "" && n[0] != 'c'
    ensures var n := Lower(Trim(model)); KnownName(model) == if n in SHORT then Some(SHORT[n]) else None
  {
    var n := Lower(Trim(model));
    ShortPasses(n);
    ShortTable(n);
  }

  lemma ShortTable(n: string)
    ensures (if n in SHORT_OPUS then Some("claude-opus-4-8")
             else if n in SHORT_SONNET then Some("claude-sonnet-4-6") else FullName(n))
         == if n in SHORT then Some(SHORT[n]) else None
  {
  }

  /** A full name without a release is retired too. */
  lemma BareFourIsUpgraded()
    ensures UpgradeOldClaudeModelId("claude-opus-4") == Some("claude-opus-4-8")
    ensures UpgradeOldClaudeModelId("claude-sonnet-4") == Some("claude-sonnet-4-6")
  {
    OutOfDateIsNotCurrent("claude-opus-4");
    OutOfDateIsNotCurrent("claude-sonnet-4");
    assert "claude-sonnet-4"[7] == 's';
    NotOpus("claude-sonnet-4");
  }

  // ---------------------------------------------------------------- which references resolve

  /** Main theorem. With a provider a reference resolves exactly if that is Anthropic or the Claude CLI, in
      any case; the CLI's are always rewritten to Anthropic ones. */
  lemma ProvidersResolve(p: string, m: string)
    requires Trim(p) == p != "" && Trim(m) == m != "" && '/' !in p && Trim(p + "/" + m) == p + "/" + m
    ensures var resolved := ResolveClaudeCliAnthropicModelRefs(p + "/" + m);
            var canonical := CanonicalizeKnownClaudeCliModelId(m);
            && (resolved.Some? <==> Lower(p) == "anthropic" || Lower(p) == "claude-cli")
            && (resolved.Some? ==>
                  && resolved.value.selectedRef == "anthropic/" + m
                  && resolved.value.rewriteRef == (if canonical.Some? then Some("anthropic/" + canonical.value)
                                                   else if Lower(p) == "claude-cli" then Some("anthropic/" + m)
                                                   else None))
  {
    ProviderReads(p, m);
    ParsedIs(Parsed(Lower(p), m, true));
  }

  /** Without one it resolves exactly if its name is known, as an Anthropic reference. */
  lemma BareNameResolves(m: string)
    requires Trim(m) == m != "" && '/' !in m
    ensures var resolved, canonical := ResolveClaudeCliAnthropicModelRefs(m), CanonicalizeKnownClaudeCliModelId(m);
            && (resolved.Some? <==> canonical.Some?)
            && (resolved.Some? ==>
                  && resolved.value.selectedRef == "anthropic/" + m
                  && resolved.value.rewriteRef == Some("anthropic/" + canonical.value))
  {
    assert IndexOf(m, '/', 0).None?;
    ParsedIs(Parsed("anthropic", m, false));
  }

  lemma ProviderReads(p: string, m: string)
    requires Trim(p) == p != "" && Trim(m) == m != "" && '/' !in p && Trim(p + "/" + m) == p + "/" + m
    ensures ParseProviderModelRef(p + "/" + m) == Some(Parsed(Lower(p), m, true))
  {
    var s := p + "/" + m;
    assert s[|p|] == '/' && forall k :: 0 <= k < |p| ==> s[k] == p[k];
    assert IndexOf(s, '/', 0) == Some(|p|);
    assert s[..|p|] == p && s[|p| + 1..] == m;
  }

  lemma ParsedIs(p: Parsed)
    ensures var resolved, canonical := ResolveParsed(p), CanonicalizeKnownClaudeCliModelId(p.model);
            && (resolved.Some? <==> (p.provider == "anthropic" || p.provider == "claude-cli")
                                    && (p.explicit || canonical.Some?))
            && (resolved.Some? ==>
                  && resolved.value.selectedRef == "anthropic/" + p.model
                  && resolved.value.rewriteRef == (if canonical.Some? then Some("anthropic/" + canonical.value)
                                                   else if p.provider == "claude-cli" then Some("anthropic/" + p.model)
                                                   else None))
  {
  }
}
