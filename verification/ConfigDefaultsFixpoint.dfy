/** Applying the defaults twice is applying them once, and no explicit setting is overridden. */
module ConfigDefaultsFixpoint {
  import opened Options
  import opened OrderedMaps
  import opened Json
  import opened Text
  import opened ModelRefs
  import opened ModelRefsFixpoint
  import opened ConfigDefaults

  // ---------------------------------------------------------------- API key

  /** Giving an entry the default gives it the default, and a missing entry lacks it. */
  ghost predicate Sound(rule: Rule) { !rule.has(Null) && forall entry :: rule.has(rule.give(entry)) }

  ghost predicate HasAt(rule: Rule, m: Record, k: string) {
    Lookup(m, k).Some? && rule.has(Lookup(m, k).value)
  }

  /** Every entry the rule is for has the default. */
  ghost predicate Given(rule: Rule, m: Record) {
    forall k :: Lookup(m, k).Some? && rule.target(k) ==> HasAt(rule, m, k)
  }

  /** The loop only ever gives defaults to its targets, and never takes an entry or a default away. */
  lemma {:induction false} GiveEachGives(rule: Rule, m: Record, entries: Record, k: string)
    requires Sound(rule)
    ensures var r := GiveEach(rule, m, entries);
            && (Lookup(r, k) == Lookup(m, k) || (rule.target(k) && HasAt(rule, r, k)))
            && (Lookup(m, k).Some? ==> Lookup(r, k).Some?)
  {
    if entries != [] { GiveEachGives(rule, m, entries[..|entries| - 1], k); }
  }

  /** Once the loop has passed a target, its key has the default. */
  lemma {:induction false} GiveEachSettles(rule: Rule, m: Record, entries: Record, i: nat)
    requires Sound(rule) && i < |entries| && rule.target(entries[i].0)
    requires forall j :: 0 <= j < |entries| ==> Lookup(m, entries[j].0) == Some(entries[j].1)
    ensures HasAt(rule, GiveEach(rule, m, entries), entries[i].0)
  {
    var init, last := entries[..|entries| - 1], entries[|entries| - 1];
    if i < |init| {
      GiveEachSettles(rule, m, init, i);
    } else {
      GiveEachGives(rule, m, init, last.0);
    }
  }

  lemma GiveEachCovers(rule: Rule, m: Record)
    requires Sound(rule) && Keyed(m)
    ensures Given(rule, GiveEach(rule, m, m))
  {
    forall j | 0 <= j < |m| ensures Lookup(m, m[j].0) == Some(m[j].1) { LookupAt(m, j); }
    var r := GiveEach(rule, m, m);
    forall k | Lookup(r, k).Some? && rule.target(k) ensures HasAt(rule, r, k) {
      GiveEachGives(rule, m, m, k);
      if Lookup(m, k).Some? {
        var i := LookupFinds(m, k);
        GiveEachSettles(rule, m, m, i);
      }
    }
  }

  /** On a map whose targets all have the default the loop changes nothing. */
  lemma {:induction false} GiveEachRests(rule: Rule, m: Record, entries: Record)
    requires forall i :: 0 <= i < |entries| && rule.target(entries[i].0) ==> rule.has(entries[i].1)
    ensures GiveEach(rule, m, entries) == m
  {
    if entries != [] { GiveEachRests(rule, m, entries[..|entries| - 1]); }
  }

  lemma {:induction false} GiveEachKeyed(rule: Rule, m: Record, entries: Record)
    requires Keyed(m)
    ensures Keyed(GiveEach(rule, m, entries))
  {
    if entries != [] {
      var init, last := entries[..|entries| - 1], entries[|entries| - 1];
      GiveEachKeyed(rule, m, init);
      PutKeyed(GiveEach(rule, m, init), last.0, rule.give(last.1));
    }
  }

  lemma GivePrimaryKeeps(rule: Rule, m: Record, key: Option<string>)
    requires Sound(rule) && Keyed(m) && Given(rule, m)
    ensures var r := GivePrimary(rule, m, key);
            Keyed(r) && Given(rule, r) && (key.Some? ==> HasAt(rule, r, key.value))
  {
    if key.Some? { PutKeyed(m, key.value, rule.give(Lookup(m, key.value).GetOr(Null))); }
  }

  /** What one pass establishes. */
  ghost predicate Complete(rule: Rule, m: Record, primary: Option<string>, allowed: string) {
    && Keyed(m) && Given(rule, m)
    && (primary.Some? ==> HasAt(rule, m, primary.value))
    && (HasTarget(rule, m) ==> Lookup(m, allowed).Some?)
  }

  lemma GiveAllCompletes(rule: Rule, m: Record, primary: Option<string>, allowed: string)
    requires Sound(rule) && Keyed(m)
    ensures Complete(rule, GiveAll(rule, m, primary, allowed), primary, allowed)
  {
    var a := GiveEach(rule, m, m);
    GiveEachCovers(rule, m);
    GiveEachKeyed(rule, m, m);
    GivePrimaryKeeps(rule, a, primary);
    PutKeyed(GivePrimary(rule, a, primary), allowed, rule.give(Null));
  }

  lemma CompleteRests(rule: Rule, m: Record, primary: Option<string>, allowed: string)
    requires Complete(rule, m, primary, allowed)
    ensures GiveAll(rule, m, primary, allowed) == m
  {
    forall i | 0 <= i < |m| && rule.target(m[i].0) ensures rule.has(m[i].1) {
      LookupAt(m, i);
      assert HasAt(rule, m, m[i].0);
    }
    GiveEachRests(rule, m, m);
  }

  lemma CacheRetentionIsSound()
    ensures Sound(CacheRetention())
  {
    forall entry ensures HasRetention(WithRetention(entry)) {}
  }

  /** Main theorem for API keys: every listed target ends up with its retention, and a second pass
      changes nothing. */
  lemma ApiKeyFixpoint(model: ModelChoice, m: Record)
    requires Keyed(m)
    ensures Complete(CacheRetention(), ApiKeyModels(model, m), PrimaryKey(model), ALLOWED)
    ensures ApiKeyModels(model, ApiKeyModels(model, m)) == ApiKeyModels(model, m)
  {
    CacheRetentionIsSound();
    GiveAllCompletes(CacheRetention(), m, PrimaryKey(model), ALLOWED);
    CompleteRests(CacheRetention(), ApiKeyModels(model, m), PrimaryKey(model), ALLOWED);
  }

  // ---------------------------------------------------------------- OAuth

  /** An entry that already has its runtime. */
  predicate Settled(current: Option<Json>) { WithClaudeCliRuntime(current.GetOr(Null)) == OrElse(current, Obj([])) }

  lemma RuntimeGiven(entry: Json)
    ensures WithClaudeCliRuntime(WithClaudeCliRuntime(entry)) == WithClaudeCliRuntime(entry)
    ensures Settled(Some(WithClaudeCliRuntime(entry)))
  {
    CliIsPlain();
    var base := Fields(entry);
    var runtime := RuntimeOf(Obj(base));
    var given := WithClaudeCliRuntime(entry);
    if runtime != "" && runtime != "auto" {
      assert given == Obj(base);
    } else {
      assert RuntimeOf(given) == CLI;
    }
  }

  lemma CliIsPlain()
    ensures Lower(Trim(CLI)) == CLI && CLI != "" && CLI != "auto"
  {
    TrimFixed(CLI);
    LowerFixed(CLI);
  }

  /** A settled entry stays as it is through any further references. */
  lemma {:induction false} RuntimeEachKeeps(m: Record, refs: seq<string>, k: string)
    requires Settled(Lookup(m, k)) && Lookup(m, k).Some?
    ensures Lookup(RuntimeEach(m, refs), k) == Lookup(m, k)
  {
    if refs != [] { RuntimeEachKeeps(m, refs[..|refs| - 1], k); }
  }

  lemma {:induction false} RuntimeEachSettles(m: Record, refs: seq<string>, r: string)
    requires r in refs
    ensures Settled(Lookup(RuntimeEach(m, refs), r))
  {
    var init, last := refs[..|refs| - 1], refs[|refs| - 1];
    var before := RuntimeEach(m, init);
    if r == last {
      RuntimeGiven(Lookup(before, r).GetOr(Null));
    } else {
      RuntimeEachSettles(m, init, r);
    }
  }

  lemma {:induction false} RuntimeEachRests(m: Record, refs: seq<string>)
    requires forall r :: r in refs ==> Settled(Lookup(m, r))
    ensures RuntimeEach(m, refs) == m
  {
    if refs != [] {
      RuntimeEachRests(m, refs[..|refs| - 1]);
      assert refs[|refs| - 1] in refs;
    }
  }

  lemma {:induction false} RuntimeEachKeyed(m: Record, refs: seq<string>)
    requires Keyed(m)
    ensures Keyed(RuntimeEach(m, refs))
    ensures forall k :: Lookup(m, k).Some? ==> Lookup(RuntimeEach(m, refs), k).Some?
    ensures forall k :: Lookup(RuntimeEach(m, refs), k).Some? ==> Lookup(m, k).Some? || k in refs
  {
    if refs != [] {
      var before, last := RuntimeEach(m, refs[..|refs| - 1]), refs[|refs| - 1];
      RuntimeEachKeyed(m, refs[..|refs| - 1]);
      PutKeyed(before, last, WithClaudeCliRuntime(Lookup(before, last).GetOr(Null)));
    }
  }

  // ---------------------------------------------------------------- the references collected

  lemma {:induction false} AddRefsHas(refs: seq<string>, more: seq<string>, x: string)
    ensures x in AddRefs(refs, more) <==> x in refs || x in more
  {
    if more != [] {
      AddRefsHas(refs, more[..|more| - 1], x);
      assert more == more[..|more| - 1] + [more[|more| - 1]];
    }
  }

  lemma {:induction false} FlatMapHas(f: string -> seq<string>, raws: seq<string>, x: string)
    ensures x in FlatMap(f, raws) <==> exists raw :: raw in raws && x in f(raw)
  {
    if raws != [] {
      var init, last := raws[..|raws| - 1], raws[|raws| - 1];
      FlatMapHas(f, init, x);
      assert raws == init + [last];
    }
  }

  lemma KeysHave(m: Record, k: string)
    ensures k in Keys(m) <==> Lookup(m, k).Some?
  {
    if Lookup(m, k).Some? {
      var i := LookupFinds(m, k);
      assert Keys(m)[i] == k;
    }
    if k in Keys(m) {
      var i :| 0 <= i < |m| && Keys(m)[i] == k;
      LookupAt(m, i);
    }
  }

  lemma CliRefsHas(d: Defaults, agents: seq<Agent>, x: string)
    ensures x in CliRefs(d, agents) <==>
            x in ALLOWLIST || exists raw :: raw in NamedByConfig(d, agents) && x in RuntimeRefs(raw)
  {
    AddRefsHas([], FlatMap(RuntimeRefs, NamedByConfig(d, agents)) + ALLOWLIST, x);
    FlatMapHas(RuntimeRefs, NamedByConfig(d, agents), x);
  }

  /** The default allowlist stands for itself. */
  lemma AllowlistIsClosed(raw: string, x: string)
    requires raw in ALLOWLIST && x in RuntimeRefs(raw)
    ensures x == raw
  {
    var name := AllowedName(raw);
    CurrentNames(name);
    ProperIsCanonical(name);
    ResolvesToItself(name);
  }

  lemma ProperIsCanonical(c: string)
    requires ProperName(c)
    ensures CanonicalizeKnownClaudeCliModelId(c) == Some(c)
  {
    ProperIsFirm(c);
    TrimFixed(c);
    SplitUnmarked(c);
    FirmStays(c);
  }

  lemma AllowedName(raw: string) returns (name: string)
    requires raw in ALLOWLIST
    ensures Current(name) && raw == "anthropic/" + name
  {
    name := if raw == ALLOWLIST[0] then OPUS
            else if raw == ALLOWLIST[1] then "claude-opus-4-7"
            else if raw == ALLOWLIST[2] then SONNET
            else "claude-opus-4-6";
  }

  /** `after` is what the OAuth pass makes of the defaults. */
  predicate GivenRuntimes(d: Defaults, agents: seq<Agent>, after: Defaults) {
    after.model == d.model && after.models.GetOr([]) == RuntimeEach(d.models.GetOr([]), CliRefs(d, agents))
  }

  /** The names in the defaulted configuration: the old ones and the references just given an entry. */
  lemma NamesAfter(d: Defaults, agents: seq<Agent>, after: Defaults, raw: string)
    requires Keyed(d.models.GetOr([])) && GivenRuntimes(d, agents, after)
    ensures raw in NamedByConfig(after, agents) ==> raw in NamedByConfig(d, agents) || raw in CliRefs(d, agents)
    ensures raw in NamedByConfig(d, agents) || raw in CliRefs(d, agents) ==> raw in NamedByConfig(after, agents)
  {
    KeysHave(after.models.GetOr([]), raw);
    KeysHave(d.models.GetOr([]), raw);
    RuntimeEachKeyed(d.models.GetOr([]), CliRefs(d, agents));
    if raw in CliRefs(d, agents) { RuntimeEachSettles(d.models.GetOr([]), CliRefs(d, agents), raw); }
  }

  /** Every unstable reference in the configuration has its extra one in it too. */
  predicate RefsSettle(d: Defaults, agents: seq<Agent>) {
    forall raw :: raw in NamedByConfig(d, agents) && UnstableRef(raw) ==> Extra(raw) in CliRefs(d, agents)
  }

  /** A second pass finds no more than the first, and the extra references of the unstable ones. */
  lemma CliRefsGrow(d: Defaults, agents: seq<Agent>, after: Defaults, x: string)
    requires Keyed(d.models.GetOr([])) && GivenRuntimes(d, agents, after) && x in CliRefs(after, agents)
    ensures x in CliRefs(d, agents)
            || exists raw :: raw in NamedByConfig(d, agents) && UnstableRef(raw) && x == Extra(raw)
  {
    CliRefsHas(after, agents, x);
    CliRefsHas(d, agents, x);
    if x !in ALLOWLIST {
      var raw :| raw in NamedByConfig(after, agents) && x in RuntimeRefs(raw);
      NamesAfter(d, agents, after, raw);
      CliRefsHas(d, agents, raw);
      if raw !in NamedByConfig(d, agents) {
        if raw in ALLOWLIST {
          AllowlistIsClosed(raw, x);
        } else {
          var source :| source in NamedByConfig(d, agents) && raw in RuntimeRefs(source);
          RuntimeRefsGrow(source, raw, x);
        }
      }
    }
  }

  /** An extra reference that is not collected by the first pass is by the second. */
  lemma ExtraIsCollected(d: Defaults, agents: seq<Agent>, after: Defaults, raw: string)
    requires Keyed(d.models.GetOr([])) && GivenRuntimes(d, agents, after)
    requires raw in NamedByConfig(d, agents) && UnstableRef(raw)
    ensures Extra(raw) in CliRefs(after, agents)
    ensures Extra(raw) !in CliRefs(d, agents) ==> Lookup(after.models.GetOr([]), Extra(raw)).None?
  {
    var x := Extra(raw);
    var r := ExtraIsNew(raw);
    CliRefsHas(d, agents, r);
    CliRefsHas(d, agents, x);
    NamesAfter(d, agents, after, r);
    CliRefsHas(after, agents, x);
    RuntimeEachKeyed(d.models.GetOr([]), CliRefs(d, agents));
    KeysHave(d.models.GetOr([]), x);
  }

  /** A reference the first pass collects is collected again. */
  lemma CliRefsStay(d: Defaults, agents: seq<Agent>, after: Defaults, x: string)
    requires Keyed(d.models.GetOr([])) && GivenRuntimes(d, agents, after) && x in CliRefs(d, agents)
    ensures x in CliRefs(after, agents)
  {
    CliRefsHas(d, agents, x);
    CliRefsHas(after, agents, x);
    if x !in ALLOWLIST {
      var raw :| raw in NamedByConfig(d, agents) && x in RuntimeRefs(raw);
      NamesAfter(d, agents, after, raw);
    }
  }

  /** Main theorem. The defaulted configuration stands for exactly the references it stood for before,
      and the extra ones of the unstable among them. */
  lemma CliRefsAfterIff(d: Defaults, agents: seq<Agent>, after: Defaults, x: string)
    requires Keyed(d.models.GetOr([])) && GivenRuntimes(d, agents, after)
    ensures x in CliRefs(after, agents) <==>
            || x in CliRefs(d, agents)
            || exists raw :: raw in NamedByConfig(d, agents) && UnstableRef(raw) && x == Extra(raw)
  {
    if x in CliRefs(after, agents) { CliRefsGrow(d, agents, after, x); }
    if x in CliRefs(d, agents) { CliRefsStay(d, agents, after, x); }
    forall raw | raw in NamedByConfig(d, agents) && UnstableRef(raw) && x == Extra(raw)
      ensures x in CliRefs(after, agents)
    {
      ExtraIsCollected(d, agents, after, raw);
    }
  }

  /** A second pass over no more references changes nothing. */
  lemma SecondPassRests(m: Record, refs: seq<string>, again: seq<string>)
    requires forall r :: r in again ==> r in refs
    ensures RuntimeEach(RuntimeEach(m, refs), again) == RuntimeEach(m, refs)
  {
    forall r | r in again ensures Settled(Lookup(RuntimeEach(m, refs), r)) { RuntimeEachSettles(m, refs, r); }
    RuntimeEachRests(RuntimeEach(m, refs), again);
  }

  lemma OAuthRests(d: Defaults, agents: seq<Agent>, after: Defaults)
    requires Keyed(d.models.GetOr([])) && GivenRuntimes(d, agents, after) && RefsSettle(d, agents)
    ensures RuntimeEach(after.models.GetOr([]), CliRefs(after, agents)) == after.models.GetOr([])
  {
    forall r | r in CliRefs(after, agents) ensures r in CliRefs(d, agents) { CliRefsGrow(d, agents, after, r); }
    SecondPassRests(d.models.GetOr([]), CliRefs(d, agents), CliRefs(after, agents));
  }

  /** A pass over a reference without entry adds one. */
  lemma PassAdds(m: Record, refs: seq<string>, r: string)
    requires r in refs && Lookup(m, r).None?
    ensures RuntimeEach(m, refs) != m
  {
    RuntimeEachSettles(m, refs, r);
  }

  lemma OAuthMoves(d: Defaults, agents: seq<Agent>, after: Defaults, raw: string)
    requires Keyed(d.models.GetOr([])) && GivenRuntimes(d, agents, after)
    requires raw in NamedByConfig(d, agents) && UnstableRef(raw) && Extra(raw) !in CliRefs(d, agents)
    ensures RuntimeEach(after.models.GetOr([]), CliRefs(after, agents)) != after.models.GetOr([])
  {
    ExtraIsCollected(d, agents, after, raw);
    PassAdds(after.models.GetOr([]), CliRefs(after, agents), Extra(raw));
  }

  /** Main theorem for OAuth: a second pass changes nothing exactly when the references settle. */
  lemma OAuthFixpointIff(d: Defaults, agents: seq<Agent>, after: Defaults)
    requires Keyed(d.models.GetOr([])) && GivenRuntimes(d, agents, after)
    ensures RuntimeEach(after.models.GetOr([]), CliRefs(after, agents)) == after.models.GetOr([])
            <==> RefsSettle(d, agents)
  {
    if RefsSettle(d, agents) {
      OAuthRests(d, agents, after);
    } else {
      var raw :| raw in NamedByConfig(d, agents) && UnstableRef(raw) && Extra(raw) !in CliRefs(d, agents);
      OAuthMoves(d, agents, after, raw);
    }
  }

  // ---------------------------------------------------------------- the whole

  /** JSON objects have one value per field. */
  ghost predicate Proper(config: Config) {
    config.defaults.Some? ==> Keyed(config.defaults.value.models.GetOr([]))
  }

  lemma PruningFixpoint(pruning: Option<Record>)
    ensures PruningDefault(PruningDefault(pruning)) == PruningDefault(pruning)
  {
  }

  lemma HeartbeatFixpoint(heartbeat: Option<Record>, mode: AuthMode)
    ensures HeartbeatDefault(HeartbeatDefault(heartbeat, mode), mode) == HeartbeatDefault(heartbeat, mode)
  {
  }

  lemma ApiKeyNext(env: Env, d: Defaults, agents: seq<Agent>, after: Defaults)
    requires env.authMode == Some(ApiKey) && Keyed(d.models.GetOr([]))
    requires after.model == d.model && after.models.GetOr([]) == NextModels(env, d, agents)
    ensures NextModels(env, after, agents) == after.models.GetOr([])
  {
    ApiKeyFixpoint(d.model, d.models.GetOr([]));
  }

  predicate UsesCli(env: Env, d: Defaults) { UsesClaudeCliModelSelection(d) || env.cliProfileSelected }

  lemma SelectionStays(m: Record, refs: seq<string>, i: nat)
    requires Keyed(m) && i < |m| && SelectsCli(m[i].0, m[i].1)
    ensures exists j :: 0 <= j < |RuntimeEach(m, refs)|
              && SelectsCli(RuntimeEach(m, refs)[j].0, RuntimeEach(m, refs)[j].1)
  {
    var after, key := RuntimeEach(m, refs), m[i].0;
    LookupAt(m, i);
    RuntimeEachKeyed(m, refs);
    if RuntimeOf(m[i].1) == CLI {
      CliIsPlain();
      RuntimeEachKeeps(m, refs, key);
    }
    var j := LookupFinds(after, key);
    assert SelectsCli(after[j].0, after[j].1);
  }

  lemma UsesCliStays(env: Env, d: Defaults, agents: seq<Agent>, after: Defaults)
    requires Keyed(d.models.GetOr([])) && GivenRuntimes(d, agents, after) && UsesCli(env, d)
    ensures UsesCli(env, after)
  {
    var m := d.models.GetOr([]);
    if i :| 0 <= i < |m| && SelectsCli(m[i].0, m[i].1) { SelectionStays(m, CliRefs(d, agents), i); }
  }

  lemma OAuthNext(env: Env, d: Defaults, agents: seq<Agent>, after: Defaults)
    requires env.authMode == Some(OAuth) && Keyed(d.models.GetOr([]))
    requires after.model == d.model && after.models.GetOr([]) == NextModels(env, d, agents)
    ensures NextModels(env, after, agents) == after.models.GetOr([]) <==> (UsesCli(env, d) ==> RefsSettle(d, agents))
  {
    if UsesCli(env, d) {
      UsesCliStays(env, d, agents, after);
      OAuthFixpointIff(d, agents, after);
    }
  }

  /** When a second pass changes nothing: always with an API key, and under OAuth when the references
      of a configuration that uses the Claude CLI settle. */
  predicate Rests(env: Env, config: Config) {
    config.defaults.Some? && env.authMode == Some(OAuth) && UsesCli(env, config.defaults.value)
    ==> RefsSettle(config.defaults.value, config.agents)
  }

  /** Main theorem. Defaulting reaches its fixpoint in one pass exactly when `Rests`. */
  lemma DefaultingIsIdempotentIff(env: Env, config: Config)
    requires Proper(config)
    ensures var once := ApplyAnthropicConfigDefaults(env, config);
            ApplyAnthropicConfigDefaults(env, once) == once <==> Rests(env, config)
  {
    if config.defaults.Some? && env.authMode.Some? {
      var d := config.defaults.value;
      var after := ApplyAnthropicConfigDefaults(env, config).defaults.value;
      PruningFixpoint(d.contextPruning);
      HeartbeatFixpoint(d.heartbeat, env.authMode.value);
      assert after.models.GetOr([]) == NextModels(env, d, config.agents);
      match env.authMode.value
      case ApiKey => ApiKeyNext(env, d, config.agents, after);
      case OAuth => OAuthNext(env, d, config.agents, after);
    }
  }

  /** A configuration whose one reference is unstable, under OAuth with the Claude CLI, needs two passes. */
  lemma LoneUnstableMoves(env: Env, config: Config, raw: string)
    requires env.authMode == Some(OAuth) && env.cliProfileSelected && Proper(config)
    requires config.defaults.Some? && NamedByConfig(config.defaults.value, config.agents) == [raw] && UnstableRef(raw)
    ensures var once := ApplyAnthropicConfigDefaults(env, config); ApplyAnthropicConfigDefaults(env, once) != once
  {
    DefaultingIsIdempotentIff(env, config);
    LoneDoesNotSettle(config.defaults.value, config.agents, raw);
  }

  lemma LoneDoesNotSettle(d: Defaults, agents: seq<Agent>, raw: string)
    requires NamedByConfig(d, agents) == [raw] && UnstableRef(raw)
    ensures !RefsSettle(d, agents)
  {
    CliRefsHas(d, agents, Extra(raw));
    var _ := ExtraIsNew(raw);
    if Extra(raw) in ALLOWLIST { AllowlistIsMarkless(Extra(raw)); }
    assert raw in NamedByConfig(d, agents);
  }

  function Lone(raw: string): Config { Config(Some(Defaults(None, None, One(raw), None)), []) }

  lemma LoneNames(raw: string)
    ensures NamedByConfig(Lone(raw).defaults.value, []) == [raw]
  {
  }

  lemma AllowlistIsMarkless(raw: string)
    requires raw in ALLOWLIST
    ensures '@' !in raw
  {
    var name := AllowedName(raw);
    CurrentNames(name);
    assert '@' !in "anthropic/";
  }

  /** Written out: a default model of `anthropic/claude-opus-4-8@ 20240101@ b`. */
  lemma DefaultingCanTakeTwoPasses(env: Env)
    requires env == ConfigDefaults.Env(Some(OAuth), true)
    ensures var once := ApplyAnthropicConfigDefaults(env, Lone("anthropic/" + Example()));
            ApplyAnthropicConfigDefaults(env, once) != once
  {
    AnUnstableRef();
    LoneNames("anthropic/" + Example());
    LoneUnstableMoves(env, Lone("anthropic/" + Example()), "anthropic/" + Example());
  }

  /** References without white space always settle. */
  lemma PlainRefsSettle(env: Env, config: Config)
    requires Proper(config)
    requires config.defaults.Some? ==>
               forall raw :: raw in NamedByConfig(config.defaults.value, config.agents) ==>
                 forall c :: c in raw ==> !IsSpace(c)
    ensures var once := ApplyAnthropicConfigDefaults(env, config); ApplyAnthropicConfigDefaults(env, once) == once
  {
    DefaultingIsIdempotentIff(env, config);
    if config.defaults.Some? {
      forall raw | raw in NamedByConfig(config.defaults.value, config.agents) ensures !UnstableRef(raw) {
        PlainRefIsStable(raw);
      }
    }
  }

  /** An entry that has what defaulting would give it. */
  predicate Explicit(mode: AuthMode, entry: Json) {
    match mode
    case ApiKey => HasRetention(entry)
    case OAuth => RuntimeOf(entry) != "" && RuntimeOf(entry) != "auto"
  }

  /** Main theorem. No model entry disappears, and an explicit one stays as it is. */
  lemma ExplicitEntriesStay(env: Env, d: Defaults, agents: seq<Agent>, k: string)
    requires env.authMode.Some? && Keyed(d.models.GetOr([])) && Lookup(d.models.GetOr([]), k).Some?
    ensures var before, after := Lookup(d.models.GetOr([]), k), Lookup(NextModels(env, d, agents), k);
            after.Some? && (Explicit(env.authMode.value, before.value) ==> after == before)
  {
    var m := d.models.GetOr([]);
    match env.authMode.value
    case ApiKey => GiveAllKeeps(CacheRetention(), m, PrimaryKey(d.model), ALLOWED, k);
    case OAuth =>
      RuntimeEachKeyed(m, CliRefs(d, agents));
      if Explicit(OAuth, Lookup(m, k).value) { RuntimeEachKeeps(m, CliRefs(d, agents), k); }
  }

  /** Model choices and agents are untouched, and so are a pruning mode and a heartbeat
      interval that are set. */
  lemma ExplicitSettingsStay(env: Env, config: Config)
    requires config.defaults.Some?
    ensures var d, after := config.defaults.value, ApplyAnthropicConfigDefaults(env, config).defaults;
            && after.Some? && after.value.model == d.model
            && ApplyAnthropicConfigDefaults(env, config).agents == config.agents
            && (d.contextPruning.Some? && Lookup(d.contextPruning.value, "mode").Some? ==>
                  after.value.contextPruning == d.contextPruning)
            && (d.heartbeat.Some? && Lookup(d.heartbeat.value, "every").Some? ==> after.value.heartbeat == d.heartbeat)
            && (env.authMode.Some? ==>
                  after.value.models.GetOr([]) == NextModels(env, d, config.agents))
  {
  }

  lemma {:induction false} GiveEachLeaves(rule: Rule, m: Record, entries: Record, k: string)
    requires forall j :: 0 <= j < |entries| && entries[j].0 == k ==> rule.has(entries[j].1)
    ensures Lookup(GiveEach(rule, m, entries), k) == Lookup(m, k)
  {
    if entries != [] { GiveEachLeaves(rule, m, entries[..|entries| - 1], k); }
  }

  lemma GiveAllKeeps(rule: Rule, m: Record, primary: Option<string>, allowed: string, k: string)
    requires Keyed(m)
    ensures Lookup(m, k).Some? ==> Lookup(GiveAll(rule, m, primary, allowed), k).Some?
    ensures HasAt(rule, m, k) ==> Lookup(GiveAll(rule, m, primary, allowed), k) == Lookup(m, k)
  {
    GiveEachStays(rule, m, m, k);
    if HasAt(rule, m, k) {
      forall j | 0 <= j < |m| && m[j].0 == k ensures rule.has(m[j].1) { LookupAt(m, j); }
      GiveEachLeaves(rule, m, m, k);
    }
  }

  lemma {:induction false} GiveEachStays(rule: Rule, m: Record, entries: Record, k: string)
    ensures Lookup(m, k).Some? ==> Lookup(GiveEach(rule, m, entries), k).Some?
  {
    if entries != [] { GiveEachStays(rule, m, entries[..|entries| - 1], k); }
  }
}
