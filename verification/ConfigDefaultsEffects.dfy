/** The values the defaults give, and to what. */
module ConfigDefaultsEffects {
  import opened Options
  import opened OrderedMaps
  import opened Json
  import opened Text
  import opened ModelRefs
  import opened ConfigDefaults
  import opened ConfigDefaultsFixpoint

  /** Pruning becomes "cache-ttl", an hour unless a time is set; a set mode keeps it all. */
  lemma PruningGiven(pruning: Option<Record>, field: string)
    ensures var before, after := pruning.GetOr([]), PruningDefault(pruning);
            if Lookup(before, "mode").Some? then after == pruning
            else
              && after.Some? && Lookup(after.value, "mode") == Some(Str("cache-ttl"))
              && Lookup(after.value, "ttl")
                 == (if Lookup(before, "ttl").None? || Lookup(before, "ttl").value.Null? then Some(Str("1h"))
                     else Lookup(before, "ttl"))
              && (field != "mode" && field != "ttl" ==> Lookup(after.value, field) == Lookup(before, field))
  {
  }

  /** The heartbeat comes every hour under OAuth and every half hour with an API key, unless set. */
  lemma HeartbeatGiven(heartbeat: Option<Record>, mode: AuthMode, field: string)
    ensures var before, after := heartbeat.GetOr([]), HeartbeatDefault(heartbeat, mode);
            if Lookup(before, "every").Some? then after == heartbeat
            else
              && after.Some?
              && Lookup(after.value, "every") == Some(Str(match mode case OAuth => "1h" case ApiKey => "30m"))
              && (field != "every" ==> Lookup(after.value, field) == Lookup(before, field))
  {
  }

  /** Both are given whenever there is authentication. */
  lemma SettingsGiven(env: Env, config: Config)
    requires config.defaults.Some? && env.authMode.Some?
    ensures var d, after := config.defaults.value, ApplyAnthropicConfigDefaults(env, config).defaults;
            && after.Some? && after.value.contextPruning == PruningDefault(d.contextPruning)
            && after.value.heartbeat == HeartbeatDefault(d.heartbeat, env.authMode.value)
  {
  }

  /** Without authentication, or without defaults, nothing is touched. */
  lemma NothingToDefault(env: Env, config: Config)
    requires config.defaults.None? || env.authMode.None?
    ensures ApplyAnthropicConfigDefaults(env, config) == config
  {
  }

  /** Retention is "short", beside the parameters and fields an entry has. */
  lemma RetentionIsShort(entry: Json, field: string)
    ensures var given := WithRetention(entry);
            && given.Obj? && Get(Params(given), "cacheRetention") == Some(Str("short"))
            && (entry.Obj? && field != "params" ==> Get(given, field) == Get(entry, field))
            && (Params(entry).Obj? && field != "cacheRetention" ==>
                  Get(Params(given), field) == Get(Params(entry), field))
  {
  }

  /** The entries that take retention: Anthropic models, named with or without their provider, and those
      Amazon Bedrock serves. */
  lemma TargetsAre(provider: string, model: string)
    requires Trim(provider) == provider && Trim(model) == model && provider != "" && model != "" && '/' !in provider
    requires Trim(provider + "/" + model) == provider + "/" + model
    ensures var p := Lower(provider);
            Target(provider + "/" + model) <==>
              || p == "anthropic"
              || ((p == "amazon-bedrock" || p == "bedrock" || p == "aws-bedrock")
                  && Includes(Lower(model), "anthropic.claude"))
  {
    ParsesApart(provider, model);
    TargetRef(provider, model);
  }

  lemma ParsesApart(provider: string, model: string)
    requires Trim(provider) == provider && Trim(model) == model && provider != "" && model != "" && '/' !in provider
    requires Trim(provider + "/" + model) == provider + "/" + model
    ensures ParseRef(provider + "/" + model) == Some(Ref(NormalizeProviderId(provider), model))
  {
    var t := provider + "/" + model;
    assert t[|provider|] == '/' && forall k :: 0 <= k < |provider| ==> t[k] == provider[k];
    assert IndexOf(t, '/', 0) == Some(|provider|);
    assert t[..|provider|] == provider && t[|provider| + 1..] == model;
  }

  lemma TargetRef(provider: string, model: string)
    requires Trim(provider) == provider && Trim(model) == model
    ensures var p := Lower(provider);
            IsCacheRetentionTarget(Some(Ref(NormalizeProviderId(provider), model))) <==>
              || p == "anthropic"
              || ((p == "amazon-bedrock" || p == "bedrock" || p == "aws-bedrock")
                  && Includes(Lower(model), "anthropic.claude"))
  {
  }

  /** Main theorem. With an API key every listed target without retention gets it short, and so does the
      primary model if it is a target; with any target listed, the default model is listed too. */
  lemma RetentionGiven(model: ModelChoice, m: Record, k: string)
    requires Keyed(m) && Lookup(m, k).Some? && Target(k)
    ensures var after := ApiKeyModels(model, m);
            && Lookup(after, k).Some? && HasRetention(Lookup(after, k).value)
            && Lookup(after, "anthropic/claude-sonnet-4-6").Some?
  {
    ApiKeyFixpoint(model, m);
    CacheRetentionIsSound();
    GiveAllKeeps(CacheRetention(), m, PrimaryKey(model), ALLOWED, k);
    var after := ApiKeyModels(model, m);
    assert HasAt(CacheRetention(), after, k);
    var i := LookupFinds(after, k);
    assert CacheRetention().target(after[i].0);
  }

  lemma PrimaryGiven(model: ModelChoice, m: Record)
    requires Keyed(m) && PrimaryKey(model).Some?
    ensures var entry := Lookup(ApiKeyModels(model, m), PrimaryKey(model).value);
            entry.Some? && HasRetention(entry.value)
  {
    ApiKeyFixpoint(model, m);
    assert HasAt(CacheRetention(), ApiKeyModels(model, m), PrimaryKey(model).value);
  }

  /** The Claude CLI runtime is given beside what an entry has, unless a runtime other than "auto" is set. */
  lemma RuntimeIsCli(entry: Json, field: string)
    ensures var given := WithClaudeCliRuntime(entry);
            && given.Obj?
            && (entry.Obj? && RuntimeOf(entry) != "" && RuntimeOf(entry) != "auto" ==> given == entry)
            && (!entry.Obj? || RuntimeOf(entry) == "" || RuntimeOf(entry) == "auto" ==>
                  RuntimeOf(given) == "claude-cli")
            && (entry.Obj? && field != "agentRuntime" ==> Get(given, field) == Get(entry, field))
  {
    CliIsPlain();
  }

  /** The entry is listed, with a runtime of its own. */
  predicate Runs(entry: Option<Json>) {
    entry.Some? && RuntimeOf(entry.value) != "" && RuntimeOf(entry.value) != "auto"
  }

  lemma RuntimeAtRuns(m: Record, ref: string)
    ensures Runs(Lookup(RuntimeAt(m, ref), ref))
    ensures Lookup(m, ref).None? ==> RuntimeOf(Lookup(RuntimeAt(m, ref), ref).value) == "claude-cli"
    ensures forall k :: k != ref ==> Lookup(RuntimeAt(m, ref), k) == Lookup(m, k)
  {
    var current := Lookup(m, ref);
    RuntimeIsCli(current.GetOr(Null), "");
    if WithClaudeCliRuntime(current.GetOr(Null)) == OrElse(current, Obj([])) {
      assert RuntimeOf(Obj([])) == "";
    }
  }

  lemma RuntimeAtKeeps(m: Record, ref: string)
    requires Runs(Lookup(m, ref))
    ensures RuntimeAt(m, ref) == m
  {
    RuntimeIsCli(Lookup(m, ref).value, "");
  }

  /** What a pass makes of the entry of `r`: given a runtime, that of the CLI if it is new, or left alone. */
  predicate PassedOver(m: Record, r: string, given: bool, entry: Option<Json>) {
    if given then Runs(entry) && (Lookup(m, r).None? ==> RuntimeOf(entry.value) == "claude-cli")
    else entry == Lookup(m, r)
  }

  lemma OneMoreRuns(m: Record, before: Record, last: string, r: string, given: bool)
    requires PassedOver(m, r, given, Lookup(before, r))
    ensures PassedOver(m, r, given || r == last, Lookup(RuntimeAt(before, last), r))
  {
    RuntimeAtRuns(before, last);
    if given && r == last { RuntimeAtKeeps(before, r); }
  }

  lemma {:induction false} RuntimeEachRuns(m: Record, refs: seq<string>, r: string)
    ensures PassedOver(m, r, r in refs, Lookup(RuntimeEach(m, refs), r))
  {
    if refs != [] {
      var init, last := refs[..|refs| - 1], refs[|refs| - 1];
      RuntimeEachRuns(m, init, r);
      assert refs == init + [last];
      OneMoreRuns(m, RuntimeEach(m, init), last, r, r in init);
    }
  }

  /** Main theorem. Under OAuth with the Claude CLI every reference the configuration names, every
      rewritten one, and the four default ones end up listed, with a runtime. */
  lemma RuntimesGiven(env: Env, d: Defaults, agents: seq<Agent>, raw: string, ref: string)
    requires env.authMode == Some(OAuth) && UsesCli(env, d)
    requires (raw in NamedByConfig(d, agents) && ref in RuntimeRefs(raw)) || ref in ALLOWLIST
    ensures var entry := Lookup(NextModels(env, d, agents), ref);
            Runs(entry) && (Lookup(d.models.GetOr([]), ref).None? ==> RuntimeOf(entry.value) == "claude-cli")
  {
    CliRefsHas(d, agents, ref);
    RuntimeEachRuns(d.models.GetOr([]), CliRefs(d, agents), ref);
  }

  /** The four references listed by default. */
  lemma AllowlistIs()
    ensures ALLOWLIST == ["anthropic/claude-opus-4-8", "anthropic/claude-opus-4-7",
                          "anthropic/claude-sonnet-4-6", "anthropic/claude-opus-4-6"]
  {
    assert "anthropic/" + "claude-opus-4-8" == "anthropic/claude-opus-4-8";
    assert "anthropic/" + "claude-opus-4-7" == "anthropic/claude-opus-4-7";
    assert "anthropic/" + "claude-sonnet-4-6" == "anthropic/claude-sonnet-4-6";
    assert "anthropic/" + "claude-opus-4-6" == "anthropic/claude-opus-4-6";
  }

  /** The Claude CLI is used when the primary model, or a listed one, is of its provider, or when an
      Anthropic entry already runs on it. */
  lemma CliIsUsed(d: Defaults, k: string, entry: Json)
    requires Lookup(d.models.GetOr([]), k) == Some(entry) && ParseRef(k).Some?
    requires ParseRef(k).value.provider == "claude-cli"
             || (ParseRef(k).value.provider == "anthropic" && RuntimeOf(entry) == "claude-cli")
    ensures UsesClaudeCliModelSelection(d)
  {
    var i := LookupFinds(d.models.GetOr([]), k);
    assert SelectsCli(d.models.GetOr([])[i].0, d.models.GetOr([])[i].1);
  }

  /** It is used as well when the primary model is of its provider, named alone or with fallbacks. */
  lemma PrimaryUsesCli(d: Defaults, ref: string, fallbacks: seq<string>)
    requires d.model == One(ref) || d.model == Chain(Some(ref), fallbacks)
    requires Trim(ref) != "" && ParseRef(Trim(ref)).Some? && ParseRef(Trim(ref)).value.provider == "claude-cli"
    ensures UsesClaudeCliModelSelection(d)
  {
  }

  /** With an API key the primary model is listed under its resolved reference, if that is a target. */
  lemma PrimaryKeyIs(model: ModelChoice, ref: string, fallbacks: seq<string>)
    requires (model == One(ref) || model == Chain(Some(ref), fallbacks)) && Trim(ref) != ""
    ensures var parsed := ParseRef(ResolveKnownAnthropicModelRef(Some(Trim(ref))).GetOr(""));
            ResolveKnownAnthropicModelRef(Some(Trim(ref))).Some? && IsCacheRetentionTarget(parsed) ==>
              PrimaryKey(model) == Some(parsed.value.provider + "/" + parsed.value.model)
  {
  }

  /** What a model choice names: its reference, or its primary and all fallbacks. */
  lemma ChoiceNames(ref: string, fallbacks: seq<string>, x: string)
    ensures Named(One(ref)) == [ref] && Named(Unset) == []
    ensures x in Named(Chain(Some(ref), fallbacks)) <==> x == ref || x in fallbacks
    ensures x in Named(Chain(None, fallbacks)) <==> x in fallbacks
  {
  }

  /** Main theorem. The configuration names what the defaults and every agent choose, and every listed model. */
  lemma ConfigNames(d: Defaults, agents: seq<Agent>, x: string)
    ensures x in NamedByConfig(d, agents) <==>
              || x in Named(d.model) || Lookup(d.models.GetOr([]), x).Some?
              || exists i :: 0 <= i < |agents| && (x in Named(agents[i].model) || Lookup(agents[i].models, x).Some?)
  {
    KeysHave(d.models.GetOr([]), x);
    AgentsName(agents, x);
  }

  lemma {:induction false} AgentsName(agents: seq<Agent>, x: string)
    ensures x in NamedByAgents(agents) <==>
              exists i :: 0 <= i < |agents| && (x in Named(agents[i].model) || Lookup(agents[i].models, x).Some?)
  {
    if agents != [] {
      var init, last := agents[..|agents| - 1], agents[|agents| - 1];
      AgentsName(init, x);
      KeysHave(last.models, x);
      if i :| 0 <= i < |init| && (x in Named(init[i].model) || Lookup(init[i].models, x).Some?) {
        assert agents[i] == init[i];
      }
      if i :| 0 <= i < |init| && (x in Named(agents[i].model) || Lookup(agents[i].models, x).Some?) {
        assert agents[i] == init[i];
      }
    }
  }
}
