/** The loops of `applyAnthropicConfigDefaults` and its collectors, with their "mutated" flags. */
module ConfigDefaultsLoops {
  import opened Options
  import opened OrderedMaps
  import opened Json
  import opened ModelRefs
  import opened ConfigDefaults
  import opened ConfigDefaultsFixpoint

  // ---------------------------------------------------------------- collecting references

  lemma {:induction false} AddRefsAppend(refs: seq<string>, a: seq<string>, b: seq<string>)
    ensures AddRefs(refs, a + b) == AddRefs(AddRefs(refs, a), b)
  {
    if b == [] {
      assert a + b == a;
    } else {
      assert (a + b)[..|a + b| - 1] == a + b[..|b| - 1];
      AddRefsAppend(refs, a, b[..|b| - 1]);
    }
  }

  lemma {:induction false} FlatMapAppend(f: string -> seq<string>, a: seq<string>, b: seq<string>)
    ensures FlatMap(f, a + b) == FlatMap(f, a) + FlatMap(f, b)
  {
    if b == [] {
      assert a + b == a;
    } else {
      assert (a + b)[..|a + b| - 1] == a + b[..|b| - 1];
      FlatMapAppend(f, a, b[..|b| - 1]);
    }
  }

  method AddEach(refs: seq<string>, more: seq<string>) returns (r: seq<string>)
    ensures r == AddRefs(refs, more)
  {
    r := refs;
    for n := 0 to |more|
      invariant r == AddRefs(refs, more[..n])
    {
      assert more[..n + 1][..n] == more[..n];
      if more[n] !in r {
        r := r + [more[n]];
      }
    }
    assert more[..|more|] == more;
  }

  /** Adds what every one of `raws` stands for. */
  method CollectRuntimeRefs(f: string -> seq<string>, refs: seq<string>, raws: seq<string>) returns (r: seq<string>)
    ensures r == AddRefs(refs, FlatMap(f, raws))
  {
    r := refs;
    for n := 0 to |raws|
      invariant r == AddRefs(refs, FlatMap(f, raws[..n]))
    {
      assert raws[..n + 1][..n] == raws[..n];
      AddRefsAppend(refs, FlatMap(f, raws[..n]), f(raws[n]));
      r := AddEach(r, f(raws[n]));
    }
    assert raws[..|raws|] == raws;
  }

  /** `collectClaudeCliRuntimeRefsFromConfig`. */
  method CollectFromConfig(f: string -> seq<string>, d: Defaults, agents: seq<Agent>) returns (refs: seq<string>)
    ensures refs == AddRefs([], FlatMap(f, NamedByConfig(d, agents)))
  {
    ghost var own := Named(d.model) + Keys(d.models.GetOr([]));
    refs := CollectRuntimeRefs(f, [], Named(d.model));
    FlatMapAppend(f, Named(d.model), Keys(d.models.GetOr([])));
    AddRefsAppend([], FlatMap(f, Named(d.model)), FlatMap(f, Keys(d.models.GetOr([]))));
    refs := CollectRuntimeRefs(f, refs, Keys(d.models.GetOr([])));
    assert own + NamedByAgents(agents[..0]) == own;
    for n := 0 to |agents|
      invariant refs == AddRefs([], FlatMap(f, own + NamedByAgents(agents[..n])))
    {
      var agent := agents[n];
      AgentsNext(f, own, agents, n);
      refs := CollectRuntimeRefs(f, refs, Named(agent.model));
      refs := CollectRuntimeRefs(f, refs, Keys(agent.models));
    }
    assert agents[..|agents|] == agents;
  }

  lemma AgentsNext(f: string -> seq<string>, own: seq<string>, agents: seq<Agent>, n: nat)
    requires n < |agents|
    ensures var before := AddRefs([], FlatMap(f, own + NamedByAgents(agents[..n])));
            AddRefs([], FlatMap(f, own + NamedByAgents(agents[..n + 1])))
            == AddRefs(AddRefs(before, FlatMap(f, Named(agents[n].model))), FlatMap(f, Keys(agents[n].models)))
  {
    var soFar, a, b := own + NamedByAgents(agents[..n]), Named(agents[n].model), Keys(agents[n].models);
    assert agents[..n + 1][..n] == agents[..n];
    assert own + NamedByAgents(agents[..n + 1]) == soFar + (a + b);
    FlatMapAppend(f, soFar, a + b);
    FlatMapAppend(f, a, b);
    AddRefsAppend([], FlatMap(f, soFar), FlatMap(f, a) + FlatMap(f, b));
    AddRefsAppend(AddRefs([], FlatMap(f, soFar)), FlatMap(f, a), FlatMap(f, b));
  }

  // ---------------------------------------------------------------- API key

  /** Some entry was given what it lacked. */
  ghost predicate Gained(rule: Rule, m: Record, next: Record) {
    exists k :: HasAt(rule, next, k) && !HasAt(rule, m, k)
  }

  lemma GiveAtGains(rule: Rule, m: Record, before: Record, key: string, entry: Json)
    requires Sound(rule) && !rule.has(entry) && Lookup(m, key).GetOr(Null) == entry
    ensures Gained(rule, m, Put(before, key, rule.give(entry)))
  {
    assert HasAt(rule, Put(before, key, rule.give(entry)), key) && !HasAt(rule, m, key);
  }

  /** The three steps on the models; the flag tells exactly whether anything changed. */
  method GiveDefaults(rule: Rule, m: Record, primary: Option<string>, allowed: string)
    returns (next: Record, modelsMutated: bool)
    requires Sound(rule) && Keyed(m)
    ensures next == GiveAll(rule, m, primary, allowed)
    ensures modelsMutated <==> next != m
  {
    next, modelsMutated := m, false;
    for n := 0 to |m|
      invariant next == GiveEach(rule, m, m[..n])
      invariant if modelsMutated then Gained(rule, m, next) else next == m
    {
      assert m[..n + 1][..n] == m[..n];
      var (key, entry) := m[n];
      if !rule.target(key) {
        continue;
      }
      if rule.has(entry) {
        continue;
      }
      LookupAt(m, n);
      GiveAtGains(rule, m, next, key, entry);
      next := Put(next, key, rule.give(entry));
      modelsMutated := true;
    }
    assert m[..|m|] == m;
    if primary.Some? {
      var entry := Lookup(next, primary.value).GetOr(Null);
      if !rule.has(entry) {
        PrimaryGains(rule, m, primary.value);
        next := Put(next, primary.value, rule.give(entry));
        modelsMutated := true;
      }
    }
    if HasTarget(rule, next) && Lookup(next, allowed).None? {
      AllowedGains(rule, m, primary, allowed);
      next := Put(next, allowed, rule.give(Null));
      modelsMutated := true;
    }
  }

  lemma PrimaryGains(rule: Rule, m: Record, key: string)
    requires Sound(rule)
    requires !rule.has(Lookup(GiveEach(rule, m, m), key).GetOr(Null))
    ensures var before := GiveEach(rule, m, m);
            Gained(rule, m, Put(before, key, rule.give(Lookup(before, key).GetOr(Null))))
  {
    GiveEachGives(rule, m, m, key);
    GiveAtGains(rule, m, GiveEach(rule, m, m), key, Lookup(m, key).GetOr(Null));
  }

  lemma AllowedGains(rule: Rule, m: Record, primary: Option<string>, allowed: string)
    requires Sound(rule)
    requires Lookup(GivePrimary(rule, GiveEach(rule, m, m), primary), allowed).None?
    ensures Gained(rule, m, Put(GivePrimary(rule, GiveEach(rule, m, m), primary), allowed, rule.give(Null)))
  {
    GiveEachGives(rule, m, m, allowed);
    GiveAtGains(rule, m, GivePrimary(rule, GiveEach(rule, m, m), primary), allowed, Null);
  }

  // ---------------------------------------------------------------- OAuth

  ghost predicate Rewired(m: Record, next: Record) {
    exists k :: Settled(Lookup(next, k)) && !Settled(Lookup(m, k))
  }

  method AddCliRuntime(m: Record, refs: seq<string>) returns (next: Record, modelsMutated: bool)
    ensures next == RuntimeEach(m, refs)
    ensures modelsMutated <==> next != m
  {
    next, modelsMutated := m, false;
    for n := 0 to |refs|
      invariant Rewiring(m, refs, n, next, modelsMutated)
    {
      RewiringNext(m, refs, n, next, modelsMutated);
      var changed;
      next, changed := AddRuntimeAt(next, refs[n]);
      modelsMutated := modelsMutated || changed;
    }
    RewiringDone(m, refs, next, modelsMutated);
  }

  /** After `n` references: the map so far, and whether it was changed. */
  ghost predicate Rewiring(m: Record, refs: seq<string>, n: nat, next: Record, mutated: bool) {
    && n <= |refs| && next == RuntimeEach(m, refs[..n])
    && if mutated then Rewired(m, next) else next == m
  }

  lemma RewiringNext(m: Record, refs: seq<string>, n: nat, next: Record, mutated: bool)
    requires n < |refs| && Rewiring(m, refs, n, next, mutated)
    ensures var after := RuntimeAt(next, refs[n]); Rewiring(m, refs, n + 1, after, mutated || after != next)
  {
    assert refs[..n + 1][..n] == refs[..n];
    RuntimeAtRewires(m, next, refs[n], mutated);
  }

  lemma RewiringDone(m: Record, refs: seq<string>, next: Record, mutated: bool)
    requires Rewiring(m, refs, |refs|, next, mutated)
    ensures next == RuntimeEach(m, refs) && (mutated <==> next != m)
  {
    assert refs[..|refs|] == refs;
  }

  method AddRuntimeAt(m: Record, ref: string) returns (next: Record, changed: bool)
    ensures next == RuntimeAt(m, ref)
    ensures changed <==> next != m
  {
    RuntimeAtFacts(m, ref);
    var current := Lookup(m, ref);
    var updated := WithClaudeCliRuntime(current.GetOr(Null));
    if updated == OrElse(current, Obj([])) {
      return m, false;
    }
    return Put(m, ref, updated), true;
  }

  lemma RuntimeAtRewires(m: Record, before: Record, ref: string, mutated: bool)
    requires if mutated then Rewired(m, before) else before == m
    ensures if mutated || RuntimeAt(before, ref) != before then Rewired(m, RuntimeAt(before, ref))
            else RuntimeAt(before, ref) == m
  {
    var after := RuntimeAt(before, ref);
    RuntimeAtFacts(before, ref);
    if mutated {
      var k :| Settled(Lookup(before, k)) && !Settled(Lookup(m, k));
      assert Settled(Lookup(after, k));
    } else if after != before {
      assert Settled(Lookup(after, ref)) && !Settled(Lookup(m, ref));
    }
  }

  lemma RuntimeAtFacts(before: Record, ref: string)
    ensures var after := RuntimeAt(before, ref);
            && Settled(Lookup(after, ref))
            && (forall k :: k != ref ==> Lookup(after, k) == Lookup(before, k))
            && (Settled(Lookup(before, ref)) <==> after == before)
  {
    RuntimeGiven(Lookup(before, ref).GetOr(Null));
  }

  // ---------------------------------------------------------------- the whole

  /** Main theorem. The method computes the defaults, and reports a change exactly when there is one. */
  method ApplyDefaults(env: Env, config: Config) returns (r: Config, mutated: bool)
    requires Proper(config)
    ensures r == ApplyAnthropicConfigDefaults(env, config)
    ensures mutated <==> r != config
  {
    if config.defaults.None? || env.authMode.None? {
      return config, false;
    }
    var d := config.defaults.value;
    var authMode := env.authMode.value;
    var next := d;
    mutated := false;
    if d.contextPruning.None? || Lookup(d.contextPruning.value, "mode").None? {
      next := next.(contextPruning := PruningDefault(d.contextPruning));
      mutated := true;
    }
    if d.heartbeat.None? || Lookup(d.heartbeat.value, "every").None? {
      next := next.(heartbeat := HeartbeatDefault(d.heartbeat, authMode));
      mutated := true;
    }
    var models, modelsMutated := DefaultModels(env, authMode, d, config.agents);
    if modelsMutated {
      next := next.(models := Some(models));
      mutated := true;
    }
    if !mutated {
      return config, false;
    }
    r := config.(defaults := Some(next));
  }

  method DefaultModels(env: Env, authMode: AuthMode, d: Defaults, agents: seq<Agent>)
    returns (next: Record, modelsMutated: bool)
    requires env.authMode == Some(authMode) && Keyed(d.models.GetOr([]))
    ensures next == NextModels(env, d, agents)
    ensures modelsMutated <==> next != d.models.GetOr([])
  {
    next, modelsMutated := d.models.GetOr([]), false;
    if authMode == ApiKey {
      CacheRetentionIsSound();
      next, modelsMutated := GiveDefaults(CacheRetention(), next, PrimaryKey(d.model), ALLOWED);
    } else if UsesClaudeCliModelSelection(d) || env.cliProfileSelected {
      var refs := CollectFromConfig(RuntimeRefs, d, agents);
      AddRefsAppend([], FlatMap(RuntimeRefs, NamedByConfig(d, agents)), ALLOWLIST);
      refs := AddEach(refs, ALLOWLIST);
      next, modelsMutated := AddCliRuntime(next, refs);
    }
  }
}
