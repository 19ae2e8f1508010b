/** Defaults for Anthropic configurations (extensions/anthropic/config-defaults.ts). */
module ConfigDefaults {
  import opened Options
  import opened OrderedMaps
  import opened Json
  import opened Text
  import opened ModelRefs

  /** A JSON object: its fields in order. */
  type Record = OrderedMap<Json>

  datatype ModelChoice = Unset | One(ref: string) | Chain(primary: Option<string>, fallbacks: seq<string>)

  datatype Agent = Agent(model: ModelChoice, models: Record)

  datatype Defaults = Defaults(
    contextPruning: Option<Record>, heartbeat: Option<Record>, model: ModelChoice, models: Option<Record>)

  /** The part of the configuration defaulting reads or writes. */
  datatype Config = Config(defaults: Option<Defaults>, agents: seq<Agent>)

  datatype AuthMode = ApiKey | OAuth

  /** What the auth section and the environment come to; defaulting changes neither. */
  datatype Env = Env(authMode: Option<AuthMode>, cliProfileSelected: bool)

  // ---------------------------------------------------------------- parsing

  datatype Ref = Ref(provider: string, model: string)

  function NormalizeProviderId(provider: string): string {
    var n := Lower(Trim(provider));
    if n == "bedrock" || n == "aws-bedrock" then "amazon-bedrock" else n
  }

  function ParseRef(raw: string): Option<Ref> {
    var t := Trim(raw);
    if t == "" then None
    else
      var slash := IndexOf(t, '/', 0);
      if slash.None? || slash.value == 0 then Some(Ref("anthropic", t))
      else
        var provider, model := Trim(t[..slash.value]), Trim(t[slash.value + 1..]);
        if provider == "" || model == "" then None else Some(Ref(NormalizeProviderId(provider), model))
  }

  predicate IsCacheRetentionTarget(p: Option<Ref>) {
    p.Some? && (p.value.provider == "anthropic"
                || (p.value.provider == "amazon-bedrock"
                    && Includes(Lower(Trim(p.value.model)), "anthropic.claude")))
  }

  predicate Target(key: string) { IsCacheRetentionTarget(ParseRef(key)) }

  function PrimaryValue(model: ModelChoice): Option<string> {
    match model
    case Unset => None
    case One(ref) => if Trim(ref) == "" then None else Some(Trim(ref))
    case Chain(primary, _) =>
      if primary.None? || Trim(primary.value) == "" then None else Some(Trim(primary.value))
  }

  // ---------------------------------------------------------------- API key: cache retention

  /** The fields `{...v}` copies; a string or an array is copied index by index. */
  function Spread(v: Json): Record {
    match v
    case Obj(fields) => fields
    case Str(s) => seq(|s|, i requires 0 <= i < |s| => (Decimal(i), Str([s[i]])))
    case Arr(items) => seq(|items|, i requires 0 <= i < |items| => (Decimal(i), items[i]))
    case _ => []
  }

  function Get(v: Json, key: string): Option<Json> { if v.Obj? then Lookup(v.fields, key) else None }

  function Params(entry: Json): Json { Get(entry, "params").GetOr(Null) }

  predicate HasRetention(entry: Json) {
    var r := Get(Params(entry), "cacheRetention");
    r.Some? && r.value.Str?
  }

  function WithRetention(entry: Json): Json {
    Obj(Put(Spread(entry), "params", Obj(Put(Spread(Params(entry)), "cacheRetention", Str("short")))))
  }

  /** A default that some entries must have: which keys it is for, when an entry has it, and the
      entry with it. */
  datatype Rule = Rule(target: string -> bool, has: Json -> bool, give: Json -> Json)

  function GiveAt(rule: Rule, m: Record, key: string, entry: Json): Record {
    if rule.has(entry) then m else Put(m, key, rule.give(entry))
  }

  /** The loop over the configured models. */
  function GiveEach(rule: Rule, m: Record, entries: Record): Record {
    if entries == [] then m
    else
      var before, last := GiveEach(rule, m, entries[..|entries| - 1]), entries[|entries| - 1];
      if rule.target(last.0) then GiveAt(rule, before, last.0, last.1) else before
  }

  /** Then the primary model's key, whether listed or not. */
  function GivePrimary(rule: Rule, m: Record, key: Option<string>): Record {
    if key.None? then m else GiveAt(rule, m, key.value, Lookup(m, key.value).GetOr(Null))
  }

  predicate HasTarget(rule: Rule, m: Record) { exists i :: 0 <= i < |m| && rule.target(m[i].0) }

  /** Then the allowed default model, if any target is listed by now. */
  function GiveAllowed(rule: Rule, m: Record, allowed: string): Record {
    if HasTarget(rule, m) && Lookup(m, allowed).None? then Put(m, allowed, rule.give(Null)) else m
  }

  function GiveAll(rule: Rule, m: Record, primary: Option<string>, allowed: string): Record {
    GiveAllowed(rule, GivePrimary(rule, GiveEach(rule, m, m), primary), allowed)
  }

  function CacheRetention(): Rule { Rule(Target, HasRetention, WithRetention) }

  /** The key under which the primary model is listed, if it takes cache retention. */
  function PrimaryKey(model: ModelChoice): Option<string> {
    var primary := ResolveKnownAnthropicModelRef(PrimaryValue(model));
    if primary.None? then None
    else
      var parsed := ParseRef(primary.value);
      if IsCacheRetentionTarget(parsed) then Some(parsed.value.provider + "/" + parsed.value.model) else None
  }

  const ALLOWED := "anthropic/claude-sonnet-4-6"

  function ApiKeyModels(model: ModelChoice, m: Record): Record {
    GiveAll(CacheRetention(), m, PrimaryKey(model), ALLOWED)
  }

  // ---------------------------------------------------------------- OAuth: the Claude CLI runtime

  function TextOf(v: Option<Json>): string {
    match v case Some(Str(s)) => Lower(Trim(s)) case _ => ""
  }

  function Fields(v: Json): Record { if v.Obj? then v.fields else [] }

  function RuntimeOf(entry: Json): string {
    var runtime := Get(entry, "agentRuntime");
    if runtime.Some? && runtime.value.Obj? then TextOf(Lookup(runtime.value.fields, "id")) else ""
  }

  function WithClaudeCliRuntime(entry: Json): Json {
    var base := Fields(entry);
    var runtime := RuntimeOf(Obj(base));
    if runtime != "" && runtime != "auto" then Obj(base)
    else Obj(Put(base, "agentRuntime", Obj(Put(Fields(Lookup(base, "agentRuntime").GetOr(Null)), "id", Str(CLI)))))
  }

  /** `v ?? fallback`. */
  function OrElse(v: Option<Json>, fallback: Json): Json {
    if v.None? || v.value.Null? then fallback else v.value
  }

  function RuntimeAt(m: Record, ref: string): Record {
    var current := Lookup(m, ref);
    var updated := WithClaudeCliRuntime(current.GetOr(Null));
    if updated == OrElse(current, Obj([])) then m else Put(m, ref, updated)
  }

  function RuntimeEach(m: Record, refs: seq<string>): Record {
    if refs == [] then m else RuntimeAt(RuntimeEach(m, refs[..|refs| - 1]), refs[|refs| - 1])
  }

  /** `set.add` one after the other. */
  function AddRefs(refs: seq<string>, more: seq<string>): seq<string> {
    if more == [] then refs
    else
      var before, last := AddRefs(refs, more[..|more| - 1]), more[|more| - 1];
      if last in before then before else before + [last]
  }

  function FlatMap(f: string -> seq<string>, raws: seq<string>): seq<string> {
    if raws == [] then [] else FlatMap(f, raws[..|raws| - 1]) + f(raws[|raws| - 1])
  }

  /** The references a model choice names. */
  function Named(model: ModelChoice): seq<string> {
    match model
    case Unset => []
    case One(ref) => [ref]
    case Chain(primary, fallbacks) => (if primary.Some? then [primary.value] else []) + fallbacks
  }

  function Keys(m: Record): seq<string> { seq(|m|, i requires 0 <= i < |m| => m[i].0) }

  function NamedByAgents(agents: seq<Agent>): seq<string> {
    if agents == [] then []
    else
      var last := agents[|agents| - 1];
      NamedByAgents(agents[..|agents| - 1]) + (Named(last.model) + Keys(last.models))
  }

  /** All references in the configuration, in the order they are collected. */
  function NamedByConfig(d: Defaults, agents: seq<Agent>): seq<string> {
    Named(d.model) + Keys(d.models.GetOr([])) + NamedByAgents(agents)
  }

  const ALLOWLIST: seq<string> := [
    "anthropic/" + OPUS, "anthropic/" + "claude-opus-4-7", "anthropic/" + SONNET, "anthropic/" + "claude-opus-4-6"]

  function CliRefs(d: Defaults, agents: seq<Agent>): seq<string> {
    AddRefs([], FlatMap(RuntimeRefs, NamedByConfig(d, agents)) + ALLOWLIST)
  }

  predicate SelectsCli(key: string, entry: Json) {
    var parsed := ParseRef(key);
    parsed.Some? && (parsed.value.provider == CLI || (parsed.value.provider == "anthropic" && RuntimeOf(entry) == CLI))
  }

  predicate UsesClaudeCliModelSelection(d: Defaults) {
    var primary := PrimaryValue(d.model);
    var parsed := if primary.Some? then ParseRef(primary.value) else None;
    (parsed.Some? && parsed.value.provider == CLI)
    || exists i :: 0 <= i < |d.models.GetOr([])| && SelectsCli(d.models.GetOr([])[i].0, d.models.GetOr([])[i].1)
  }

  // ---------------------------------------------------------------- all defaults

  function PruningDefault(pruning: Option<Record>): Option<Record> {
    var fields := pruning.GetOr([]);
    if Lookup(fields, "mode").Some? then pruning
    else
      Some(Put(Put(fields, "mode", Str("cache-ttl")), "ttl", OrElse(Lookup(fields, "ttl"), Str("1h"))))
  }

  function HeartbeatDefault(heartbeat: Option<Record>, mode: AuthMode): Option<Record> {
    var fields := heartbeat.GetOr([]);
    if Lookup(fields, "every").Some? then heartbeat
    else Some(Put(fields, "every", Str(if mode == OAuth then "1h" else "30m")))
  }

  function NextModels(env: Env, d: Defaults, agents: seq<Agent>): Record {
    var m := d.models.GetOr([]);
    if env.authMode == Some(ApiKey) then ApiKeyModels(d.model, m)
    else if UsesClaudeCliModelSelection(d) || env.cliProfileSelected then RuntimeEach(m, CliRefs(d, agents))
    else m
  }

  /** The models are written back only if some entry changed. */
  function ModelsDefault(env: Env, d: Defaults, agents: seq<Agent>): Option<Record> {
    var next := NextModels(env, d, agents);
    if next == d.models.GetOr([]) then d.models else Some(next)
  }

  function ApplyAnthropicConfigDefaults(env: Env, config: Config): Config {
    if config.defaults.None? || env.authMode.None? then config
    else
      var d := config.defaults.value;
      config.(defaults := Some(Defaults(
        PruningDefault(d.contextPruning), HeartbeatDefault(d.heartbeat, env.authMode.value),
        d.model, ModelsDefault(env, d, config.agents))))
  }
}
