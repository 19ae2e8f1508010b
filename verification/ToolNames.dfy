/** Taking the first free name of a numbered family, and naming a list one item after the other. */
module NumberedNames {
  /** From 2 on, every number gives its own key. */
  ghost predicate Differ(key: nat -> string) {
    forall i: nat, j: nat {:trigger key(i), key(j)} :: 2 <= i < j ==> key(i) != key(j)
  }

  predicate TakenUpTo(key: nat -> string, used: set<string>, n: nat) {
    forall i: nat :: 1 <= i < n ==> key(i) in used
  }

  lemma {:induction false} Pigeonhole(key: nat -> string, used: set<string>, n: nat)
    requires Differ(key) && forall i: nat :: 2 <= i < n ==> key(i) in used
    ensures n <= |used| + 2
    decreases n
  {
    if n > 2 {
      Pigeonhole(key, used - {key(n - 1)}, n - 1);
      assert |used - {key(n - 1)}| == |used| - 1;
    }
  }

  lemma NextTakenKey(key: nat -> string, used: set<string>, n: nat)
    requires 1 <= n && Differ(key) && TakenUpTo(key, used, n) && key(n) in used
    ensures TakenUpTo(key, used, n + 1) && n <= |used| + 1
  {
    Pigeonhole(key, used, n + 1);
  }

  /** The first number from `n` on whose key is free; there is one, as the keys differ. */
  function FirstFree(key: nat -> string, used: set<string>, n: nat): (r: nat)
    requires 1 <= n && Differ(key) && TakenUpTo(key, used, n)
    ensures n <= r <= |used| + 2 && key(r) !in used && TakenUpTo(key, used, r)
    decreases |used| + 3 - n
  {
    Pigeonhole(key, used, n);
    if key(n) in used then FirstFree(key, used, n + 1) else n
  }

  lemma FirstFreeUnique(key: nat -> string, used: set<string>, n: nat)
    requires 1 <= n && Differ(key) && TakenUpTo(key, used, n) && key(n) !in used
    ensures FirstFree(key, used, 1) == n
  {
    var r := FirstFree(key, used, 1);
  }

  function Folded(fold: string -> string, names: seq<string>): set<string> {
    set i | 0 <= i < |names| :: fold(names[i])
  }

  /** The items named one after the other, each name taken before the next. */
  function NameAll<T>(
    fold: string -> string, name: (T, set<string>) -> string, items: seq<T>, used: set<string>): (names: seq<string>)
    ensures |names| == |items|
  {
    if items == [] then []
    else
      var before := NameAll(fold, name, items[..|items| - 1], used);
      before + [name(items[|items| - 1], used + Folded(fold, before))]
  }

  lemma {:induction false} NamedInTurn<T>(
    fold: string -> string, name: (T, set<string>) -> string, items: seq<T>, used: set<string>, i: nat)
    requires i < |items|
    ensures var names := NameAll(fold, name, items, used);
            names[i] == name(items[i], used + Folded(fold, names[..i]))
  {
    var init := items[..|items| - 1];
    var names, before := NameAll(fold, name, items, used), NameAll(fold, name, init, used);
    if i == |items| - 1 {
      assert names[..i] == before;
    } else {
      NamedInTurn(fold, name, init, used, i);
      assert names[..i] == before[..i];
    }
  }

  lemma NameAllNext<T>(
    fold: string -> string, name: (T, set<string>) -> string, items: seq<T>, item: T, used: set<string>)
    ensures NameAll(fold, name, items + [item], used)
         == NameAll(fold, name, items, used) + [name(item, used + Folded(fold, NameAll(fold, name, items, used)))]
  {
    var all := items + [item];
    assert all[..|all| - 1] == items && all[|all| - 1] == item;
  }

  /** `names` and `taken` are what a loop naming `items` one by one holds. */
  ghost predicate NamedAs<T>(
    fold: string -> string, name: (T, set<string>) -> string, items: seq<T>, used: set<string>,
    names: seq<string>, taken: set<string>)
  {
    names == NameAll(fold, name, items, used) && taken == used + Folded(fold, names)
  }

  lemma NamedNext<T>(
    fold: string -> string, name: (T, set<string>) -> string, items: seq<T>, used: set<string>,
    names: seq<string>, taken: set<string>, item: T)
    requires NamedAs(fold, name, items, used, names, taken)
    ensures var x := name(item, taken); NamedAs(fold, name, items + [item], used, names + [x], taken + {fold(x)})
  {
    NameAllNext(fold, name, items, item, used);
    FoldedLast(fold, names, name(item, taken));
  }

  /** If every name is free of what was used, all of them differ. */
  lemma AllDiffer<T(!new)>(
    fold: string -> string, name: (T, set<string>) -> string, items: seq<T>, used: set<string>)
    requires forall x, u :: fold(name(x, u)) !in u
    ensures var names := NameAll(fold, name, items, used);
            && (forall i, j :: 0 <= i < j < |names| ==> fold(names[i]) != fold(names[j]))
            && (forall i :: 0 <= i < |names| ==> fold(names[i]) !in used)
  {
    var names := NameAll(fold, name, items, used);
    forall j | 0 <= j < |names|
      ensures fold(names[j]) !in used && forall i :: 0 <= i < j ==> fold(names[i]) != fold(names[j])
    {
      NamedInTurn(fold, name, items, used, j);
      forall i | 0 <= i < j ensures fold(names[i]) in Folded(fold, names[..j]) {
        assert names[..j][i] == names[i];
      }
    }
  }

  lemma {:induction false} FoldedCount(fold: string -> string, names: seq<string>)
    ensures |Folded(fold, names)| <= |names|
  {
    if names != [] {
      var init := names[..|names| - 1];
      FoldedCount(fold, init);
      FoldedLast(fold, init, names[|names| - 1]);
      assert init + [names[|names| - 1]] == names;
    }
  }

  lemma FoldedLast(fold: string -> string, names: seq<string>, last: string)
    ensures Folded(fold, names + [last]) == Folded(fold, names) + {fold(last)}
  {
    var all := names + [last];
    assert all[|names|] == last;
    forall i | 0 <= i < |names| ensures fold(names[i]) in Folded(fold, all) { assert all[i] == names[i]; }
  }
}

/** Provider-safe names for MCP servers and their tools (src/agents/agent-bundle-mcp-names.ts, and
    the loops that call it in agent-bundle-mcp-runtime.ts and agent-bundle-mcp-materialize.ts). */
module ToolNames {
  import opened NumberedNames
  import opened Text

  const SEPARATOR := "__"
  const MAX_PREFIX: nat := 30
  const MAX_TOTAL: nat := 64

  predicate IsLetter(c: char) { 'A' <= c <= 'Z' || 'a' <= c <= 'z' }

  predicate IsSafe(c: char) { IsLetter(c) || '0' <= c <= '9' || c == '_' || c == '-' }

  predicate AllSafe(s: string) { forall i :: 0 <= i < |s| ==> IsSafe(s[i]) }

  predicate SafeName(s: string) { s != "" && IsLetter(s[0]) && AllSafe(s) }

  /** `normalizeLowercaseStringOrEmpty`: how names are compared. */
  function Fold(s: string): string { Lower(Trim(s)) }

  function DashUnsafe(s: string): (r: string)
    ensures |r| == |s| && AllSafe(r)
    ensures forall i {:trigger r[i]} :: 0 <= i < |s| ==> r[i] == if IsSafe(s[i]) then s[i] else '-'
  {
    seq(|s|, i requires 0 <= i < |s| => if IsSafe(s[i]) then s[i] else '-')
  }

  function SanitizeToolFragment(raw: string, fallback: string): (r: string)
    ensures SafeName(fallback) ==> SafeName(r)
  {
    var cleaned := DashUnsafe(Trim(raw));
    var normalized := if cleaned == "" then fallback else cleaned;
    if normalized != "" && IsLetter(normalized[0]) then normalized else fallback + "-" + normalized
  }

  // ---------------------------------------------------------------- numbered candidates

  function Suffix(n: nat): string { "-" + Decimal(n) }

  /** `base` cut so that the suffix fits in `limit`, though never below one character. */
  function Numbered(base: string, limit: nat, n: nat): string {
    Slice(base, if limit > |Suffix(n)| then limit - |Suffix(n)| else 1) + Suffix(n)
  }

  /** The names tried, in order: the base itself, then the numbered ones from 2 on. */
  function Candidate(prefix: string, base: string, limit: nat, n: nat): string {
    prefix + if n < 2 then base else Numbered(base, limit, n)
  }

  lemma FoldKeepsNumber(x: string, n: nat) returns (y: string)
    ensures Fold(x + Suffix(n)) == y + Suffix(n)
  {
    var t := Suffix(n);
    assert t[|t| - 1] == Decimal(n)[|Decimal(n)| - 1];
    var q := TrimKeepsTail(x, t);
    y := Lower(q);
    assert forall i :: 0 <= i < |t| ==> LowerChar(t[i]) == t[i];
    assert Lower(q + t) == y + t;
  }

  lemma DashPosition(a: string, n: nat)
    ensures var s := a + Suffix(n); s[|a|] == '-' && forall k :: |a| < k < |s| ==> s[k] != '-'
  {
    var s := a + Suffix(n);
    forall k | |a| < k < |s| ensures s[k] != '-' { assert s[k] == Decimal(n)[k - |a| - 1]; }
  }

  lemma SameNumber(a: string, i: nat, b: string, j: nat)
    requires a + Suffix(i) == b + Suffix(j)
    ensures i == j
  {
    DashPosition(a, i);
    DashPosition(b, j);
    assert |a| == |b|;
    assert (a + Suffix(i))[|a| + 1..] == Decimal(i) && (b + Suffix(j))[|b| + 1..] == Decimal(j);
    DecimalInjective(i, j);
  }

  lemma CandidateNumber(prefix: string, base: string, limit: nat, n: nat) returns (y: string)
    requires 2 <= n
    ensures Fold(Candidate(prefix, base, limit, n)) == y + Suffix(n)
  {
    var cut := Slice(base, if limit > |Suffix(n)| then limit - |Suffix(n)| else 1);
    assert prefix + (cut + Suffix(n)) == (prefix + cut) + Suffix(n);
    y := FoldKeepsNumber(prefix + cut, n);
  }

  function Keys(prefix: string, base: string, limit: nat): nat -> string {
    (n: nat) => Fold(Candidate(prefix, base, limit, n))
  }

  /** Different numbers give names that differ however they are cut and folded. */
  lemma KeysDiffer(prefix: string, base: string, limit: nat)
    ensures Differ(Keys(prefix, base, limit))
  {
    var key := Keys(prefix, base, limit);
    forall i: nat, j: nat | 2 <= i < j ensures key(i) != key(j) {
      var a := CandidateNumber(prefix, base, limit, i);
      var b := CandidateNumber(prefix, base, limit, j);
      if a + Suffix(i) == b + Suffix(j) { SameNumber(a, i, b, j); }
    }
  }

  /** The number of the name chosen: 1 for the base itself. */
  function FreeNumber(prefix: string, base: string, limit: nat, used: set<string>): (n: nat)
    ensures 1 <= n <= |used| + 2 && Keys(prefix, base, limit)(n) !in used
  {
    KeysDiffer(prefix, base, limit);
    FirstFree(Keys(prefix, base, limit), used, 1)
  }

  function FreeName(prefix: string, base: string, limit: nat, used: set<string>): string {
    Candidate(prefix, base, limit, FreeNumber(prefix, base, limit, used))
  }

  // ---------------------------------------------------------------- the two allocators

  function ServerBase(raw: string): string { Slice(SanitizeToolFragment(raw, "mcp"), MAX_PREFIX) }

  function ServerName(raw: string, used: set<string>): string {
    FreeName("", ServerBase(raw), MAX_PREFIX, used)
  }

  function MaxToolChars(serverName: string): nat {
    if |serverName| + |SEPARATOR| + 1 < MAX_TOTAL then MAX_TOTAL - |serverName| - |SEPARATOR| else 1
  }

  function ToolBase(serverName: string, toolName: string): string {
    var truncated := Slice(SanitizeToolFragment(toolName, "tool"), MaxToolChars(serverName));
    if truncated == "" then "tool" else truncated
  }

  function ToolName(serverName: string, toolName: string, reserved: set<string>): string {
    FreeName(serverName + SEPARATOR, ToolBase(serverName, toolName), MaxToolChars(serverName), reserved)
  }

  /** `sanitizeServerName`; `usedNames` is handed back with the new name added. */
  method SanitizeServerName(raw: string, usedNames: set<string>) returns (name: string, usedAfter: set<string>)
    ensures name == ServerName(raw, usedNames)
    ensures usedAfter == usedNames + {Fold(name)}
  {
    var base := ServerBase(raw);
    name := FindFreeName("", base, MAX_PREFIX, usedNames);
    usedAfter := usedNames + {Fold(name)};
  }

  method BuildSafeToolName(serverName: string, toolName: string, reservedNames: set<string>) returns (name: string)
    ensures name == ToolName(serverName, toolName, reservedNames)
  {
    name := FindFreeName(
      serverName + SEPARATOR, ToolBase(serverName, toolName), MaxToolChars(serverName), reservedNames);
  }

  /** The collision loop both allocators run. */
  method FindFreeName(prefix: string, base: string, limit: nat, used: set<string>) returns (candidate: string)
    ensures candidate == FreeName(prefix, base, limit, used)
  {
    candidate := prefix + base;
    var n := 2;
    while Fold(candidate) in used
      invariant 2 <= n && candidate == Candidate(prefix, base, limit, n - 1)
      invariant TakenUpTo(Keys(prefix, base, limit), used, n - 1)
      decreases |used| + 3 - n
    {
      NextTaken(prefix, base, limit, used, n - 1);
      candidate := prefix + Numbered(base, limit, n);
      n := n + 1;
    }
    FreeNameIs(prefix, base, limit, used, n - 1);
  }

  lemma NextTaken(prefix: string, base: string, limit: nat, used: set<string>, n: nat)
    requires 1 <= n && TakenUpTo(Keys(prefix, base, limit), used, n)
    requires Fold(Candidate(prefix, base, limit, n)) in used
    ensures TakenUpTo(Keys(prefix, base, limit), used, n + 1) && n <= |used| + 1
  {
    assert Keys(prefix, base, limit)(n) in used;
    KeysDiffer(prefix, base, limit);
    NextTakenKey(Keys(prefix, base, limit), used, n);
  }

  lemma FreeNameIs(prefix: string, base: string, limit: nat, used: set<string>, n: nat)
    requires 1 <= n && TakenUpTo(Keys(prefix, base, limit), used, n)
    requires Fold(Candidate(prefix, base, limit, n)) !in used
    ensures FreeName(prefix, base, limit, used) == Candidate(prefix, base, limit, n)
  {
    KeysDiffer(prefix, base, limit);
    FirstFreeUnique(Keys(prefix, base, limit), used, n);
  }

  // ---------------------------------------------------------------- what a name is

  lemma SafeIsUntrimmed(s: string)
    requires SafeName(s)
    ensures Trim(s) == s && Fold(s) == Lower(s)
  {
    var q := TrimKeepsTail("", s);
    assert "" + s == s && q + s == s;
  }

  lemma NumberedIsSafe(base: string, limit: nat, n: nat)
    requires SafeName(base)
    ensures SafeName(Numbered(base, limit, n))
    ensures |Numbered(base, limit, n)| <= if limit > |Suffix(n)| then limit else 1 + |Suffix(n)|
  {
    var cut := Slice(base, if limit > |Suffix(n)| then limit - |Suffix(n)| else 1);
    assert Numbered(base, limit, n)[0] == cut[0];
  }

  /** How far numbering may go before a suffix outgrows the 30 characters: a set this large exceeds
      what JavaScript can hold by many orders of magnitude. */
  predicate Sane(used: set<string>) { |used| + 2 < Pow10(28) }

  /** Main theorem. A sanitized server name is new (ignoring case), safe and short. */
  lemma ServerNameIsGood(raw: string, used: set<string>)
    ensures var name := ServerName(raw, used);
            && Fold(name) !in used
            && SafeName(name)
            && (Sane(used) ==> |name| <= 30)
  {
    var base := ServerBase(raw);
    var n := FreeNumber("", base, MAX_PREFIX, used);
    BaseIsSafe(raw);
    CandidateIsGood("", base, MAX_PREFIX, n);
    if Sane(used) { DecimalLength(n, 28); }
  }

  lemma BaseIsSafe(raw: string)
    ensures SafeName(ServerBase(raw)) && |ServerBase(raw)| <= MAX_PREFIX
  {
    assert SafeName("mcp");
  }

  lemma CandidateIsGood(prefix: string, base: string, limit: nat, n: nat)
    requires SafeName(base) && (prefix == "" || SafeName(prefix))
    ensures var name := Candidate(prefix, base, limit, n);
            && SafeName(name) && prefix <= name
            && (|base| <= limit && |Decimal(n)| + 1 < limit ==> |name| <= |prefix| + limit)
  {
    NumberedIsSafe(base, limit, n);
  }

  /** Sanitizing a sanitized name again changes nothing while it is free. */
  lemma ServerNameIsStable(raw: string, used: set<string>, others: set<string>)
    requires Sane(used) && Fold(ServerName(raw, used)) !in others
    ensures ServerName(ServerName(raw, used), others) == ServerName(raw, used)
  {
    ServerNameIsGood(raw, used);
    SafeBaseIsStable(ServerName(raw, used), others);
  }

  lemma SafeBaseIsStable(name: string, others: set<string>)
    requires SafeName(name) && |name| <= 30 && Fold(name) !in others
    ensures ServerName(name, others) == name
  {
    SafeIsUntrimmed(name);
    assert DashUnsafe(name) == name;
    assert ServerBase(name) == name;
    assert Candidate("", name, MAX_PREFIX, 1) == name;
    KeysDiffer("", name, MAX_PREFIX);
    assert Keys("", name, MAX_PREFIX)(1) == Fold(name);
    FirstFreeUnique(Keys("", name, MAX_PREFIX), others, 1);
  }

  lemma ToolBaseIsSafe(serverName: string, toolName: string)
    ensures SafeName(ToolBase(serverName, toolName)) && |ToolBase(serverName, toolName)| <= MaxToolChars(serverName)
  {
    assert SafeName("tool");
  }

  lemma PrefixIsSafe(serverName: string)
    requires SafeName(serverName)
    ensures SafeName(serverName + SEPARATOR)
  {
  }

  /** Main theorem. A tool name is unreserved, keeps its server's prefix, and fits in 64 characters
      under any server name of at most 30. */
  lemma ToolNameIsGood(serverName: string, toolName: string, reserved: set<string>)
    requires SafeName(serverName)
    ensures var name := ToolName(serverName, toolName, reserved);
            && Fold(name) !in reserved
            && serverName + SEPARATOR <= name && SafeName(name)
            && (|serverName| <= 30 && Sane(reserved) ==> |name| <= 64)
  {
    var base, limit := ToolBase(serverName, toolName), MaxToolChars(serverName);
    var n := FreeNumber(serverName + SEPARATOR, base, limit, reserved);
    ToolBaseIsSafe(serverName, toolName);
    PrefixIsSafe(serverName);
    CandidateIsGood(serverName + SEPARATOR, base, limit, n);
    if Sane(reserved) { DecimalLength(n, 28); }
  }

  /** Whatever the server name, a tool name never collides with a reserved one. */
  lemma ToolNameIsUnreserved(serverName: string, toolName: string, reserved: set<string>)
    ensures Fold(ToolName(serverName, toolName, reserved)) !in reserved
  {
    var n := FreeNumber(serverName + SEPARATOR, ToolBase(serverName, toolName), MaxToolChars(serverName), reserved);
  }

  /** Main theorem. A tool whose own name is safe, fits and is free is called by it, after its server. */
  lemma OwnToolNameKept(serverName: string, toolName: string, reserved: set<string>)
    requires SafeName(toolName) && |serverName| + 2 + |toolName| <= 64
    requires Fold(serverName + "__" + toolName) !in reserved
    ensures ToolName(serverName, toolName, reserved) == serverName + "__" + toolName
  {
    SafeIsUntrimmed(toolName);
    assert DashUnsafe(toolName) == toolName;
    assert ToolBase(serverName, toolName) == toolName;
    FreeNameIs(serverName + SEPARATOR, toolName, MaxToolChars(serverName), reserved, 1);
  }

  /** What becomes of any other name: each unsafe character is a dash, a name that begins with no letter
      gets the fallback in front, and a blank one is the fallback. */
  lemma FragmentIs(raw: string, fallback: string)
    requires SafeName(fallback)
    ensures var t, r := Trim(raw), SanitizeToolFragment(raw, fallback);
            if t == "" then r == fallback
            else
              var head := if IsLetter(t[0]) then "" else fallback + "-";
              |r| == |head| + |t| && head <= r
              && forall i :: 0 <= i < |t| ==> r[|head| + i] == if IsSafe(t[i]) then t[i] else '-'
  {
    var t, cleaned := Trim(raw), DashUnsafe(Trim(raw));
    if t != "" {
      assert IsLetter(t[0]) <==> IsLetter(cleaned[0]);
      assert forall i :: 0 <= i < |t| ==> cleaned[i] == if IsSafe(t[i]) then t[i] else '-';
    }
  }

  /** A name that is taken gets the smallest number from 2 on that is free, in place of its end if need be. */
  lemma NumberIsSmallest(prefix: string, base: string, limit: nat, used: set<string>, n: nat)
    requires 2 <= n && limit > |Decimal(n)| + 1
    requires TakenUpTo(Keys(prefix, base, limit), used, n) && Fold(Candidate(prefix, base, limit, n)) !in used
    ensures FreeName(prefix, base, limit, used)
         == prefix + (Slice(base, limit - 1 - |Decimal(n)|) + ("-" + Decimal(n)))
  {
    FreeNameIs(prefix, base, limit, used, n);
    NumberedIs(prefix, base, limit, n);
  }

  lemma NumberedIs(prefix: string, base: string, limit: nat, n: nat)
    requires 2 <= n && limit > |Decimal(n)| + 1
    ensures Candidate(prefix, base, limit, n) == prefix + (Slice(base, limit - 1 - |Decimal(n)|) + ("-" + Decimal(n)))
  {
  }

  // ---------------------------------------------------------------- whole catalogs

  /** The names given to a list of servers, one after the other. */
  function ServerNames(raws: seq<string>, used: set<string>): seq<string> { NameAll(Fold, ServerName, raws, used) }

  /** Main theorem. All servers get different names, ignoring case, none of them used before. */
  lemma ServerNamesAreDistinct(raws: seq<string>, used: set<string>)
    ensures var names := ServerNames(raws, used);
            && |names| == |raws|
            && (forall i, j :: 0 <= i < j < |names| ==> Fold(names[i]) != Fold(names[j]))
            && (forall i :: 0 <= i < |names| ==> SafeName(names[i]) && Fold(names[i]) !in used)
            && (|used| + |raws| + 2 < Pow10(28) ==> forall i :: 0 <= i < |names| ==> |names[i]| <= 30)
  {
    forall raw, u ensures Fold(ServerName(raw, u)) !in u { ServerNameIsGood(raw, u); }
    AllDiffer(Fold, ServerName, raws, used);
    var names := ServerNames(raws, used);
    forall i | 0 <= i < |names|
      ensures SafeName(names[i]) && (|used| + |raws| + 2 < Pow10(28) ==> |names[i]| <= 30)
    {
      NamedInTurn(Fold, ServerName, raws, used, i);
      FoldedCount(Fold, names[..i]);
      ServerNameIsGood(raws[i], used + Folded(Fold, names[..i]));
    }
  }

  datatype CatalogTool = CatalogTool(serverName: string, toolName: string)

  function NameTool(tool: CatalogTool, reserved: set<string>): string {
    ToolName(tool.serverName, Trim(tool.toolName), reserved)
  }

  /** Tools with a blank name are skipped. */
  function Listed(tools: seq<CatalogTool>): seq<CatalogTool> {
    if tools == [] then []
    else Listed(tools[..|tools| - 1]) + if Trim(tools[|tools| - 1].toolName) == "" then [] else [tools[|tools| - 1]]
  }

  function CatalogNames(tools: seq<CatalogTool>, reserved: set<string>): seq<string> {
    NameAll(Fold, NameTool, Listed(tools), reserved)
  }

  lemma {:induction false} ListedFrom(tools: seq<CatalogTool>)
    ensures |Listed(tools)| <= |tools| && forall t :: t in Listed(tools) ==> t in tools
  {
    if tools != [] { ListedFrom(tools[..|tools| - 1]); }
  }

  /** Main theorem. No two tools of a catalog share a name and none takes a reserved one. */
  lemma CatalogNamesAreDistinct(tools: seq<CatalogTool>, reserved: set<string>)
    requires forall t :: t in tools ==> SafeName(t.serverName) && |t.serverName| <= 30
    ensures var names := CatalogNames(tools, reserved);
            && |names| == |Listed(tools)|
            && (forall i, j :: 0 <= i < j < |names| ==> Fold(names[i]) != Fold(names[j]))
            && (forall i :: 0 <= i < |names| ==> SafeName(names[i]) && Fold(names[i]) !in reserved)
            && (|reserved| + |tools| + 2 < Pow10(28) ==> forall i :: 0 <= i < |names| ==> |names[i]| <= 64)
  {
    var items := Listed(tools);
    ListedFrom(tools);
    forall x, u ensures Fold(NameTool(x, u)) !in u { ToolNameIsUnreserved(x.serverName, Trim(x.toolName), u); }
    AllDiffer(Fold, NameTool, items, reserved);
    var names := CatalogNames(tools, reserved);
    forall i | 0 <= i < |names|
      ensures SafeName(names[i]) && (|reserved| + |tools| + 2 < Pow10(28) ==> |names[i]| <= 64)
    {
      NamedInTurn(Fold, NameTool, items, reserved, i);
      FoldedCount(Fold, names[..i]);
      assert items[i] in tools;
      ToolNameIsGood(items[i].serverName, Trim(items[i].toolName), reserved + Folded(Fold, names[..i]));
    }
  }

  lemma ListedNext(tools: seq<CatalogTool>, n: nat)
    requires n < |tools|
    ensures Listed(tools[..n + 1])
         == if Trim(tools[n].toolName) == "" then Listed(tools[..n]) else Listed(tools[..n]) + [tools[n]]
  {
    assert tools[..n + 1][..n] == tools[..n];
  }

  /** The naming loop of `buildBundleMcpToolsFromCatalog`, after its sort. */
  method BuildCatalogNames(tools: seq<CatalogTool>, reservedToolNames: set<string>) returns (names: seq<string>)
    ensures names == CatalogNames(tools, reservedToolNames)
  {
    names := [];
    var reserved := reservedToolNames;
    for n := 0 to |tools|
      invariant NamedAs(Fold, NameTool, Listed(tools[..n]), reservedToolNames, names, reserved)
    {
      ListedNext(tools, n);
      var original := Trim(tools[n].toolName);
      if original == "" {
        continue;
      }
      NamedNext(Fold, NameTool, Listed(tools[..n]), reservedToolNames, names, reserved, tools[n]);
      var name := BuildSafeToolName(tools[n].serverName, original, reserved);
      reserved := reserved + {Fold(name)};
      names := names + [name];
    }
    assert tools[..|tools|] == tools;
  }
}
