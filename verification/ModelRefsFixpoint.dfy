/** When rewriting a model reference is done in one pass. */
module ModelRefsFixpoint {
  import opened Options
  import opened Text
  import opened ModelRefs

  // ---------------------------------------------------------------- trimming

  predicate Trimmed(s: string) { s == "" || (!IsSpace(s[0]) && !IsSpace(s[|s| - 1])) }

  lemma TrimIsTrimmed(s: string)
    ensures Trimmed(Trim(s)) && Trim(Trim(s)) == Trim(s)
  {
    var a, r := TrimStart(s), Trim(s);
    if r != "" { assert r[0] == a[0]; }
    TrimFixed(r);
  }

  lemma TrimSubset(s: string)
    ensures forall c :: c in Trim(s) ==> c in s
  {
    var left, right := TrimParts(s);
  }

  lemma AppendFirst(left: string, rest: string)
    ensures left != "" ==> (left + rest)[0] == left[0]
  {
  }

  lemma AppendLast(s: string, right: string)
    ensures right != "" ==> (s + right)[|s| + |right| - 1] == right[|right| - 1]
  {
  }

  /** What is not white space lies between the blank ends. */
  lemma BetweenBlanks(left: string, mid: string, right: string, k: nat)
    requires Blank(left) && Blank(right) && k < |left + mid + right| && !IsSpace((left + mid + right)[k])
    ensures |left| <= k < |left| + |mid| && mid[k - |left|] == (left + mid + right)[k]
  {
    var s := left + mid + right;
    assert forall j :: 0 <= j < |left| ==> s[j] == left[j];
    assert forall j :: |left| + |mid| <= j < |s| ==> s[j] == right[j - |left| - |mid|];
  }

  // ---------------------------------------------------------------- the profile mark

  /** There is no `@` after the last slash. */
  predicate Unmarked(s: string) { IndexOf(s, '@', AfterLast(s, '/', |s|)).None? }

  lemma AfterLastIs(s: string, n: nat, a: nat)
    requires a <= n <= |s| && (a > 0 ==> s[a - 1] == '/') && forall k :: a <= k < n ==> s[k] != '/'
    ensures AfterLast(s, '/', n) == a
  {
    assert forall k :: AfterLast(s, '/', n) <= k < n ==> s[k] != '/';
  }

  lemma FirstMark(name: string, profile: string)
    requires Unmarked(name) && '/' !in profile
    ensures var c := name + "@" + profile; IndexOf(c, '@', AfterLast(c, '/', |c|)) == Some(|name|)
  {
    var c, a := name + "@" + profile, AfterLast(name, '/', |name|);
    forall k | a <= k < |c| ensures c[k] != '/' { if k > |name| { assert c[k] == profile[k - |name| - 1]; } }
    AfterLastIs(c, |c|, a);
    assert c[|name|] == '@';
    assert forall k :: a <= k < |name| ==> c[k] == name[k];
  }

  lemma DateMoves(name: string, profile: string)
    ensures DateAt(name + "@" + profile, |name| + 1) <==> DateAt(profile, 0)
  {
    var c := name + "@" + profile;
    assert forall k :: 0 <= k < |profile| ==> c[|name| + 1 + k] == profile[k];
    if Digits(c, |name| + 1, 8) {
      forall k | 0 <= k < 8 ensures IsDigit(profile[k]) { assert IsDigit(c[|name| + 1 + k]); }
    }
  }

  /** Not empty, and no white space in front. */
  predicate Name(s: string) { s != "" && !IsSpace(s[0]) }

  lemma NameTrims(s: string)
    requires Name(s)
    ensures Trim(s) != ""
  {
    TrimEmptyIff(s);
  }

  predicate Ends(s: string) { s != "" && !IsSpace(s[|s| - 1]) }

  lemma EndTrims(s: string)
    requires Ends(s)
    ensures Trim(s) != ""
  {
    TrimEmptyIff(s);
  }

  predicate Date(s: string) { |s| == 8 && Digits(s, 0, 8) }

  lemma SplitParts(c: string, before: string, after: string, model: string, profile: string)
    requires c == before + "@" + after && Trim(before) == model != "" && Trim(after) == profile != ""
    ensures SplitAt(c, |before|) == Split(model, Some(profile))
  {
    assert c[..|before|] == before && c[|before| + 1..] == after;
  }

  lemma SplitByMark(c: string, d: nat)
    requires Trim(c) == c && ProfileAt(c) == Some(d)
    ensures SplitTrailingModelAuthProfile(c) == SplitAt(c, d)
  {
  }

  lemma SplitUnmarked(c: string)
    requires Trim(c) == c && ProfileAt(c) == None
    ensures SplitTrailingModelAuthProfile(c) == Split(c, None)
  {
  }

  /** A name and a profile put together are split again as they were, */
  lemma SplitJoined(name: string, profile: string)
    requires Name(name) && Unmarked(name) && Name(profile) && Trimmed(profile) && '/' !in profile
    requires !DateAt(profile, 0)
    ensures SplitTrailingModelAuthProfile(name + "@" + profile) == Split(Trim(name), Some(profile))
  {
    var c := name + "@" + profile;
    JoinedTrims(name, profile);
    JoinedMark(name, profile);
    NameTrims(name);
    TrimFixed(profile);
    SplitParts(c, name, profile, Trim(name), profile);
    SplitByMark(c, |name|);
  }

  lemma JoinedTrims(name: string, profile: string)
    requires Name(name) && Ends(profile)
    ensures Trim(name + "@" + profile) == name + "@" + profile
  {
    var c := name + "@" + profile;
    assert c[0] == name[0] && c[|c| - 1] == profile[|profile| - 1];
    TrimFixed(c);
  }

  lemma JoinedMark(name: string, profile: string)
    requires name != "" && Unmarked(name) && '/' !in profile
    ensures var c := name + "@" + profile;
            ProfileAt(c) == if DateAt(profile, 0) then IndexOf(c, '@', |name| + 9) else Some(|name|)
  {
    FirstMark(name, profile);
    DateMoves(name, profile);
  }

  /** unless the profile is a date, which is taken for part of the name, */
  lemma SplitDate(name: string, date: string)
    requires Name(name) && Unmarked(name) && Date(date)
    ensures SplitTrailingModelAuthProfile(name + "@" + date) == Split(name + "@" + date, None)
  {
    var c := name + "@" + date;
    assert IsDigit(date[7]);
    JoinedTrims(name, date);
    assert '/' !in date by { assert forall k :: 0 <= k < 8 ==> IsDigit(date[k]); }
    JoinedMark(name, date);
    SplitUnmarked(c);
  }

  lemma DateThenMark(name: string, date: string, rest: string)
    requires name != "" && Unmarked(name) && Date(date) && '/' !in rest
    ensures ProfileAt(name + "@" + date + "@" + rest) == Some(|name| + 9)
  {
    var profile := date + "@" + rest;
    var c := name + "@" + profile;
    assert c == name + "@" + date + "@" + rest;
    assert forall k :: 0 <= k < 8 ==> profile[k] == date[k] && IsDigit(date[k]);
    assert profile[8] == '@' && forall k :: 9 <= k < |profile| ==> profile[k] == rest[k - 9];
    JoinedMark(name, profile);
    assert c[|name| + 9] == '@';
  }

  /** or a date and an `@` with nothing after it, */
  lemma SplitDateMark(name: string, date: string)
    requires Name(name) && Unmarked(name) && Date(date)
    ensures SplitTrailingModelAuthProfile(name + "@" + date + "@") == Split(name + "@" + date + "@", None)
  {
    var c := name + "@" + date + "@";
    assert c == name + "@" + date + "@" + "";
    DateThenMark(name, date, "");
    assert c[0] == name[0] && c[|c| - 1] == '@';
    TrimFixed(c);
    SplitByMark(c, |name| + 9);
    assert c[|name| + 10..] == "";
    TrimFixed("");
  }

  /** or begins with a date and an `@`: the date goes to the name and the rest is trimmed. */
  lemma SplitDated(name: string, date: string, rest: string)
    requires Name(name) && Unmarked(name) && Date(date) && Ends(rest) && '/' !in rest
    ensures SplitTrailingModelAuthProfile(name + "@" + date + "@" + rest)
         == Split(name + "@" + date, Some(Trim(rest)))
  {
    DatedWhole(name, date, rest);
    DatedTrims(name, date);
    EndTrims(rest);
    SplitAsParts(name + "@" + date, rest, Trim(rest));
  }

  lemma DatedWhole(name: string, date: string, rest: string)
    requires Name(name) && Unmarked(name) && Date(date) && Ends(rest) && '/' !in rest
    ensures var c := name + "@" + date + "@" + rest; Trim(c) == c && ProfileAt(c) == Some(|name + "@" + date|)
  {
    DateThenMark(name, date, rest);
    JoinedTrims(name + "@" + date, rest);
  }

  lemma SplitAsParts(model: string, after: string, profile: string)
    requires Trim(model) == model != "" && Trim(after) == profile != ""
    requires Trim(model + "@" + after) == model + "@" + after && ProfileAt(model + "@" + after) == Some(|model|)
    ensures SplitTrailingModelAuthProfile(model + "@" + after) == Split(model, Some(profile))
  {
    SplitParts(model + "@" + after, model, after, model, profile);
    SplitByMark(model + "@" + after, |model|);
  }

  lemma DatedTrims(name: string, date: string)
    requires Name(name) && Date(date)
    ensures Trim(name + "@" + date) == name + "@" + date != ""
  {
    assert IsDigit(date[7]);
    JoinedTrims(name, date);
  }

  /** A name that ends in a date: `<base>@<eight digits>`. */
  predicate DatedName(s: string, base: string, date: string) {
    s == base + "@" + date && Name(base) && Unmarked(base) && Date(date)
  }

  lemma UnmarkedBefore(t: string, first: nat)
    requires IndexOf(t, '@', AfterLast(t, '/', |t|)) == Some(first)
    ensures Unmarked(t[..first]) && '/' !in t[first..]
  {
    var a := AfterLast(t, '/', |t|);
    AfterLastIs(t[..first], first, a);
    forall k | 0 <= k < |t[first..]| ensures t[first..][k] != '/' { assert t[first..][k] == t[first + k]; }
  }

  /** Trimming a name takes no slash away, so it uncovers no `@`. */
  lemma UnmarkedTrim(s: string)
    requires Unmarked(s)
    ensures Unmarked(Trim(s))
  {
    var left, right := TrimParts(s);
    UnmarkedBetween(left, Trim(s), right);
  }

  lemma UnmarkedBetween(left: string, mid: string, right: string)
    requires Blank(left) && Blank(right) && Unmarked(left + mid + right)
    ensures Unmarked(mid)
  {
    var s := left + mid + right;
    var a, b := AfterLast(s, '/', |s|), AfterLast(mid, '/', |mid|);
    if a > 0 { BetweenBlanks(left, mid, right, a - 1); }
    forall k | b <= k < |mid| ensures mid[k] != '@' {
      assert s[|left| + k] == mid[k];
    }
  }

  /** Where the name ends and the profile begins, before they are trimmed. */
  lemma SplitPoint(m: string) returns (before: string, after: string)
    requires SplitTrailingModelAuthProfile(m).profile.Some?
    ensures Trim(m) == before + "@" + after && Name(before) && Ends(after) && '/' !in after
    ensures SplitTrailingModelAuthProfile(m) == Split(Trim(before), Some(Trim(after)))
    ensures Unmarked(before) || exists base, date :: DatedName(before, base, date)
  {
    TrimIsTrimmed(m);
    before, after := SplitPointOf(Trim(m), ProfileAt(Trim(m)).value);
  }

  lemma SplitPointOf(t: string, d: nat) returns (before: string, after: string)
    requires Trimmed(t) && ProfileAt(t) == Some(d) && SplitAt(t, d).profile.Some?
    ensures t == before + "@" + after && Name(before) && Ends(after) && '/' !in after
    ensures SplitAt(t, d) == Split(Trim(before), Some(Trim(after)))
    ensures Unmarked(before) || exists base, date :: DatedName(before, base, date)
  {
    before, after := t[..d], t[d + 1..];
    assert t == before + "@" + after;
    MarkShape(t, d);
    AfterEnds(t, d);
  }

  lemma AfterEnds(t: string, d: nat)
    requires Trimmed(t) && 0 < d < |t| && Trim(t[d + 1..]) != ""
    ensures Name(t[..d]) && Ends(t[d + 1..])
  {
    TrimFixed("");
    assert t[d + 1..] != "";
    assert t[d + 1..][|t| - d - 2] == t[|t| - 1];
  }

  lemma MarkShape(t: string, d: nat)
    requires Trimmed(t) && ProfileAt(t) == Some(d)
    ensures '/' !in t[d + 1..]
    ensures Unmarked(t[..d]) || exists base, date :: DatedName(t[..d], base, date)
  {
    var first := IndexOf(t, '@', AfterLast(t, '/', |t|)).value;
    UnmarkedBefore(t, first);
    assert t[d + 1..] == t[first..][d + 1 - first..];
    if d != first {
      var date := t[first + 1..d];
      assert d == first + 9 && t[..d] == t[..first] + "@" + date;
      assert forall k :: 0 <= k < 8 ==> date[k] == t[first + 1 + k];
      assert DatedName(t[..d], t[..first], date);
    }
  }

  /** What splitting yields when it finds a profile. */
  lemma SplitShape(m: string)
    requires SplitTrailingModelAuthProfile(m).profile.Some?
    ensures var split := SplitTrailingModelAuthProfile(m);
            && Trim(split.model) == split.model
            && Name(split.profile.value) && Trimmed(split.profile.value) && '/' !in split.profile.value
            && (Unmarked(split.model) || exists base, date :: DatedName(split.model, base, date))
  {
    var before, after := SplitPoint(m);
    TrimIsTrimmed(before);
    TrimIsTrimmed(after);
    EndTrims(after);
    TrimSubset(after);
    if Unmarked(before) {
      UnmarkedTrim(before);
    } else {
      var base, date :| DatedName(before, base, date);
      DatedTrims(base, date);
    }
  }

  /** Splitting loses nothing but the outer white space and that around the `@`. */
  lemma SplitIsLossless(s: string) returns (left: string, right: string)
    ensures Blank(left) && Blank(right)
    ensures var split := SplitTrailingModelAuthProfile(s);
            Trim(s) == if split.profile.None? then split.model
                       else split.model + left + "@" + right + split.profile.value
    ensures var split := SplitTrailingModelAuthProfile(s);
            Attach(split.model, split.profile) == Trim(s) <==> split.profile.None? || left + right == ""
  {
    left, right := "", "";
    var split := SplitTrailingModelAuthProfile(s);
    if split.profile.Some? {
      var before, after := SplitPoint(s);
      left, right := LosslessParts(before, after);
    }
  }

  lemma LosslessParts(before: string, after: string) returns (left: string, right: string)
    requires Name(before) && Ends(after)
    ensures Blank(left) && Blank(right) && before + "@" + after == Trim(before) + left + "@" + right + Trim(after)
    ensures Attach(Trim(before), Some(Trim(after))) == before + "@" + after <==> left + right == ""
  {
    left := NameParts(before);
    right := EndParts(after);
    EndTrims(after);
    RejoinedIff(Trim(before), left, right, Trim(after));
  }

  lemma RejoinedIff(model: string, left: string, right: string, profile: string)
    ensures model + left + "@" + right + profile == model + "@" + profile <==> left + right == ""
  {
    assert |model + left + "@" + right + profile| == |model + "@" + profile| + |left + right|;
  }

  lemma NameParts(s: string) returns (right: string)
    requires Name(s)
    ensures s == Trim(s) + right && Blank(right)
  {
    var left: string;
    left, right := TrimParts(s);
    AppendFirst(left, Trim(s) + right);
    assert left + (Trim(s) + right) == s;
    assert left == "";
  }

  lemma EndParts(s: string) returns (left: string)
    requires Ends(s)
    ensures s == left + Trim(s) && Blank(left)
  {
    var right: string;
    left, right := TrimParts(s);
    AppendLast(left + Trim(s), right);
    assert right == "";
  }

  // ---------------------------------------------------------------- names that stay

  predicate LowerCase(s: string) { forall i :: 0 <= i < |s| ==> !('A' <= s[i] <= 'Z') }

  lemma LowerFixed(s: string)
    requires LowerCase(s)
    ensures Lower(s) == s
  {
    assert forall i :: 0 <= i < |s| ==> Lower(s)[i] == s[i];
  }

  /** A full, current name: rewriting keeps it. */
  predicate Firm(name: string) {
    && Name(name) && Trimmed(name)
    && StartsWith(Lower(name), "claude-") && UpgradeOldClaudeModelId(Lower(name)).None?
  }

  lemma FirmStays(name: string)
    requires Firm(name)
    ensures KnownName(name) == Some(name)
  {
    TrimFixed(name);
  }

  /** What the rewriting tables stand for is current. */
  predicate Current(c: string) {
    c == OPUS || c == SONNET || c == "claude-opus-4-7" || c == "claude-opus-4-6" || c == "claude-haiku-4-5"
  }

  predicate ProperName(c: string) {
    && c in CURRENT && LowerCase(c) && StartsWith(c, "claude-")
    && Name(c) && Trimmed(c) && '@' !in c && '/' !in c
  }

  lemma OpusIsProper()
    ensures ProperName(OPUS)
  {
    assert CURRENT[0] == OPUS;
  }

  lemma OlderOpusIsProper()
    ensures ProperName("claude-opus-4-7") && ProperName("claude-opus-4-6")
  {
    assert CURRENT[2] == "claude-opus-4-7" && CURRENT[4] == "claude-opus-4-6";
  }

  lemma SonnetIsProper()
    ensures ProperName(SONNET)
  {
    assert CURRENT[6] == SONNET;
  }

  lemma HaikuIsProper()
    ensures ProperName("claude-haiku-4-5")
  {
    assert CURRENT[8] == "claude-haiku-4-5";
  }

  lemma CurrentNames(c: string)
    requires Current(c)
    ensures ProperName(c)
  {
    OpusIsProper();
    OlderOpusIsProper();
    SonnetIsProper();
    HaikuIsProper();
  }

  lemma ProperIsFirm(c: string)
    requires ProperName(c)
    ensures Firm(c) && Unmarked(c)
  {
    LowerFixed(c);
    var i :| 0 <= i < |CURRENT| && CURRENT[i] == c;
    assert StartsWith(c, CURRENT[i]);
    assert StartsWithAny(c, CURRENT);
  }

  lemma TablesAreCurrent(n: string)
    ensures UpgradeOldClaudeModelId(n).Some? ==> Current(UpgradeOldClaudeModelId(n).value)
    ensures FullName(n).Some? ==> Current(FullName(n).value)
  {
  }

  /** A name is rewritten to a current one, or kept. */
  lemma KnownIsFirm(model: string)
    requires KnownName(model).Some?
    ensures var name := KnownName(model).value; Firm(name) && (Current(name) || name == Trim(model))
  {
    var name := KnownName(model).value;
    TablesAreCurrent(Lower(Trim(model)));
    TrimIsTrimmed(model);
    if Current(name) {
      CurrentNames(name);
      ProperIsFirm(name);
    }
  }

  // ---------------------------------------------------------------- dates after names

  /** `@` followed by digits, and perhaps another `@`. */
  predicate DateSuffix(s: string) {
    s != "" && s[0] == '@' && forall k :: 0 <= k < |s| ==> s[k] == '@' || IsDigit(s[k])
  }

  predicate Markless(prefixes: seq<string>) { forall i :: 0 <= i < |prefixes| ==> '@' !in prefixes[i] }

  lemma PrefixOfName(n: string, suffix: string, p: string)
    requires DateSuffix(suffix) && StartsWith(n + suffix, p) && '@' !in p
    ensures |p| <= |n| && StartsWith(n, p)
  {
    assert (n + suffix)[|n|] == '@' && forall k :: 0 <= k < |p| ==> p[k] == (n + suffix)[k];
    assert (n + suffix)[..|p|] == n[..|p|];
  }

  lemma RetiredOfName(n: string, suffix: string, prefixes: seq<string>)
    requires DateSuffix(suffix) && Markless(prefixes) && HasAnyRetired(n + suffix, prefixes)
    ensures HasAnyRetired(n, prefixes)
  {
    var i :| 0 <= i < |prefixes| && HasRetiredVersionPrefix(n + suffix, prefixes[i]);
    var p := prefixes[i];
    assert StartsWith(n + suffix, p);
    PrefixOfName(n, suffix, p);
    if |n| == |p| { assert n == p; } else { assert (n + suffix)[|p|] == n[|p|]; }
    assert HasRetiredVersionPrefix(n, p);
  }

  lemma DatedOfName(n: string, suffix: string, family: string)
    requires DateSuffix(suffix) && '@' !in family && Dated(n + suffix, family)
    ensures Dated(n, family)
  {
    PrefixOfName(n, suffix, family + "20");
    var from := |family| + 2;
    assert (n + suffix)[|n|] == '@' && forall k :: from <= k < from + 6 ==> IsDigit((n + suffix)[k]);
    assert forall k :: from <= k < from + 6 ==> n[k] == (n + suffix)[k];
  }

  predicate Letters(p: string) { p != "" && forall k :: 0 <= k < |p| ==> !IsDigit(p[k]) && p[k] != '@' }

  lemma IncludedInName(n: string, suffix: string, p: string)
    requires DateSuffix(suffix) && Letters(p) && Includes(n + suffix, p)
    ensures Includes(n, p)
  {
    var c := n + suffix;
    var i :| 0 <= i <= |c| && StartsWith(c[i..], p);
    assert forall j :: i <= j < i + |p| ==> c[j] == c[i..][..|p|][j - i] == p[j - i];
    var k := if i < |n| then |n| else i;
    assert c[k] == suffix[k - |n|];
    assert i + |p| <= |n|;
    assert n[i..][..|p|] == c[i..][..|p|];
    assert StartsWith(n[i..], p);
  }

  lemma ListsAreMarkless()
    ensures Markless(RETIRED_OPUS) && Markless(RETIRED_SONNET)
  {
  }

  lemma NotShort(n: string)
    requires StartsWith(n, "claude-")
    ensures n !in SHORT_OPUS && n !in SHORT_SONNET
  {
    assert n[0] == "claude-"[0] == 'c';
  }

  /** A name that is not retired is not with a date either. */
  lemma UpgradeOfName(n: string, suffix: string)
    requires DateSuffix(suffix) && StartsWith(n, "claude-") && UpgradeOldClaudeModelId(n).None?
    ensures UpgradeOldClaudeModelId(n + suffix).None?
  {
    var c := n + suffix;
    if StartsWithAny(n, CURRENT) {
      var i :| 0 <= i < |CURRENT| && StartsWith(n, CURRENT[i]);
      assert c[..|CURRENT[i]|] == n[..|CURRENT[i]|];
      assert StartsWith(c, CURRENT[i]);
    } else if !StartsWithAny(c, CURRENT) {
      RetiredTests(n, suffix);
      OldTests(n, suffix);
      assert c[|n|] == '@';
    }
  }

  lemma RetiredTests(n: string, suffix: string)
    requires DateSuffix(suffix)
    ensures HasAnyRetired(n + suffix, RETIRED_OPUS) ==> HasAnyRetired(n, RETIRED_OPUS)
    ensures HasAnyRetired(n + suffix, RETIRED_SONNET) ==> HasAnyRetired(n, RETIRED_SONNET)
    ensures Dated(n + suffix, "claude-opus-4-") ==> Dated(n, "claude-opus-4-")
    ensures Dated(n + suffix, "claude-sonnet-4-") ==> Dated(n, "claude-sonnet-4-")
  {
    var c := n + suffix;
    ListsAreMarkless();
    if HasAnyRetired(c, RETIRED_OPUS) { RetiredOfName(n, suffix, RETIRED_OPUS); }
    if HasAnyRetired(c, RETIRED_SONNET) { RetiredOfName(n, suffix, RETIRED_SONNET); }
    if Dated(c, "claude-opus-4-") { DatedOfName(n, suffix, "claude-opus-4-"); }
    if Dated(c, "claude-sonnet-4-") { DatedOfName(n, suffix, "claude-sonnet-4-"); }
  }

  lemma OldTests(n: string, suffix: string)
    requires DateSuffix(suffix) && StartsWith(n, "claude-")
    ensures StartsWith(n + suffix, "claude-3") ==> StartsWith(n, "claude-3")
    ensures forall p :: p in ["opus", "sonnet", "haiku"] && Includes(n + suffix, p) ==> Includes(n, p)
    ensures n + suffix !in SHORT_OPUS && n + suffix !in SHORT_SONNET
  {
    var c := n + suffix;
    if StartsWith(c, "claude-3") { PrefixOfName(n, suffix, "claude-3"); }
    forall p | p in ["opus", "sonnet", "haiku"] && Includes(c, p) ensures Includes(n, p) {
      IncludedInName(n, suffix, p);
    }
    assert c[..|"claude-"|] == n[..|"claude-"|];
    NotShort(c);
  }

  lemma FirmExtends(name: string, suffix: string)
    requires Firm(name) && DateSuffix(suffix)
    ensures Firm(name + suffix)
  {
    var c := name + suffix;
    assert Lower(c) == Lower(name) + suffix;
    assert c[0] == name[0] && c[|c| - 1] == suffix[|suffix| - 1];
    assert Lower(c)[..|"claude-"|] == Lower(name)[..|"claude-"|];
    UpgradeOfName(Lower(name), suffix);
  }

  // ---------------------------------------------------------------- canonicalizing twice

  /** A profile that begins with a date, an `@` and white space. */
  predicate BlankAfterDate(profile: string) {
    |profile| > 9 && Digits(profile, 0, 8) && profile[8] == '@' && IsSpace(profile[9])
  }

  /** The references a second pass changes: the profile found begins with a date, an `@` and white space,
      and the name it is attached to has no `@` of its own. */
  predicate Unstable(m: string) {
    var split := SplitTrailingModelAuthProfile(m);
    var name := KnownName(split.model);
    name.Some? && Unmarked(name.value) && split.profile.Some? && BlankAfterDate(split.profile.value)
  }

  lemma DateSuffixes(date: string)
    requires Date(date)
    ensures DateSuffix("@" + date) && DateSuffix("@" + date + "@")
  {
    assert forall k :: 0 <= k < 8 ==> IsDigit(date[k]);
  }

  lemma FirmDated(name: string, date: string)
    requires Firm(name) && Date(date)
    ensures KnownName(name + "@" + date) == Some(name + "@" + date)
    ensures KnownName(name + "@" + date + "@") == Some(name + "@" + date + "@")
  {
    DateSuffixes(date);
    FirmExtends(name, "@" + date);
    FirmExtends(name, "@" + date + "@");
    assert name + ("@" + date) == name + "@" + date;
    assert name + ("@" + date + "@") == name + "@" + date + "@";
    FirmStays(name + "@" + date);
    FirmStays(name + "@" + date + "@");
  }

  /** The parts of a profile that begins with a date. */
  lemma DateParts(profile: string) returns (date: string, rest: string)
    requires Trimmed(profile) && |profile| > 9 && DateAt(profile, 0)
    ensures date == profile[..8] && rest == profile[9..]
    ensures profile == date + "@" + rest && Date(date) && Ends(rest)
    ensures rest[0] == profile[9] && forall c :: c in rest ==> c in profile
  {
    date, rest := profile[..8], profile[9..];
    assert forall k :: 0 <= k < 8 ==> date[k] == profile[k];
    assert rest[|rest| - 1] == profile[|profile| - 1];
  }

  /** The second pass over a name without `@` and a profile. */
  lemma SecondPass(name: string, profile: string)
    requires Firm(name) && Unmarked(name) && Name(profile) && Trimmed(profile) && '/' !in profile
    requires !BlankAfterDate(profile)
    ensures CanonicalizeKnownClaudeCliModelId(name + "@" + profile) == Some(name + "@" + profile)
  {
    if !DateAt(profile, 0) {
      SecondPlain(name, profile);
    } else if |profile| <= 9 {
      SecondDate(name, profile);
    } else {
      SecondLong(name, profile);
    }
  }

  lemma SecondLong(name: string, profile: string)
    requires Firm(name) && Unmarked(name) && Trimmed(profile) && '/' !in profile
    requires |profile| > 9 && DateAt(profile, 0) && !IsSpace(profile[9])
    ensures CanonicalizeKnownClaudeCliModelId(name + "@" + profile) == Some(name + "@" + profile)
  {
    var date, rest := DateParts(profile);
    SecondRest(name, date, rest);
    JoinParts(name, date, rest);
  }

  lemma JoinParts(name: string, date: string, rest: string)
    ensures name + "@" + (date + "@" + rest) == name + "@" + date + "@" + rest
  {
  }

  lemma SecondRest(name: string, date: string, rest: string)
    requires Firm(name) && Unmarked(name) && Date(date) && Name(rest) && Ends(rest) && '/' !in rest
    ensures CanonicalizeKnownClaudeCliModelId(name + "@" + date + "@" + rest) == Some(name + "@" + date + "@" + rest)
  {
    SecondDated(name, date, rest);
    RestIsTrimmed(rest);
  }

  lemma RestIsTrimmed(rest: string)
    requires Name(rest) && Ends(rest)
    ensures Trim(rest) == rest
  {
    TrimFixed(rest);
  }

  lemma SecondPlain(name: string, profile: string)
    requires Firm(name) && Unmarked(name) && Name(profile) && Trimmed(profile) && '/' !in profile
    requires !DateAt(profile, 0)
    ensures CanonicalizeKnownClaudeCliModelId(name + "@" + profile) == Some(name + "@" + profile)
  {
    SplitJoined(name, profile);
    TrimFixed(name);
    FirmStays(name);
  }

  lemma SecondDate(name: string, profile: string)
    requires Firm(name) && Unmarked(name) && DateAt(profile, 0) && |profile| <= 9
    ensures CanonicalizeKnownClaudeCliModelId(name + "@" + profile) == Some(name + "@" + profile)
  {
    var date := profile[..8];
    assert Date(date) by { assert forall k :: 0 <= k < 8 ==> date[k] == profile[k]; }
    FirmDated(name, date);
    if |profile| == 8 {
      assert profile == date;
      SplitDate(name, date);
    } else {
      assert profile == date + "@" && name + "@" + profile == name + "@" + date + "@";
      SplitDateMark(name, date);
    }
  }

  lemma SecondDated(name: string, date: string, rest: string)
    requires Firm(name) && Unmarked(name) && Date(date) && Ends(rest) && '/' !in rest
    ensures CanonicalizeKnownClaudeCliModelId(name + "@" + date + "@" + rest)
         == Some(name + "@" + date + "@" + Trim(rest))
  {
    SplitDated(name, date, rest);
    FirmDated(name, date);
    EndTrims(rest);
  }

  /** The second pass shortens an unstable form; what it leaves is stable. */
  lemma UnstablePass(name: string, profile: string)
    requires Firm(name) && Unmarked(name) && Name(profile) && Trimmed(profile) && '/' !in profile
    requires BlankAfterDate(profile)
    ensures var c := name + "@" + profile;
            && CanonicalizeKnownClaudeCliModelId(c).Some?
            && |CanonicalizeKnownClaudeCliModelId(c).value| < |c|
            && '@' in CanonicalizeKnownClaudeCliModelId(c).value
            && !Unstable(c)
  {
    var date, rest := DateParts(profile);
    JoinParts(name, date, rest);
    SecondDated(name, date, rest);
    BlankIsTrimmed(rest);
    SplitDated(name, date, rest);
    FirmDated(name, date);
    FirstMark(name, date);
  }

  lemma BlankIsTrimmed(s: string)
    requires Ends(s) && IsSpace(s[0])
    ensures |Trim(s)| < |s|
  {
    TrimIsTrimmed(s);
    EndTrims(s);
    var left := EndParts(s);
    assert !IsSpace(Trim(s)[0]);
    assert s != Trim(s);
  }

  /** A name with a date of its own comes back whatever the profile. */
  lemma DatedNamePass(name: string, base: string, date: string, profile: string)
    requires Firm(name) && DatedName(name, base, date) && Name(profile) && Trimmed(profile) && '/' !in profile
    ensures CanonicalizeKnownClaudeCliModelId(name + "@" + profile) == Some(name + "@" + profile)
  {
    SplitDated(base, date, profile);
    TrimFixed(profile);
    FirmStays(name);
  }

  /** What canonicalizing gives, and how the result is canonicalized. */
  lemma CanonicalAgain(m: string)
    requires CanonicalizeKnownClaudeCliModelId(m).Some?
    ensures var c := CanonicalizeKnownClaudeCliModelId(m).value;
            && Name(c) && Trimmed(c)
            && CanonicalizeKnownClaudeCliModelId(c).Some?
            && (!Unstable(m) ==> CanonicalizeKnownClaudeCliModelId(c) == Some(c))
            && (Unstable(m) ==> |CanonicalizeKnownClaudeCliModelId(c).value| < |c| && !Unstable(c)
                                && '@' in CanonicalizeKnownClaudeCliModelId(c).value)
  {
    var split := SplitTrailingModelAuthProfile(m);
    var name := KnownName(split.model).value;
    KnownIsFirm(split.model);
    if split.profile.None? {
      BareAgain(m, name);
    } else {
      SplitShape(m);
      ProfiledAgain(split.model, name, split.profile.value);
    }
  }

  lemma ProfiledAgain(model: string, name: string, profile: string)
    requires Firm(name) && (Current(name) || name == model)
    requires Name(profile) && Trimmed(profile) && '/' !in profile
    requires Unmarked(model) || exists base, date :: DatedName(model, base, date)
    ensures var c := name + "@" + profile;
            var again := CanonicalizeKnownClaudeCliModelId(c);
            && Name(c) && Trimmed(c) && again.Some?
            && (if Unmarked(name) && BlankAfterDate(profile)
                then |again.value| < |c| && !Unstable(c) && '@' in again.value
                else again == Some(c))
  {
    var c := name + "@" + profile;
    assert c[0] == name[0] && c[|c| - 1] == profile[|profile| - 1];
    if Current(name) {
      CurrentNames(name);
      ProperIsFirm(name);
    }
    if !Unmarked(name) {
      var base, date :| DatedName(name, base, date);
      DatedNamePass(name, base, date, profile);
    } else if BlankAfterDate(profile) {
      UnstablePass(name, profile);
    } else {
      SecondPass(name, profile);
    }
  }

  lemma BareAgain(m: string, name: string)
    requires SplitTrailingModelAuthProfile(m).profile.None?
    requires KnownName(SplitTrailingModelAuthProfile(m).model) == Some(name)
    ensures CanonicalizeKnownClaudeCliModelId(m) == Some(name) == CanonicalizeKnownClaudeCliModelId(name)
    ensures Name(name) && Trimmed(name)
  {
    var t := Trim(m);
    TrimIsTrimmed(m);
    KnownIsFirm(t);
    FirmStays(name);
    if Current(name) {
      CurrentNames(name);
      ProperIsFirm(name);
      TrimFixed(name);
    }
  }

  /** Main theorem. A canonical form is its own canonical form, unless `Unstable`. */
  lemma CanonicalizeIdempotentIff(m: string)
    requires CanonicalizeKnownClaudeCliModelId(m).Some?
    ensures var c := CanonicalizeKnownClaudeCliModelId(m).value;
            CanonicalizeKnownClaudeCliModelId(c) == Some(c) <==> !Unstable(m)
  {
    CanonicalAgain(m);
  }

  /** Main theorem. Two passes always suffice. */
  lemma TwoPassesSuffice(m: string)
    requires CanonicalizeKnownClaudeCliModelId(m).Some?
    ensures var c := CanonicalizeKnownClaudeCliModelId(m).value;
            var d := CanonicalizeKnownClaudeCliModelId(c);
            d.Some? && CanonicalizeKnownClaudeCliModelId(d.value) == d
  {
    CanonicalAgain(m);
    CanonicalAgain(CanonicalizeKnownClaudeCliModelId(m).value);
  }

  /** No reference without white space is unstable. */
  lemma PlainIsStable(m: string)
    requires forall c :: c in m ==> !IsSpace(c)
    ensures !Unstable(m)
  {
    if SplitTrailingModelAuthProfile(m).profile.Some? {
      var before, after := SplitPoint(m);
      TrimSubset(m);
      assert forall c :: c in after ==> c in Trim(m);
      TrimSubset(after);
      NoBlankNoDate(Trim(after));
    }
  }

  lemma NoBlankNoDate(profile: string)
    requires forall c :: c in profile ==> !IsSpace(c)
    ensures !BlankAfterDate(profile)
  {
  }

  lemma SpaceTrims(tail: string)
    requires Name(tail) && Ends(tail)
    ensures Trim(" " + tail) == tail
  {
    var q := TrimKeepsTail(" ", tail);
    TrimIsTrimmed(" " + tail);
    assert q != "" ==> q == " " by { assert " "[1..] == "" && " "[0..] == " "; }
  }

  /** White space before a date and after the next `@` makes a reference unstable. */
  lemma BlanksAroundADate(name: string, date: string, rest: string)
    requires Firm(name) && Unmarked(name) && Date(date) && Ends(rest) && IsSpace(rest[0]) && '/' !in rest
    ensures Unstable(name + "@" + (" " + (date + "@" + rest)))
  {
    var tail := date + "@" + rest;
    assert IsDigit(date[0]) && tail[0] == date[0];
    assert forall k :: 0 <= k < 8 ==> tail[k] == date[k] && IsDigit(date[k]);
    assert tail[8] == '@' && tail[9] == rest[0] && tail[|tail| - 1] == rest[|rest| - 1];
    assert '/' !in tail;
    SplitBlank(name, tail);
    FirmStays(name);
  }

  lemma SplitBlank(name: string, tail: string)
    requires Name(name) && Trimmed(name) && Unmarked(name) && Name(tail) && Ends(tail) && '/' !in tail
    ensures SplitTrailingModelAuthProfile(name + "@" + (" " + tail)) == Split(name, Some(tail))
  {
    var profile := " " + tail;
    var c := name + "@" + profile;
    assert profile[0] == ' ' && profile[|profile| - 1] == tail[|tail| - 1];
    assert !IsDigit(profile[0]);
    JoinedTrims(name, profile);
    JoinedMark(name, profile);
    SpaceTrims(tail);
    TrimFixed(name);
    SplitParts(c, name, profile, name, tail);
    SplitByMark(c, |name|);
  }

  /** One such input, written out: its canonical form has another canonical form. */
  lemma AnUnstableReference()
    ensures Unstable(Example())
    ensures var once := CanonicalizeKnownClaudeCliModelId(Example());
            once.Some? && CanonicalizeKnownClaudeCliModelId(once.value) != once
  {
    OpusIsProper();
    ProperIsFirm(OPUS);
    BlanksAroundADate(OPUS, "20240101", " b");
    UnstableChanges(Example());
  }

  lemma UnstableChanges(m: string)
    requires Unstable(m)
    ensures var once := CanonicalizeKnownClaudeCliModelId(m);
            once.Some? && CanonicalizeKnownClaudeCliModelId(once.value) != once
  {
    CanonicalizeIdempotentIff(m);
  }

  /** `claude-opus-4-8@ 20240101@ b`. */
  function Example(): string { OPUS + "@" + (" " + ("20240101" + "@" + " b")) }

  // ---------------------------------------------------------------- references

  lemma FirstSlash(p: string, m: string)
    requires '/' !in p
    ensures IndexOf(p + "/" + m, '/', 0) == Some(|p|)
    ensures (p + "/" + m)[..|p|] == p && (p + "/" + m)[|p| + 1..] == m
  {
    var s := p + "/" + m;
    assert s[|p|] == '/' && forall k :: 0 <= k < |p| ==> s[k] == p[k];
  }

  /** A provider and a model put together read back as they were. */
  lemma ProviderParses(p: string, m: string)
    requires Name(p) && Trimmed(p) && '/' !in p && LowerCase(p) && Name(m) && Trimmed(m)
    ensures Trim(p + "/" + m) == p + "/" + m
    ensures ParseProviderModelRef(p + "/" + m) == Some(Parsed(p, m, true))
  {
    var s := p + "/" + m;
    assert s[0] == p[0] && s[|s| - 1] == m[|m| - 1];
    TrimFixed(s);
    FirstSlash(p, m);
    TrimFixed(p);
    TrimFixed(m);
    LowerFixed(p);
  }

  lemma AnthropicIsPlain()
    ensures Name("anthropic") && Trimmed("anthropic") && '/' !in "anthropic" && LowerCase("anthropic")
  {
  }

  /** A reference with an explicit Anthropic provider reads back as its model. */
  lemma AnthropicParses(m: string)
    requires Name(m) && Trimmed(m)
    ensures Trim("anthropic/" + m) == "anthropic/" + m
    ensures ParseProviderModelRef("anthropic/" + m) == Some(Parsed("anthropic", m, true))
  {
    AnthropicIsPlain();
    AnthropicPrefix(m);
    ProviderParses("anthropic", m);
  }

  lemma AnthropicPrefix(m: string)
    ensures "anthropic" + "/" + m == "anthropic/" + m
  {
    assert "anthropic" + "/" == "anthropic/";
  }

  lemma SamePrefix(p: string, x: string, y: string)
    ensures p + x == p + y <==> x == y
  {
    if p + x == p + y { assert (p + x)[|p|..] == x && (p + y)[|p|..] == y; }
  }

  /** The references a model stands for: itself and its canonical form. */
  ghost predicate StandsFor(m: string, refs: seq<string>) {
    var canonical := CanonicalizeKnownClaudeCliModelId(m);
    forall q :: q in refs <==> q == "anthropic/" + m || (canonical.Some? && q == "anthropic/" + canonical.value)
  }

  lemma ParsedResolves(p: Parsed)
    requires ResolveParsed(p).Some?
    ensures var canonical, resolved := CanonicalizeKnownClaudeCliModelId(p.model), ResolveParsed(p).value;
            && StandsFor(p.model, resolved.runtimeRefs)
            && resolved.rewriteRef == if canonical.Some? then Some("anthropic/" + canonical.value)
                                      else if p.provider == CLI then Some("anthropic/" + p.model) else None
  {
  }

  lemma AnthropicResolves(m: string)
    requires Name(m) && Trimmed(m)
    ensures var canonical := CanonicalizeKnownClaudeCliModelId(m);
            var resolved := ResolveClaudeCliAnthropicModelRefs("anthropic/" + m);
            && resolved.Some? && StandsFor(m, resolved.value.runtimeRefs)
            && resolved.value.rewriteRef
               == (if canonical.Some? then Some("anthropic/" + canonical.value) else None)
  {
    AnthropicParses(m);
    ParsedResolves(Parsed("anthropic", m, true));
  }

  lemma ParsedIsTrimmed(raw: string)
    requires ParseProviderModelRef(raw).Some?
    ensures var m := ParseProviderModelRef(raw).value.model; Name(m) && Trimmed(m)
  {
    var t := Trim(raw);
    TrimIsTrimmed(raw);
    var slash := IndexOf(t, '/', 0);
    if slash.Some? && slash.value > 0 { TrimIsTrimmed(t[slash.value + 1..]); }
  }

  /** The model a resolved reference names. */
  function ModelOf(raw: string): (m: string)
    requires ResolveClaudeCliAnthropicModelRefs(raw).Some?
  {
    ParseProviderModelRef(raw).value.model
  }

  lemma ResolvedShape(raw: string)
    requires ResolveClaudeCliAnthropicModelRefs(raw).Some?
    ensures var m, resolved := ModelOf(raw), ResolveClaudeCliAnthropicModelRefs(raw).value;
            var canonical := CanonicalizeKnownClaudeCliModelId(m);
            && Name(m) && Trimmed(m) && StandsFor(m, resolved.runtimeRefs)
            && (canonical.Some? ==> resolved.rewriteRef == Some("anthropic/" + canonical.value))
            && (canonical.None? && resolved.rewriteRef.Some? ==> resolved.rewriteRef == Some("anthropic/" + m))
  {
    ParsedIsTrimmed(raw);
    ParsedResolves(ParseProviderModelRef(raw).value);
  }

  /** A reference whose model two passes rewrite differently. */
  predicate UnstableRef(raw: string) {
    ResolveClaudeCliAnthropicModelRefs(raw).Some? && Unstable(ModelOf(raw))
  }

  /** The one reference a second resolution adds to those an unstable reference stands for. */
  function Extra(raw: string): string
    requires UnstableRef(raw)
  {
    var c := CanonicalizeKnownClaudeCliModelId(ModelOf(raw)).value;
    "anthropic/" + CanonicalizeKnownClaudeCliModelId(c).GetOr(c)
  }

  /** Resolving one of the references an entry stands for adds nothing, or the one extra. */
  lemma RuntimeRefsGrow(raw: string, r: string, q: string)
    requires r in RuntimeRefs(raw) && q in RuntimeRefs(r)
    ensures q in RuntimeRefs(raw) || (UnstableRef(raw) && q == Extra(raw))
  {
    ResolvedShape(raw);
    var m := ModelOf(raw);
    var canonical := CanonicalizeKnownClaudeCliModelId(m);
    if r == "anthropic/" + m {
      AnthropicResolves(m);
    } else {
      CanonicalAgain(m);
      AnthropicResolves(canonical.value);
    }
  }

  /** The extra one is new, comes from the canonical form, and stands for itself alone. */
  lemma ExtraIsNew(raw: string) returns (r: string)
    requires UnstableRef(raw)
    ensures r in RuntimeRefs(raw) && Extra(raw) in RuntimeRefs(r)
    ensures Extra(raw) !in RuntimeRefs(raw) && RuntimeRefs(Extra(raw)) == [Extra(raw)] && '@' in Extra(raw)
  {
    ResolvedShape(raw);
    var m := ModelOf(raw);
    var c := CanonicalizeKnownClaudeCliModelId(m).value;
    CanonicalAgain(m);
    var d := CanonicalizeKnownClaudeCliModelId(c).value;
    CanonicalAgain(c);
    r := "anthropic/" + c;
    AnthropicResolves(c);
    SamePrefix("anthropic/", d, c);
    SamePrefix("anthropic/", d, m);
    ResolvesToItself(d);
  }

  lemma ResolvesToItself(m: string)
    requires Name(m) && Trimmed(m) && CanonicalizeKnownClaudeCliModelId(m) == Some(m)
    ensures RuntimeRefs("anthropic/" + m) == ["anthropic/" + m]
  {
    AnthropicParses(m);
  }

  /** Main theorem. The references an entry stands for are closed under resolution, unless unstable. */
  lemma RuntimeRefsAreClosedIff(raw: string)
    ensures (forall r, q :: r in RuntimeRefs(raw) && q in RuntimeRefs(r) ==> q in RuntimeRefs(raw))
            <==> !UnstableRef(raw)
  {
    if UnstableRef(raw) {
      var r := ExtraIsNew(raw);
    } else {
      forall r, q | r in RuntimeRefs(raw) && q in RuntimeRefs(r) ensures q in RuntimeRefs(raw) {
        RuntimeRefsGrow(raw, r, q);
      }
    }
  }

  lemma ResolveTrimmed(raw: string)
    ensures ResolveClaudeCliAnthropicModelRefs(Trim(raw)) == ResolveClaudeCliAnthropicModelRefs(raw)
  {
    ParseTrimmed(raw);
  }

  lemma ParseTrimmed(raw: string)
    ensures ParseProviderModelRef(Trim(raw)) == ParseProviderModelRef(raw)
  {
    TrimIsTrimmed(raw);
    ParsesAsTrimmed(raw, Trim(raw));
  }

  lemma ParsesAsTrimmed(raw: string, t: string)
    requires Trim(raw) == t && Trim(t) == t
    ensures ParseProviderModelRef(t) == ParseProviderModelRef(raw)
  {
  }

  /** Resolving a rewritten reference again. */
  lemma RewrittenAgain(m: string)
    requires Name(m) && Trimmed(m)
    ensures var again := CanonicalizeKnownClaudeCliModelId(m);
            ResolveKnownAnthropicModelRef(Some("anthropic/" + m))
            == Some("anthropic/" + if again.Some? then again.value else m)
  {
    AnthropicParses(m);
    AnthropicResolves(m);
  }

  lemma CanonicalRewrittenIff(m: string)
    requires CanonicalizeKnownClaudeCliModelId(m).Some?
    ensures var r := Some("anthropic/" + CanonicalizeKnownClaudeCliModelId(m).value);
            ResolveKnownAnthropicModelRef(r) == r <==> !Unstable(m)
  {
    var c := CanonicalizeKnownClaudeCliModelId(m).value;
    CanonicalAgain(m);
    RewrittenAgain(c);
    SamePrefix("anthropic/", CanonicalizeKnownClaudeCliModelId(c).value, c);
  }

  /** What resolving a reference yields, in terms of its model. */
  lemma ResolveKnownShape(raw: string)
    requires Trim(raw) != ""
    ensures var resolved := ResolveClaudeCliAnthropicModelRefs(raw);
            ResolveKnownAnthropicModelRef(Some(raw))
            == if resolved.Some? && resolved.value.rewriteRef.Some? then resolved.value.rewriteRef else Some(Trim(raw))
  {
    ResolveTrimmed(raw);
  }

  /** Main theorem. Resolving a resolved reference changes nothing, unless it is unstable. */
  lemma ResolveKnownIdempotentIff(raw: string)
    ensures var r := ResolveKnownAnthropicModelRef(Some(raw));
            ResolveKnownAnthropicModelRef(r) == r <==> !UnstableRef(raw)
  {
    if Trim(raw) != "" {
      ResolveKnownShape(raw);
      var resolved := ResolveClaudeCliAnthropicModelRefs(raw);
      if resolved.Some? { ResolvedShape(raw); }
      if resolved.Some? && resolved.value.rewriteRef.Some? {
        if CanonicalizeKnownClaudeCliModelId(ModelOf(raw)).Some? {
          CanonicalRewrittenIff(ModelOf(raw));
        } else {
          RewrittenAgain(ModelOf(raw));
        }
      } else {
        TrimIsTrimmed(raw);
        ResolveTrimmed(raw);
        ResolveKnownShape(Trim(raw));
      }
    }
  }

  /** No reference without white space is unstable. */
  lemma PlainRefIsStable(raw: string)
    requires forall c :: c in raw ==> !IsSpace(c)
    ensures !UnstableRef(raw)
  {
    if ResolveClaudeCliAnthropicModelRefs(raw).Some? {
      TrimSubset(raw);
      ModelIsPart(Trim(raw));
      PlainIsStable(ModelOf(raw));
    }
  }

  lemma ModelIsPart(raw: string)
    requires Trim(raw) == raw && ParseProviderModelRef(raw).Some?
    ensures forall c :: c in ParseProviderModelRef(raw).value.model ==> c in raw
  {
    var slash := IndexOf(raw, '/', 0);
    if slash.Some? && slash.value > 0 { TrimSubset(raw[slash.value + 1..]); }
  }

  /** The example with its provider. */
  lemma AnUnstableRef()
    ensures UnstableRef("anthropic/" + Example())
  {
    AnUnstableReference();
    ExampleReads();
    ModelOfRef(Example());
  }

  lemma ModelOfRef(m: string)
    requires Name(m) && Trimmed(m) && Unstable(m)
    ensures UnstableRef("anthropic/" + m)
  {
    AnthropicParses(m);
    AnthropicResolves(m);
  }

  lemma ExampleReads()
    ensures Name(Example()) && Trimmed(Example())
  {
    var middle := "@" + (" " + ("20240101" + "@"));
    OpusIsProper();
    assert Example() == OPUS + middle + " b";
    ExampleIsTrimmed(OPUS, middle, " b");
  }

  lemma ExampleIsTrimmed(first: string, middle: string, last: string)
    requires Name(first) && Ends(last)
    ensures Name(first + middle + last) && Trimmed(first + middle + last)
  {
    var s := first + middle + last;
    assert s[0] == first[0] && s[|s| - 1] == last[|last| - 1];
  }
}
