/** Small vocabulary shared by every component of the model. */
module Options {
  datatype Option<+T> = None | Some(value: T) {
    function GetOr(fallback: T): T {
      match this
      case None => fallback
      case Some(v) => v
    }
  }
}

module Sequences {
  lemma AppendAssociative<T>(a: seq<T>, b: seq<T>, c: seq<T>)
    ensures a + (b + c) == a + b + c
  {
  }
}

/** JSON values after parsing. Objects keep their fields in insertion order, as JavaScript does. */
module Json {
  import opened Options

  datatype Json =
    | Null
    | Bool(b: bool)
    | Num(n: int)
    | Str(s: string)
    | Arr(items: seq<Json>)
    | Obj(fields: seq<(string, Json)>)

  /** The value of property `key`; `None` is JavaScript's `undefined`. */
  function Field(fields: seq<(string, Json)>, key: string): Option<Json> {
    if fields == [] then None
    else if fields[0].0 == key then Some(fields[0].1)
    else Field(fields[1..], key)
  }

  /** A property is found at its first occurrence. */
  lemma {:induction false} FieldFound(fields: seq<(string, Json)>, i: nat)
    requires i < |fields| && forall j :: 0 <= j < i ==> fields[j].0 != fields[i].0
    ensures Field(fields, fields[i].0) == Some(fields[i].1)
  {
    if i > 0 {
      forall j | 0 <= j < i - 1 ensures fields[1..][j].0 != fields[i].0 {
        assert fields[1..][j] == fields[j + 1];
      }
      FieldFound(fields[1..], i - 1);
    }
  }

  lemma {:induction false} FieldMissing(fields: seq<(string, Json)>, key: string)
    requires forall j :: 0 <= j < |fields| ==> fields[j].0 != key
    ensures Field(fields, key) == None
  {
    if fields != [] {
      assert fields[0].0 != key;
      forall j | 0 <= j < |fields[1..]| ensures fields[1..][j].0 != key {
        assert fields[1..][j] == fields[j + 1];
      }
      FieldMissing(fields[1..], key);
    }
  }
}

/** JavaScript's `Map` with string keys: entries in insertion order, at most one per key. */
module OrderedMaps {
  import opened Options

  type OrderedMap<V> = seq<(string, V)>

  function Lookup<V>(m: OrderedMap<V>, k: string): Option<V> {
    if m == [] then None else if m[0].0 == k then Some(m[0].1) else Lookup(m[1..], k)
  }

  /** `m.set(k, v)`: an existing key keeps its place, a new one goes last. */
  function Put<V>(m: OrderedMap<V>, k: string, v: V): (r: OrderedMap<V>)
    ensures Lookup(r, k) == Some(v)
    ensures forall x :: x != k ==> Lookup(r, x) == Lookup(m, x)
    ensures |r| == |m| + (if Lookup(m, k).None? then 1 else 0)
  {
    if m == [] then [(k, v)]
    else if m[0].0 == k then [(k, v)] + m[1..]
    else [m[0]] + Put(m[1..], k, v)
  }

  /** `m.delete(k)`. */
  function Delete<V>(m: OrderedMap<V>, k: string): (r: OrderedMap<V>)
    ensures Lookup(r, k) == None
    ensures forall x :: x != k ==> Lookup(r, x) == Lookup(m, x)
    ensures |r| <= |m|
  {
    if m == [] then []
    else if m[0].0 == k then Delete(m[1..], k)
    else [m[0]] + Delete(m[1..], k)
  }

  ghost predicate Keyed<V>(m: OrderedMap<V>) {
    forall i, j :: 0 <= i < j < |m| ==> m[i].0 != m[j].0
  }

  lemma {:induction false} LookupAt<V>(m: OrderedMap<V>, i: nat)
    requires i < |m|
    ensures Lookup(m, m[i].0).Some?
    ensures Keyed(m) ==> Lookup(m, m[i].0) == Some(m[i].1)
  {
    if i > 0 {
      assert Keyed(m) ==> m[0].0 != m[i].0;
      LookupAt(m[1..], i - 1);
    }
  }

  lemma {:induction false} LookupFinds<V>(m: OrderedMap<V>, k: string) returns (i: nat)
    requires Lookup(m, k).Some?
    ensures i < |m| && m[i] == (k, Lookup(m, k).value)
  {
    if m[0].0 == k {
      i := 0;
    } else {
      var j := LookupFinds(m[1..], k);
      i := j + 1;
    }
  }

  lemma ConsKeyed<V>(k: string, v: V, rest: OrderedMap<V>)
    requires Keyed(rest) && Lookup(rest, k).None?
    ensures Keyed([(k, v)] + rest)
  {
    forall j | 0 <= j < |rest| ensures rest[j].0 != k {
      LookupAt(rest, j);
    }
  }

  lemma TailKeyed<V>(m: OrderedMap<V>)
    requires Keyed(m) && m != []
    ensures Keyed(m[1..]) && Lookup(m[1..], m[0].0).None?
  {
    if Lookup(m[1..], m[0].0).Some? {
      var i := LookupFinds(m[1..], m[0].0);
      assert false;
    }
  }

  lemma {:induction false} DeleteKeyed<V>(m: OrderedMap<V>, k: string)
    requires Keyed(m)
    ensures Keyed(Delete(m, k))
    ensures |Delete(m, k)| == |m| - (if Lookup(m, k).Some? then 1 else 0)
  {
    if m != [] {
      TailKeyed(m);
      DeleteKeyed(m[1..], k);
      if m[0].0 != k {
        ConsKeyed(m[0].0, m[0].1, Delete(m[1..], k));
      }
    }
  }

  lemma {:induction false} PutKeyed<V>(m: OrderedMap<V>, k: string, v: V)
    requires Keyed(m)
    ensures Keyed(Put(m, k, v))
  {
    if m != [] {
      TailKeyed(m);
      if m[0].0 == k {
        ConsKeyed(k, v, m[1..]);
      } else {
        PutKeyed(m[1..], k, v);
        ConsKeyed(m[0].0, m[0].1, Put(m[1..], k, v));
      }
    }
  }

  lemma {:induction false} LookupMissing<V>(m: OrderedMap<V>, k: string)
    requires forall j :: 0 <= j < |m| ==> m[j].0 != k
    ensures Lookup(m, k).None?
  {
    if m != [] {
      assert m[0].0 != k;
      forall j | 0 <= j < |m[1..]| ensures m[1..][j].0 != k { assert m[1..][j] == m[j + 1]; }
      LookupMissing(m[1..], k);
    }
  }

  lemma {:induction false} DeleteAppend<V>(a: OrderedMap<V>, b: OrderedMap<V>, k: string)
    ensures Delete(a + b, k) == Delete(a, k) + Delete(b, k)
  {
    if a == [] {
      assert a + b == b;
    } else {
      assert (a + b)[1..] == a[1..] + b;
      DeleteAppend(a[1..], b, k);
    }
  }

  /** Deleting the entry between `a` and `b`. */
  lemma DeleteBetween<V>(a: OrderedMap<V>, b: OrderedMap<V>)
    requires Keyed(a + b) && b != []
    ensures Lookup(a + b, b[0].0) == Some(b[0].1)
    ensures Delete(a + b, b[0].0) == a + b[1..]
  {
    var k, m := b[0].0, a + b;
    assert m[|a|] == b[0];
    LookupAt(m, |a|);
    forall j | 0 <= j < |a| ensures a[j].0 != k { assert m[j] == a[j]; }
    forall j | 0 <= j < |b[1..]| ensures b[1..][j].0 != k { assert m[|a| + 1 + j] == b[1..][j]; }
    LookupMissing(a, k);
    LookupMissing(b[1..], k);
    DeleteAppend(a, b, k);
    DeleteMissing(a, k);
    DeleteMissing(b[1..], k);
  }

  lemma {:induction false} DeleteMissing<V>(m: OrderedMap<V>, k: string)
    requires Lookup(m, k).None?
    ensures Delete(m, k) == m
  {
    if m != [] { DeleteMissing(m[1..], k); }
  }

  lemma EmptyIff<V>(m: OrderedMap<V>)
    ensures m == [] <==> forall k :: Lookup(m, k).None?
  {
    if m != [] { LookupAt(m, 0); }
  }
}

/** JavaScript string helpers. A string is a sequence of Unicode scalar values here; JavaScript counts a
    character above U+FFFF twice. */
module Text {
  import opened Options

  /** White space and line terminators, as `trim` understands them. */
  predicate IsSpace(c: char) {
    var n := c as int;
    9 <= n <= 13 || n == 0x20 || n == 0xA0 || n == 0x1680 || 0x2000 <= n <= 0x200A || n == 0x2028 || n == 0x2029
    || n == 0x202F || n == 0x205F || n == 0x3000 || n == 0xFEFF
  }

  /** Length of `s[..n]` without its trailing white space. */
  function KeepTo(s: string, n: nat): (r: nat)
    requires n <= |s|
    ensures r <= n && (r > 0 ==> !IsSpace(s[r - 1]))
  {
    if n > 0 && IsSpace(s[n - 1]) then KeepTo(s, n - 1) else n
  }

  /** First position from `n` on that is not white space. */
  function SkipFrom(s: string, n: nat): (r: nat)
    requires n <= |s|
    ensures n <= r <= |s| && (r < |s| ==> !IsSpace(s[r]))
    decreases |s| - n
  {
    if n < |s| && IsSpace(s[n]) then SkipFrom(s, n + 1) else n
  }

  function TrimEnd(s: string): (r: string)
    ensures r <= s
    ensures r != "" ==> !IsSpace(r[|r| - 1])
  {
    s[..KeepTo(s, |s|)]
  }

  function TrimStart(s: string): (r: string)
    ensures r != "" ==> !IsSpace(r[0])
  {
    s[SkipFrom(s, 0)..]
  }

  /** Everything trimmed off the end is white space. */
  lemma {:induction false} TrimmedOffIsSpace(s: string, n: nat)
    requires n <= |s|
    ensures forall k :: KeepTo(s, n) <= k < n ==> IsSpace(s[k])
  {
    if n > 0 && IsSpace(s[n - 1]) { TrimmedOffIsSpace(s, n - 1); }
  }

  function Trim(s: string): string { TrimEnd(TrimStart(s)) }

  predicate Blank(s: string) { forall i :: 0 <= i < |s| ==> IsSpace(s[i]) }

  /** Exactly the blank strings trim to nothing. */
  lemma TrimEmptyIff(s: string)
    ensures Trim(s) == "" <==> Blank(s)
  {
    var n := SkipFrom(s, 0);
    var a := TrimStart(s);
    SkippedIsSpace(s, 0);
    TrimmedOffIsSpace(a, |a|);
    assert a != "" ==> a[0] == s[n];
  }

  lemma {:induction false} SkippedIsSpace(s: string, n: nat)
    requires n <= |s|
    ensures forall k :: n <= k < SkipFrom(s, n) ==> IsSpace(s[k])
    decreases |s| - n
  {
    if n < |s| && IsSpace(s[n]) { SkippedIsSpace(s, n + 1); }
  }

  /** Trimming takes white space off both ends, and nothing else. */
  lemma TrimParts(s: string) returns (left: string, right: string)
    ensures s == left + Trim(s) + right && Blank(left) && Blank(right)
  {
    var n := SkipFrom(s, 0);
    var a := TrimStart(s);
    var k := KeepTo(a, |a|);
    SkippedIsSpace(s, 0);
    TrimmedOffIsSpace(a, |a|);
    left, right := s[..n], a[k..];
    assert a == a[..k] + a[k..] && s == s[..n] + s[n..];
  }

  function LowerChar(c: char): char {
    if 'A' <= c <= 'Z' then (c as int + 32) as char else c
  }

  /** `toLowerCase` on the ASCII range; other characters are kept. */
  function Lower(s: string): (r: string)
    ensures |r| == |s| && forall i {:trigger r[i]} :: 0 <= i < |s| ==> r[i] == LowerChar(s[i])
  {
    seq(|s|, i requires 0 <= i < |s| => LowerChar(s[i]))
  }

  /** `String(n)`. */
  function Decimal(n: nat): (d: string)
    ensures d != "" && forall k :: 0 <= k < |d| ==> '0' <= d[k] <= '9'
  {
    if n < 10 then [(48 + n) as char] else Decimal(n / 10) + [(48 + n % 10) as char]
  }

  lemma {:induction false} DecimalInjective(i: nat, j: nat)
    requires Decimal(i) == Decimal(j)
    ensures i == j
  {
    var a, b := Decimal(i), Decimal(j);
    assert a[|a| - 1] as int == 48 + i % 10 && b[|b| - 1] as int == 48 + j % 10;
    assert |a| == 1 <==> i < 10;
    assert |b| == 1 <==> j < 10;
    if i >= 10 {
      assert Decimal(i / 10) == a[..|a| - 1] && Decimal(j / 10) == b[..|b| - 1];
      DecimalInjective(i / 10, j / 10);
    }
  }

  function Pow10(k: nat): nat { if k == 0 then 1 else 10 * Pow10(k - 1) }

  lemma {:induction false} DecimalLength(n: nat, k: nat)
    requires k >= 1 && n < Pow10(k)
    ensures |Decimal(n)| <= k
  {
    assert Pow10(k) == 10 * Pow10(k - 1) && Pow10(0) == 1;
    if n >= 10 { DecimalLength(n / 10, k - 1); }
  }

  lemma {:induction false} SkipStops(s: string, n: nat, k: nat)
    requires n <= k < |s| && !IsSpace(s[k])
    ensures SkipFrom(s, n) <= k
    decreases k - n
  {
    if n < k && IsSpace(s[n]) { SkipStops(s, n + 1, k); }
  }

  /** Trimming keeps an end that neither starts nor stops with white space. */
  lemma TrimKeepsTail(p: string, t: string) returns (q: string)
    requires t != "" && !IsSpace(t[0]) && !IsSpace(t[|t| - 1])
    ensures Trim(p + t) == q + t && |q| <= |p|
  {
    var s := p + t;
    assert s[|p|] == t[0];
    SkipStops(s, 0, |p|);
    q := p[SkipFrom(s, 0)..];
    assert TrimStart(s) == q + t;
    assert (q + t)[|q + t| - 1] == t[|t| - 1];
  }

  lemma TrimFixed(s: string)
    requires s == "" || (!IsSpace(s[0]) && !IsSpace(s[|s| - 1]))
    ensures Trim(s) == s
  {
  }

  predicate StartsWith(s: string, p: string) { |p| <= |s| && s[..|p|] == p }

  /** `s.includes(p)`. */
  predicate Includes(s: string, p: string) { exists i :: 0 <= i <= |s| && StartsWith(s[i..], p) }

  /** `s.indexOf(c, from)`; `None` is -1. */
  function IndexOf(s: string, c: char, from: nat): (r: Option<nat>)
    ensures r.Some? ==> from <= r.value < |s| && s[r.value] == c
    ensures r.None? ==> forall k :: from <= k < |s| ==> s[k] != c
    ensures r.Some? ==> forall k :: from <= k < r.value ==> s[k] != c
    decreases |s| - from
  {
    if from >= |s| then None else if s[from] == c then Some(from) else IndexOf(s, c, from + 1)
  }

  /** One past `s[..n].lastIndexOf(c)`. */
  function AfterLast(s: string, c: char, n: nat): (r: nat)
    requires n <= |s|
    ensures r <= n && (r > 0 ==> s[r - 1] == c) && forall k :: r <= k < n ==> s[k] != c
  {
    if n == 0 || s[n - 1] == c then n else AfterLast(s, c, n - 1)
  }

  /** `s.slice(0, n)`. */
  function Slice(s: string, n: nat): string { if n < |s| then s[..n] else s }

  /** `parts.join(separator)`. */
  function Join(parts: seq<string>, separator: string): string {
    if parts == [] then ""
    else if |parts| == 1 then parts[0]
    else Join(parts[..|parts| - 1], separator) + separator + parts[|parts| - 1]
  }
}
