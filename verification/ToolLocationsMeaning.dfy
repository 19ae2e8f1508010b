/** The location map is order-free: it holds every path and line ever added, and a bare path exactly
    when it was never added with a line. */
module ToolLocationsMeaning {
  import opened Options
  import opened OrderedMaps
  import opened Json
  import opened Text
  import opened ToolLocations

  // ---------------------------------------------------------------- the composite key

  lemma ColonPosition(path: string, rest: string)
    requires forall k :: 0 <= k < |rest| ==> '0' <= rest[k] <= '9'
    ensures var s := path + ":" + rest; s[|path|] == ':' && forall k :: |path| < k < |s| ==> s[k] != ':'
  {
    var s := path + ":" + rest;
    forall k | |path| < k < |s| ensures s[k] != ':' { assert s[k] == rest[k - |path| - 1]; }
  }

  function LineText(l: Location): string { if l.line.Some? then Decimal(l.line.value) else "" }

  /** Whatever colons and digits a path contains, different locations have different keys. */
  lemma KeyInjective(a: Location, b: Location)
    requires LocationKey(a) == LocationKey(b)
    ensures a == b
  {
    var s, t := a.path + ":" + LineText(a), b.path + ":" + LineText(b);
    assert s == t;
    ColonPosition(a.path, LineText(a));
    ColonPosition(b.path, LineText(b));
    assert |a.path| == |b.path|;
    assert s[..|a.path|] == a.path && t[..|b.path|] == b.path;
    assert s[|a.path| + 1..] == LineText(a) && t[|b.path| + 1..] == LineText(b);
    if a.line.Some? && b.line.Some? { DecimalInjective(a.line.value, b.line.value); }
  }

  // ---------------------------------------------------------------- one addition

  ghost predicate Has(m: OrderedMap<Location>, loc: Location) {
    exists i :: 0 <= i < |m| && m[i].1 == loc
  }

  /** Entries sit under their own key, and no path is listed both bare and with a line. */
  ghost predicate WellFormed(m: OrderedMap<Location>) {
    && Keyed(m)
    && (forall i :: 0 <= i < |m| ==> m[i].0 == LocationKey(m[i].1))
    && (forall i, j :: 0 <= i < |m| && 0 <= j < |m| && m[i].1.path == m[j].1.path && m[i].1.line.None? ==> i == j)
  }

  lemma HasIsLookup(m: OrderedMap<Location>, loc: Location)
    requires Keyed(m) && forall i :: 0 <= i < |m| ==> m[i].0 == LocationKey(m[i].1)
    ensures Has(m, loc) <==> Lookup(m, LocationKey(loc)) == Some(loc)
    ensures Has(m, loc) <==> Lookup(m, LocationKey(loc)).Some?
  {
    if Has(m, loc) {
      var i :| 0 <= i < |m| && m[i].1 == loc;
      LookupAt(m, i);
    }
    if Lookup(m, LocationKey(loc)).Some? {
      var i := LookupFinds(m, LocationKey(loc));
      KeyInjective(m[i].1, loc);
    }
  }

  /** An entry of this path that makes the addition superfluous. */
  predicate Covers(existing: Location, loc: Location) {
    existing.path == loc.path && (loc.line.None? || existing.line == loc.line)
  }

  lemma {:induction false} ScanFinds(
    entries: OrderedMap<Location>, i: nat, cur: OrderedMap<Location>, loc: Location, j: nat)
    requires i <= j < |entries| && Covers(entries[j].1, loc)
    requires forall k :: i <= k < j && entries[k].1.path == loc.path ==> entries[k].1.line.Some?
    ensures Scan(entries, i, cur, loc.path, loc.line) == Scanned(cur, true)
    decreases |entries| - i
  {
    if i < j && !Covers(entries[i].1, loc) { ScanFinds(entries, i + 1, cur, loc, j); }
  }

  lemma {:induction false} ScanMisses(
    entries: OrderedMap<Location>, i: nat, cur: OrderedMap<Location>, loc: Location)
    requires i <= |entries| && WellFormed(entries)
    requires forall k :: i <= k < |entries| ==> !Covers(entries[k].1, loc)
    ensures Scan(entries, i, cur, loc.path, loc.line)
         == Scanned(
              if exists k :: i <= k < |entries| && entries[k].1 == Location(loc.path, None)
              then Delete(cur, LocationKey(Location(loc.path, None))) else cur,
              false)
    decreases |entries| - i
  {
    if i < |entries| {
      var bare := entries[i].1 == Location(loc.path, None);
      ScanMisses(entries, i + 1, if bare then Delete(cur, entries[i].0) else cur, loc);
    }
  }

  /** An addition that some entry covers changes nothing. */
  lemma CoveredInsert(m: OrderedMap<Location>, loc: Location, j: nat)
    requires WellFormed(m) && j < |m| && Covers(m[j].1, loc)
    ensures Insert(m, loc) == m
  {
    if loc.line.None? {
      var first := FirstOfPath(m, loc.path, j);
      ScanFinds(m, 0, m, loc, first);
    } else {
      ScanFinds(m, 0, m, loc, j);
    }
  }

  lemma {:induction false} FirstOfPath(m: OrderedMap<Location>, path: string, j: nat) returns (first: nat)
    requires j < |m| && m[j].1.path == path
    ensures first <= j && m[first].1.path == path && forall k :: 0 <= k < first ==> m[k].1.path != path
  {
    if k :| 0 <= k < j && m[k].1.path == path { first := FirstOfPath(m, path, k); } else { first := j; }
  }

  /** Any other addition replaces the path's bare entry, if there is one. */
  lemma UncoveredInsert(m: OrderedMap<Location>, loc: Location)
    requires WellFormed(m) && forall k :: 0 <= k < |m| ==> !Covers(m[k].1, loc)
    ensures Insert(m, loc) == Put(Delete(m, LocationKey(Location(loc.path, None))), LocationKey(loc), loc)
  {
    var bare := Location(loc.path, None);
    ScanMisses(m, 0, m, loc);
    HasIsLookup(m, bare);
    HasIsLookup(m, loc);
    if !Has(m, bare) { DeleteMissing(m, LocationKey(bare)); }
    if loc != bare && LocationKey(loc) == LocationKey(bare) { KeyInjective(loc, bare); }
  }

  lemma {:induction false} DeleteHas(m: OrderedMap<Location>, k: string, loc: Location)
    requires forall i :: 0 <= i < |m| ==> m[i].0 == LocationKey(m[i].1)
    ensures Has(Delete(m, k), loc) <==> Has(m, loc) && LocationKey(loc) != k
    ensures forall i :: 0 <= i < |Delete(m, k)| ==> Delete(m, k)[i].0 == LocationKey(Delete(m, k)[i].1)
  {
    if m != [] {
      var rest, d := m[1..], Delete(m, k);
      DeleteHas(rest, k, loc);
      HasCons(m, loc);
      if m[0].0 != k { HasCons(d, loc); }
    }
  }

  lemma HasCons(m: OrderedMap<Location>, loc: Location)
    requires m != []
    ensures Has(m, loc) <==> m[0].1 == loc || Has(m[1..], loc)
  {
    if Has(m[1..], loc) {
      var i :| 0 <= i < |m[1..]| && m[1..][i].1 == loc;
      assert m[i + 1].1 == loc;
    }
    if Has(m, loc) && m[0].1 != loc {
      var i :| 0 <= i < |m| && m[i].1 == loc;
      assert m[1..][i - 1].1 == loc;
    }
  }

  lemma {:induction false} PutNewHas(m: OrderedMap<Location>, loc: Location, x: Location)
    requires Lookup(m, LocationKey(loc)).None?
    ensures Put(m, LocationKey(loc), loc) == m + [(LocationKey(loc), loc)]
    ensures Has(Put(m, LocationKey(loc), loc), x) <==> Has(m, x) || x == loc
  {
    if m != [] {
      PutNewHas(m[1..], loc, x);
      HasCons(m, x);
      HasCons(Put(m, LocationKey(loc), loc), x);
    } else {
      HasCons(Put(m, LocationKey(loc), loc), x);
    }
  }

  predicate Covered(m: OrderedMap<Location>, loc: Location) {
    exists k :: 0 <= k < |m| && Covers(m[k].1, loc)
  }

  lemma UncoveredMeaning(m: OrderedMap<Location>, loc: Location, x: Location)
    requires WellFormed(m) && !Covered(m, loc)
    ensures Has(Insert(m, loc), x) <==> x == loc || (Has(m, x) && x != Location(loc.path, None))
  {
    var bareKey := LocationKey(Location(loc.path, None));
    var left := Delete(m, bareKey);
    UncoveredInsert(m, loc);
    DeleteHas(m, bareKey, x);
    DeleteHas(m, bareKey, loc);
    DeleteKeyed(m, bareKey);
    HasIsLookup(left, loc);
    assert !Has(m, loc);
    PutNewHas(left, loc, x);
    if LocationKey(x) == bareKey { KeyInjective(x, Location(loc.path, None)); }
  }

  /** Main theorem. What one addition does to the set of entries. */
  lemma InsertMeaning(m: OrderedMap<Location>, loc: Location, x: Location)
    requires WellFormed(m)
    ensures Has(Insert(m, loc), x) <==>
            if Covered(m, loc) then Has(m, x) else x == loc || (Has(m, x) && x != Location(loc.path, None))
  {
    if k :| 0 <= k < |m| && Covers(m[k].1, loc) { CoveredInsert(m, loc, k); } else { UncoveredMeaning(m, loc, x); }
  }

  lemma InsertKeepsKeys(m: OrderedMap<Location>, loc: Location)
    requires WellFormed(m) && !Covered(m, loc)
    ensures var after := Insert(m, loc);
            Keyed(after) && forall i :: 0 <= i < |after| ==> after[i].0 == LocationKey(after[i].1)
  {
    var bareKey := LocationKey(Location(loc.path, None));
    var left := Delete(m, bareKey);
    UncoveredInsert(m, loc);
    DeleteHas(m, bareKey, loc);
    DeleteKeyed(m, bareKey);
    PutKeyed(left, LocationKey(loc), loc);
    assert !Has(m, loc);
    HasIsLookup(left, loc);
    PutNewHas(left, loc, loc);
  }

  lemma InsertKeepsWellFormed(m: OrderedMap<Location>, loc: Location)
    requires WellFormed(m)
    ensures WellFormed(Insert(m, loc))
  {
    if k :| 0 <= k < |m| && Covers(m[k].1, loc) {
      CoveredInsert(m, loc, k);
    } else {
      InsertKeepsKeys(m, loc);
      var after := Insert(m, loc);
      forall i, j | 0 <= i < |after| && 0 <= j < |after| && after[i].1.path == after[j].1.path && after[i].1.line.None?
        ensures i == j
      {
        UncoveredMeaning(m, loc, after[i].1);
        UncoveredMeaning(m, loc, after[j].1);
        assert Has(after, after[i].1) && Has(after, after[j].1);
        assert after[i].1 == after[j].1 ==> after[i].0 == after[j].0;
      }
    }
  }

  // ---------------------------------------------------------------- any sequence of additions

  /** Every path and line added, and a bare path if it was never added with a line. */
  predicate Expected(locs: seq<Location>, x: Location) {
    x in locs && (x.line.Some? || forall y :: y in locs && y.path == x.path ==> y.line.None?)
  }

  lemma {:induction false} AllWellFormed(locs: seq<Location>)
    ensures WellFormed(InsertAll([], locs))
  {
    if locs != [] {
      AllWellFormed(locs[..|locs| - 1]);
      InsertKeepsWellFormed(InsertAll([], locs[..|locs| - 1]), locs[|locs| - 1]);
    }
  }

  /** Main theorem. After any additions in any order, the entries are exactly the expected ones. */
  lemma {:induction false} InsertAllIsExpected(locs: seq<Location>, x: Location)
    ensures Has(InsertAll([], locs), x) <==> Expected(locs, x)
    decreases |locs|, 0
  {
    if locs != [] {
      var init, loc := locs[..|locs| - 1], locs[|locs| - 1];
      var m := InsertAll([], init);
      AllWellFormed(init);
      InsertAllIsExpected(init, x);
      InsertMeaning(m, loc, x);
      CoveredIsSeen(init, loc);
      assert locs == init + [loc];
    }
  }

  lemma CoveredIsSeen(init: seq<Location>, loc: Location)
    ensures Covered(InsertAll([], init), loc) <==>
            exists y :: y in init && y.path == loc.path && (loc.line.None? || y.line == loc.line)
    decreases |init|, 1
  {
    var m := InsertAll([], init);
    if k :| 0 <= k < |m| && Covers(m[k].1, loc) {
      assert Has(m, m[k].1);
      InsertAllIsExpected(init, m[k].1);
    }
    if y :| y in init && y.path == loc.path && (loc.line.None? || y.line == loc.line) {
      var kept := if Expected(init, y) then y else LinedTwin(init, y);
      InsertAllIsExpected(init, kept);
      var k :| 0 <= k < |m| && m[k].1 == kept;
    }
  }

  ghost function LinedTwin(locs: seq<Location>, y: Location): (r: Location)
    requires y in locs && !Expected(locs, y)
    ensures r in locs && r.path == y.path && r.line.Some? && y.line.None?
  {
    var z :| z in locs && z.path == y.path && z.line.Some?;
    z
  }

  /** Two runs that add the same locations, in any order and any number of times, end with the same
      entries. */
  lemma OrderDoesNotMatter(a: seq<Location>, b: seq<Location>, x: Location)
    requires forall y :: y in a <==> y in b
    ensures Has(InsertAll([], a), x) <==> Has(InsertAll([], b), x)
  {
    InsertAllIsExpected(a, x);
    InsertAllIsExpected(b, x);
  }
}
