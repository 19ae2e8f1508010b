/** The bounded walk visits the first 100 nodes in preorder, none deeper than 4, and the collector
    object adds exactly what those nodes contribute. */
module ToolLocationsWalk {
  import opened Options
  import opened OrderedMaps
  import opened Json
  import opened Text
  import opened ToolLocations
  import opened ToolLocationsMeaning
  import Sequences

  // ---------------------------------------------------------------- which nodes

  /** `node` lies at most `levels` levels below `v`. */
  predicate Within(v: Json, node: Json, levels: nat)
    decreases levels, 0
  {
    node == v || (levels > 0 && WithinAny(Children(v), node, levels - 1))
  }

  predicate WithinAny(vs: seq<Json>, node: Json, levels: nat)
    decreases levels, 1, |vs|
  {
    vs != [] && (Within(vs[0], node, levels) || WithinAny(vs[1..], node, levels))
  }

  /** Without the node budget the walk would visit exactly the nodes of depth at most 4. */
  lemma {:induction false} PreorderReaches(v: Json, depth: nat, node: Json)
    requires depth <= MAX_DEPTH
    ensures node in Preorder(v, depth) <==> Within(v, node, MAX_DEPTH - depth)
    decreases DepthLeft(depth), 0
  {
    if depth < MAX_DEPTH {
      PreorderAllReaches(Children(v), depth + 1, node);
    } else {
      NothingBelow(Children(v));
    }
  }

  lemma {:induction false} PreorderAllReaches(vs: seq<Json>, depth: nat, node: Json)
    requires depth <= MAX_DEPTH
    ensures node in PreorderAll(vs, depth) <==> WithinAny(vs, node, MAX_DEPTH - depth)
    decreases DepthLeft(depth), 1, |vs|
  {
    if vs != [] {
      PreorderReaches(vs[0], depth, node);
      PreorderAllReaches(vs[1..], depth, node);
    }
  }

  lemma {:induction false} NothingBelow(vs: seq<Json>)
    ensures PreorderAll(vs, MAX_DEPTH + 1) == []
  {
    if vs != [] { NothingBelow(vs[1..]); }
  }

  /** Main theorem. At most 100 nodes are visited, none deeper than 4; when the whole tree fits the
      budget, every node of depth at most 4 is visited. */
  lemma VisitedIsBounded(v: Json, node: Json)
    ensures |Visited(v)| <= 100
    ensures node in Visited(v) ==> Within(v, node, 4)
    ensures |Preorder(v, 0)| <= 100 ==> (node in Visited(v) <==> Within(v, node, 4))
  {
    PreorderReaches(v, 0, node);
    assert node in Visited(v) ==> node in Preorder(v, 0);
  }

  // ---------------------------------------------------------------- splitting the budget

  lemma TakeAppend(a: seq<Json>, b: seq<Json>, n: nat)
    ensures Take(a + b, n) == Take(a, n) + Take(b, n - |Take(a, n)|)
  {
  }

  lemma {:induction false} AdditionsAppend(env: Env, a: seq<Json>, b: seq<Json>)
    ensures AdditionsOf(env, a + b) == AdditionsOf(env, a) + AdditionsOf(env, b)
  {
    if b == [] {
      assert a + b == a;
    } else {
      var init, last := b[..|b| - 1], b[|b| - 1];
      assert (a + b)[..|a + b| - 1] == a + init && (a + b)[|a + b| - 1] == last;
      AdditionsAppend(env, a, init);
      Sequences.AppendAssociative(AdditionsOf(env, a), AdditionsOf(env, init), NodeAdditions(env, last));
    }
  }

  lemma {:induction false} InsertAppend(m: OrderedMap<Location>, a: seq<Location>, b: seq<Location>)
    ensures InsertAll(m, a + b) == InsertAll(InsertAll(m, a), b)
  {
    if b == [] {
      assert a + b == a;
    } else {
      assert (a + b)[..|a + b| - 1] == a + b[..|b| - 1];
      InsertAppend(m, a, b[..|b| - 1]);
    }
  }

  // ---------------------------------------------------------------- the collector

  class LocationCollector {
    const env: Env
    var locations: OrderedMap<Location>
    var visited: nat

    constructor (env: Env)
      ensures this.env == env && locations == [] && visited == 0
    {
      this.env, locations, visited := env, [], 0;
    }

    method AddToolLocation(rawPath: string, line: Option<Line>)
      modifies this`locations
      ensures locations == InsertAll(old(locations), Addition(env, rawPath, line))
    {
      var path := NormalizePath(env, rawPath);
      if path.None? {
        return;
      }
      var loc := Location(path.value, line);
      SingleInsert(locations, loc);
      var entries := locations;
      for n := 0 to |entries|
        invariant Scan(entries, 0, entries, loc.path, line) == Scan(entries, n, locations, loc.path, line)
      {
        var (existingKey, existing) := entries[n];
        if existing.path != loc.path {
          continue;
        }
        if line.None? || existing.line == line {
          return;
        }
        if existing.line.None? {
          locations := Delete(locations, existingKey);
        }
      }
      if Lookup(locations, LocationKey(loc)).Some? {
        return;
      }
      locations := Put(locations, LocationKey(loc), loc);
    }

    method AddMarker(marker: string)
      modifies this`locations
      ensures locations == InsertAll(old(locations), MarkerAddition(env, marker))
    {
      var candidate := Trim(marker);
      if candidate != "" {
        AddToolLocation(candidate, None);
      }
    }

    method CollectLocationsFromTextMarkers(text: string)
      modifies this`locations
      ensures locations == InsertAll(old(locations), MarkerAdditions(env, env.markers(text)))
    {
      var markers := env.markers(text);
      for n := 0 to |markers|
        invariant locations == InsertAll(old(locations), MarkerAdditions(env, markers[..n]))
      {
        MarkersNext(env, old(locations), markers, n);
        AddMarker(markers[n]);
      }
      assert markers[..|markers|] == markers;
    }

    method AddPath(fields: seq<(string, Json)>, key: string)
      modifies this`locations
      ensures locations == InsertAll(old(locations), PathAddition(env, fields, key))
    {
      match Field(fields, key)
      case Some(Str(rawPath)) => AddToolLocation(rawPath, RecordLine(fields, env.lineKeys));
      case _ =>
    }

    method AddRecordPaths(fields: seq<(string, Json)>, keys: seq<string>)
      modifies this`locations
      ensures locations == InsertAll(old(locations), PathAdditions(env, fields, keys))
    {
      for n := 0 to |keys|
        invariant locations == InsertAll(old(locations), PathAdditions(env, fields, keys[..n]))
      {
        PathsNext(env, old(locations), fields, keys, n);
        AddPath(fields, keys[n]);
      }
      assert keys[..|keys|] == keys;
    }

    method AddBlock(block: Json)
      modifies this`locations
      ensures locations == InsertAll(old(locations), BlockAdditions(env, block))
    {
      if block.Obj? && Field(block.fields, "type") == Some(Str("text")) {
        match Field(block.fields, "text")
        case Some(Str(text)) => CollectLocationsFromTextMarkers(text);
        case _ =>
      }
    }

    method AddContent(blocks: seq<Json>)
      modifies this`locations
      ensures locations == InsertAll(old(locations), ContentAdditions(env, blocks))
    {
      for n := 0 to |blocks|
        invariant locations == InsertAll(old(locations), ContentAdditions(env, blocks[..n]))
      {
        BlocksNext(env, old(locations), blocks, n);
        AddBlock(blocks[n]);
      }
      assert blocks[..|blocks|] == blocks;
    }

    /** `collectToolLocations` on one value. */
    method CollectToolLocations(value: Json, depth: nat)
      requires visited <= MAX_NODES
      modifies this`locations, this`visited
      ensures Collected(env, old(locations), old(visited), Preorder(value, depth), locations, visited)
      ensures visited <= MAX_NODES
      decreases DepthLeft(depth), 0
    {
      ghost var m, spent := locations, visited;
      if visited >= MAX_NODES || depth > MAX_DEPTH {
        NotVisited(env, m, spent, value, depth);
        return;
      }
      visited := visited + 1;
      AddNode(value);
      CollectChildren(Children(value), depth + 1);
      NodeThenChildren(env, m, spent, value, depth, locations, visited);
    }

    /** What a node adds by itself. */
    method AddNode(value: Json)
      modifies this`locations
      ensures locations == InsertAll(old(locations), NodeAdditions(env, value))
    {
      match value
      case Str(text) => CollectLocationsFromTextMarkers(text);
      case Obj(fields) =>
        AddRecordPaths(fields, env.pathKeys);
        match Field(fields, "content") {
          case Some(Arr(blocks)) =>
            InsertAppend(old(locations), PathAdditions(env, fields, env.pathKeys), ContentAdditions(env, blocks));
            AddContent(blocks);
          case _ => assert PathAdditions(env, fields, env.pathKeys) + [] == PathAdditions(env, fields, env.pathKeys);
        }
      case _ =>
    }

    /** The loop over a node's children, which stops when the budget is used up. */
    method CollectChildren(values: seq<Json>, depth: nat)
      requires visited <= MAX_NODES
      modifies this`locations, this`visited
      ensures Collected(env, old(locations), old(visited), PreorderAll(values, depth), locations, visited)
      ensures visited <= MAX_NODES
      decreases DepthLeft(depth), 1, |values|
    {
      if values == [] {
        NothingCollected(env, locations, visited, PreorderAll(values, depth));
        return;
      }
      CollectToolLocations(values[0], depth);
      label first:
      if visited >= MAX_NODES {
        NothingCollected(env, locations, visited, PreorderAll(values[1..], depth));
      } else {
        CollectChildren(values[1..], depth);
      }
      OneThenOthers(env, old(locations), old(visited), Preorder(values[0], depth), old@first(locations),
                    old@first(visited), PreorderAll(values[1..], depth), locations, visited);
    }
  }

  /** From `m` and `visited` on, the nodes the budget still allows were visited and contributed. */
  ghost predicate Collected(
    env: Env, m: OrderedMap<Location>, visited: nat, nodes: seq<Json>, after: OrderedMap<Location>, visitedAfter: nat)
  {
    visited <= MAX_NODES
    && var taken := Take(nodes, MAX_NODES - visited);
       visitedAfter == visited + |taken| && after == InsertAll(m, AdditionsOf(env, taken))
  }

  lemma NothingCollected(env: Env, m: OrderedMap<Location>, visited: nat, nodes: seq<Json>)
    requires nodes == [] || visited == MAX_NODES
    requires visited <= MAX_NODES
    ensures Collected(env, m, visited, nodes, m, visited)
  {
  }

  lemma NotVisited(env: Env, m: OrderedMap<Location>, visited: nat, value: Json, depth: nat)
    requires visited == MAX_NODES || (depth > MAX_DEPTH && visited <= MAX_NODES)
    ensures Collected(env, m, visited, Preorder(value, depth), m, visited)
  {
    NothingCollected(env, m, visited, Preorder(value, depth));
  }

  lemma OneThenOthers(
    env: Env, m: OrderedMap<Location>, visited: nat, a: seq<Json>, m1: OrderedMap<Location>, visited1: nat,
    b: seq<Json>, m2: OrderedMap<Location>, visited2: nat)
    requires Collected(env, m, visited, a, m1, visited1) && Collected(env, m1, visited1, b, m2, visited2)
    ensures Collected(env, m, visited, a + b, m2, visited2)
  {
    var budget := MAX_NODES - visited;
    var first := Take(a, budget);
    var second := Take(b, budget - |first|);
    assert MAX_NODES - visited1 == budget - |first|;
    TakeAppend(a, b, budget);
    assert Take(a + b, budget) == first + second;
    AdditionsAppend(env, first, second);
    InsertAppend(m, AdditionsOf(env, first), AdditionsOf(env, second));
  }

  lemma NodeThenChildren(
    env: Env, m: OrderedMap<Location>, visited: nat, value: Json, depth: nat,
    after: OrderedMap<Location>, visitedAfter: nat)
    requires visited < MAX_NODES && depth <= MAX_DEPTH
    requires Collected(env, InsertAll(m, NodeAdditions(env, value)), visited + 1,
                       PreorderAll(Children(value), depth + 1), after, visitedAfter)
    ensures Collected(env, m, visited, Preorder(value, depth), after, visitedAfter)
  {
    SingleNode(env, value);
    assert Collected(env, m, visited, [value], InsertAll(m, NodeAdditions(env, value)), visited + 1);
    OneThenOthers(env, m, visited, [value], InsertAll(m, NodeAdditions(env, value)), visited + 1,
                  PreorderAll(Children(value), depth + 1), after, visitedAfter);
  }

  lemma MarkersNext(env: Env, m: OrderedMap<Location>, markers: seq<string>, n: nat)
    requires n < |markers|
    ensures InsertAll(m, MarkerAdditions(env, markers[..n + 1]))
         == InsertAll(InsertAll(m, MarkerAdditions(env, markers[..n])), MarkerAddition(env, markers[n]))
  {
    assert markers[..n + 1][..n] == markers[..n];
    InsertAppend(m, MarkerAdditions(env, markers[..n]), MarkerAddition(env, markers[n]));
  }

  lemma PathsNext(env: Env, m: OrderedMap<Location>, fields: seq<(string, Json)>, keys: seq<string>, n: nat)
    requires n < |keys|
    ensures InsertAll(m, PathAdditions(env, fields, keys[..n + 1]))
         == InsertAll(InsertAll(m, PathAdditions(env, fields, keys[..n])), PathAddition(env, fields, keys[n]))
  {
    assert keys[..n + 1][..n] == keys[..n];
    InsertAppend(m, PathAdditions(env, fields, keys[..n]), PathAddition(env, fields, keys[n]));
  }

  lemma BlocksNext(env: Env, m: OrderedMap<Location>, blocks: seq<Json>, n: nat)
    requires n < |blocks|
    ensures InsertAll(m, ContentAdditions(env, blocks[..n + 1]))
         == InsertAll(InsertAll(m, ContentAdditions(env, blocks[..n])), BlockAdditions(env, blocks[n]))
  {
    assert blocks[..n + 1][..n] == blocks[..n];
    InsertAppend(m, ContentAdditions(env, blocks[..n]), BlockAdditions(env, blocks[n]));
  }

  lemma SingleInsert(m: OrderedMap<Location>, loc: Location)
    ensures InsertAll(m, [loc]) == Insert(m, loc)
  {
    assert [loc][..0] == [];
  }

  lemma SingleNode(env: Env, v: Json)
    ensures AdditionsOf(env, [v]) == NodeAdditions(env, v)
  {
    assert [v][..0] == [] && [] + NodeAdditions(env, v) == NodeAdditions(env, v);
  }

  lemma ValuesNext(env: Env, values: seq<Json>, n: nat)
    requires n < |values|
    ensures InsertAll([], ExtractAdditions(env, values[..n + 1]))
         == InsertAll(InsertAll([], ExtractAdditions(env, values[..n])), AdditionsOf(env, Visited(values[n])))
  {
    ExtractSnoc(env, values, n);
    InsertAppend([], ExtractAdditions(env, values[..n]), AdditionsOf(env, Visited(values[n])));
  }

  lemma ExtractSnoc(env: Env, values: seq<Json>, n: nat)
    requires n < |values|
    ensures ExtractAdditions(env, values[..n + 1])
         == ExtractAdditions(env, values[..n]) + AdditionsOf(env, Visited(values[n]))
  {
    assert values[..n + 1][..n] == values[..n];
  }

  /** `extractToolCallLocations`. */
  method ExtractToolCallLocations(
    fileUrlPath: string -> Option<string>, markers: string -> seq<string>, values: seq<Json>)
    returns (r: Option<seq<Location>>)
    ensures r == Extract(Program(fileUrlPath, markers), values)
  {
    var env := Program(fileUrlPath, markers);
    var collector := new LocationCollector(env);
    for n := 0 to |values|
      invariant collector.env == env
      invariant collector.locations == InsertAll([], ExtractAdditions(env, values[..n]))
    {
      ValuesNext(env, values, n);
      collector.visited := 0;
      collector.CollectToolLocations(values[n], 0);
    }
    assert values[..|values|] == values;
    r := if |collector.locations| > 0 then Some(Values(collector.locations)) else None;
  }

  /** Main theorem. The answer lists, once each, exactly the expected locations of the visited nodes. */
  lemma ExtractIsExpected(env: Env, values: seq<Json>, x: Location)
    ensures var r := Extract(env, values).GetOr([]);
            && (x in r <==> Expected(ExtractAdditions(env, values), x))
            && (forall i, j :: 0 <= i < j < |r| ==> r[i] != r[j])
    ensures Extract(env, values).None? <==> ExtractAdditions(env, values) == []
  {
    var adds := ExtractAdditions(env, values);
    var m := InsertAll([], adds);
    AllWellFormed(adds);
    InsertAllIsExpected(adds, x);
    if Has(m, x) {
      var i :| 0 <= i < |m| && m[i].1 == x;
      assert Values(m)[i] == x;
    }
    if adds != [] {
      var kept := if Expected(adds, adds[0]) then adds[0] else LinedTwin(adds, adds[0]);
      InsertAllIsExpected(adds, kept);
    }
  }
}
