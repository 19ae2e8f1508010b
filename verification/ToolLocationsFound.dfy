/** Which paths the walk finds: those under the path keys of a record, with its line, and those marked
    in texts. */
module ToolLocationsFound {
  import opened Options
  import opened Json
  import opened Text
  import opened ToolLocations
  import opened ToolLocationsMeaning
  import opened ToolLocationsWalk

  // ---------------------------------------------------------------- paths

  /** A path taken as it is. */
  predicate PlainPath(p: string) {
    && p != "" && |p| <= 4096 && (0 as char) !in p && '\r' !in p && '\n' !in p
    && !HasScheme(p, "http://") && !HasScheme(p, "https://") && !HasScheme(p, "file://")
  }

  /** Main theorem. A path is trimmed and otherwise kept; web addresses, blank and overlong texts and
      those with line breaks are none, and a file address gives its path. */
  lemma PathsAre(env: Env, raw: string)
    ensures var t := Trim(raw);
            && (PlainPath(t) ==> NormalizePath(env, raw) == Some(t))
            && ((t == "" || |t| > 4096 || (0 as char) in t || '\r' in t || '\n' in t
                 || HasScheme(t, "http://") || HasScheme(t, "https://")) ==> NormalizePath(env, raw).None?)
            && (!PlainPath(t) && NormalizePath(env, raw).Some? ==>
                  HasScheme(t, "file://") && NormalizePath(env, raw) == env.fileUrlPath(t) != Some(""))
            && (|t| <= 4096 && (0 as char) !in t && '\r' !in t && '\n' !in t && HasScheme(t, "file://")
                && !HasScheme(t, "http://") && !HasScheme(t, "https://") && env.fileUrlPath(t) != Some("") ==>
                  NormalizePath(env, raw) == env.fileUrlPath(t))
  {
    assert HasScheme(Trim(raw), "file://") ==> |Trim(raw)| >= 7;
  }

  /** The line of a record: the first of its line keys that holds a positive number. */
  lemma {:induction false} LineIsFirst(fields: seq<(string, Json)>, keys: seq<string>, k: nat, n: int)
    requires k < |keys| && Field(fields, keys[k]) == Some(Num(n)) && n > 0
    requires forall j :: 0 <= j < k ==> LineOf(Field(fields, keys[j])).None?
    ensures RecordLine(fields, keys) == Some(n)
  {
    if k > 0 {
      LineIsFirst(fields, keys[1..], k - 1, n);
    }
  }

  lemma {:induction false} NoLine(fields: seq<(string, Json)>, keys: seq<string>)
    requires forall k :: 0 <= k < |keys| ==> LineOf(Field(fields, keys[k])).None?
    ensures RecordLine(fields, keys).None?
  {
    if keys != [] { NoLine(fields, keys[1..]); }
  }

  lemma LinesAre(v: Option<Json>)
    ensures LineOf(v) == if v.Some? && v.value.Num? && v.value.n > 0 then Some(v.value.n) else None
  {
  }

  // ---------------------------------------------------------------- nodes

  lemma {:induction false} KeyAdds(env: Env, fields: seq<(string, Json)>, keys: seq<string>, k: nat)
    requires k < |keys|
    ensures forall x :: x in PathAddition(env, fields, keys[k]) ==> x in PathAdditions(env, fields, keys)
  {
    if k < |keys| - 1 { KeyAdds(env, fields, keys[..|keys| - 1], k); }
  }

  lemma {:induction false} MarkerAdds(env: Env, markers: seq<string>, k: nat)
    requires k < |markers|
    ensures forall x :: x in MarkerAddition(env, markers[k]) ==> x in MarkerAdditions(env, markers)
  {
    if k < |markers| - 1 { MarkerAdds(env, markers[..|markers| - 1], k); }
  }

  lemma {:induction false} BlockAdds(env: Env, blocks: seq<Json>, k: nat)
    requires k < |blocks|
    ensures forall x :: x in BlockAdditions(env, blocks[k]) ==> x in ContentAdditions(env, blocks)
  {
    if k < |blocks| - 1 { BlockAdds(env, blocks[..|blocks| - 1], k); }
  }

  /** A record gives the path under each of its path keys, with its line. */
  lemma PathFieldAdds(env: Env, fields: seq<(string, Json)>, k: nat, raw: string)
    requires k < |env.pathKeys| && Field(fields, env.pathKeys[k]) == Some(Str(raw)) && PlainPath(Trim(raw))
    ensures Location(Trim(raw), RecordLine(fields, env.lineKeys)) in NodeAdditions(env, Obj(fields))
  {
    PathsAre(env, raw);
    KeyAdds(env, fields, env.pathKeys, k);
    assert Location(Trim(raw), RecordLine(fields, env.lineKeys)) in PathAddition(env, fields, env.pathKeys[k]);
  }

  lemma MarkedPath(env: Env, text: string, k: nat)
    requires k < |env.markers(text)| && PlainPath(Trim(env.markers(text)[k]))
    ensures Location(Trim(env.markers(text)[k]), None) in MarkerAdditions(env, env.markers(text))
  {
    var marker := env.markers(text)[k];
    TrimTwice(marker);
    PathsAre(env, Trim(marker));
    MarkerAdds(env, env.markers(text), k);
    assert Location(Trim(marker), None) in MarkerAddition(env, marker);
  }

  lemma TrimTwice(s: string)
    ensures Trim(Trim(s)) == Trim(s)
  {
    var a, r := TrimStart(s), Trim(s);
    if r != "" { assert r[0] == a[0]; }
    TrimFixed(r);
  }

  /** A text gives every path marked in it, and so does a text block among a record's contents. */
  lemma TextAdds(env: Env, text: string, k: nat, fields: seq<(string, Json)>, blocks: seq<Json>, b: nat)
    requires k < |env.markers(text)| && PlainPath(Trim(env.markers(text)[k]))
    ensures Location(Trim(env.markers(text)[k]), None) in NodeAdditions(env, Str(text))
    ensures Field(fields, "content") == Some(Arr(blocks)) && b < |blocks| && blocks[b].Obj?
            && Field(blocks[b].fields, "type") == Some(Str("text"))
            && Field(blocks[b].fields, "text") == Some(Str(text))
            ==> Location(Trim(env.markers(text)[k]), None) in NodeAdditions(env, Obj(fields))
  {
    MarkedPath(env, text, k);
    if b < |blocks| { BlockAdds(env, blocks, b); }
  }

  // ---------------------------------------------------------------- the answer

  lemma {:induction false} NodeAdds(env: Env, nodes: seq<Json>, k: nat)
    requires k < |nodes|
    ensures forall x :: x in NodeAdditions(env, nodes[k]) ==> x in AdditionsOf(env, nodes)
  {
    if k < |nodes| - 1 { NodeAdds(env, nodes[..|nodes| - 1], k); }
  }

  lemma {:induction false} ValueAdds(env: Env, values: seq<Json>, i: nat)
    requires i < |values|
    ensures forall x :: x in AdditionsOf(env, Visited(values[i])) ==> x in ExtractAdditions(env, values)
  {
    if i < |values| - 1 { ValueAdds(env, values[..|values| - 1], i); }
  }

  /** Main theorem. What a visited node gives is in the answer: itself if it has a line, and its path with
      or without one otherwise. */
  lemma AdditionIsListed(env: Env, values: seq<Json>, i: nat, node: Json, loc: Location)
    requires i < |values| && node in Visited(values[i]) && loc in NodeAdditions(env, node)
    ensures var r := Extract(env, values).GetOr([]);
            && (loc.line.Some? ==> loc in r)
            && exists x :: x in r && x.path == loc.path
  {
    var k :| 0 <= k < |Visited(values[i])| && Visited(values[i])[k] == node;
    NodeAdds(env, Visited(values[i]), k);
    ValueAdds(env, values, i);
    var adds := ExtractAdditions(env, values);
    ExtractIsExpected(env, values, loc);
    if !Expected(adds, loc) {
      var y :| y in adds && y.path == loc.path && y.line.Some?;
      ExtractIsExpected(env, values, y);
    }
  }

  /** A value itself is visited. */
  lemma ValueIsVisited(v: Json)
    ensures v in Visited(v)
  {
    assert Preorder(v, 0)[0] == v;
    assert Visited(v)[0] == v;
  }

  /** Main theorem. A tool's argument record with a path under one of the path keys and a line has that
      location in the answer. */
  lemma ArgumentPathIsListed(env: Env, values: seq<Json>, i: nat, k: nat, raw: string, l: nat, n: int)
    requires i < |values| && values[i].Obj?
    requires k < |env.pathKeys| && Field(values[i].fields, env.pathKeys[k]) == Some(Str(raw)) && PlainPath(Trim(raw))
    requires l < |env.lineKeys| && Field(values[i].fields, env.lineKeys[l]) == Some(Num(n)) && n > 0
    requires forall j :: 0 <= j < l ==> Field(values[i].fields, env.lineKeys[j]).None?
    ensures Location(Trim(raw), Some(n)) in Extract(env, values).GetOr([])
  {
    LineIsFirst(values[i].fields, env.lineKeys, l, n);
    PathFieldAdds(env, values[i].fields, k, raw);
    ValueIsVisited(values[i]);
    AdditionIsListed(env, values, i, values[i], Location(Trim(raw), Some(n)));
  }

  /** The children visited: the items of an array, and of a record all fields but `content`. */
  lemma ChildrenAre(items: seq<Json>, fields: seq<(string, Json)>, x: Json)
    ensures Children(Arr(items)) == items
    ensures x in Children(Obj(fields)) <==>
              exists k :: 0 <= k < |fields| && fields[k].0 != "content" && fields[k].1 == x
  {
    FieldsAreChildren(fields, x);
  }

  lemma {:induction false} FieldsAreChildren(fields: seq<(string, Json)>, x: Json)
    ensures x in FieldValues(fields) <==>
              exists k :: 0 <= k < |fields| && fields[k].0 != "content" && fields[k].1 == x
  {
    if fields != [] {
      var rest := fields[1..];
      FieldsAreChildren(rest, x);
      if k :| 0 <= k < |rest| && rest[k].0 != "content" && rest[k].1 == x { assert fields[k + 1] == rest[k]; }
      if k :| 0 < k < |fields| && fields[k].0 != "content" && fields[k].1 == x { assert rest[k - 1] == fields[k]; }
    }
  }
}
