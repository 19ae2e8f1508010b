/** Tool-call locations (src/acp/event-mapper.ts): a bounded walk over a tool's arguments or result
    feeds a map that keeps one entry per path and line. */
module ToolLocations {
  import opened Options
  import opened OrderedMaps
  import opened Json
  import opened Text

  const MAX_DEPTH: nat := 4
  const MAX_NODES: nat := 100

  const PATH_KEYS: seq<string> := [
    "path", "filePath", "file_path", "targetPath", "target_path", "targetFile", "target_file",
    "sourcePath", "source_path", "destinationPath", "destination_path", "oldPath", "old_path",
    "newPath", "new_path", "outputPath", "output_path", "inputPath", "input_path"]

  const LINE_KEYS: seq<string> := ["line", "lineNumber", "line_number", "startLine", "start_line"]

  type Line = n: int | n > 0 witness 1

  datatype Location = Location(path: string, line: Option<Line>)

  /** What the results below hold for any choice of: the path of a file URL, the path markers in a
      text, and the keys under which a record holds paths and lines. */
  datatype Env = Env(
    fileUrlPath: string -> Option<string>, markers: string -> seq<string>,
    pathKeys: seq<string>, lineKeys: seq<string>)

  /** The keys the program looks for. */
  function Program(fileUrlPath: string -> Option<string>, markers: string -> seq<string>): Env {
    Env(fileUrlPath, markers, PATH_KEYS, LINE_KEYS)
  }

  // ---------------------------------------------------------------- paths and lines

  predicate HasScheme(s: string, scheme: string) { |scheme| <= |s| && Lower(s[..|scheme|]) == scheme }

  function NormalizePath(env: Env, value: string): Option<string> {
    var t := Trim(value);
    if t == "" || |t| > 4096 || (0 as char) in t || '\r' in t || '\n' in t then None
    else if HasScheme(t, "http://") || HasScheme(t, "https://") then None
    else if HasScheme(t, "file://") then
      var p := env.fileUrlPath(t);
      if p == Some("") then None else p
    else Some(t)
  }

  function LineOf(v: Option<Json>): Option<Line> {
    match v
    case Some(Num(n)) => if n > 0 then Some(n) else None
    case _ => None
  }

  /** The first of the line keys that holds a line. */
  function RecordLine(fields: seq<(string, Json)>, keys: seq<string>): Option<Line> {
    if keys == [] then None
    else
      var line := LineOf(Field(fields, keys[0]));
      if line.Some? then line else RecordLine(fields, keys[1..])
  }

  // ---------------------------------------------------------------- the location map

  function LocationKey(l: Location): string {
    l.path + ":" + if l.line.Some? then Decimal(l.line.value) else ""
  }

  datatype Scanned = Scanned(locations: OrderedMap<Location>, covered: bool)

  /** The loop of `addToolLocation` over the entries from `i` on; `cur` is the map so far. */
  function Scan(
    entries: OrderedMap<Location>, i: nat, cur: OrderedMap<Location>, path: string, line: Option<Line>): Scanned
    requires i <= |entries|
    decreases |entries| - i
  {
    if i == |entries| then Scanned(cur, false)
    else
      var (key, existing) := entries[i];
      if existing.path != path then Scan(entries, i + 1, cur, path, line)
      else if line.None? || existing.line == line then Scanned(cur, true)
      else Scan(entries, i + 1, if existing.line.None? then Delete(cur, key) else cur, path, line)
  }

  /** `addToolLocation` once the path is normalized. */
  function Insert(m: OrderedMap<Location>, loc: Location): OrderedMap<Location> {
    var scanned := Scan(m, 0, m, loc.path, loc.line);
    if scanned.covered || Lookup(scanned.locations, LocationKey(loc)).Some? then scanned.locations
    else Put(scanned.locations, LocationKey(loc), loc)
  }

  function InsertAll(m: OrderedMap<Location>, locs: seq<Location>): OrderedMap<Location> {
    if locs == [] then m else Insert(InsertAll(m, locs[..|locs| - 1]), locs[|locs| - 1])
  }

  // ---------------------------------------------------------------- what one node adds

  function Addition(env: Env, rawPath: string, line: Option<Line>): seq<Location> {
    var path := NormalizePath(env, rawPath);
    if path.None? then [] else [Location(path.value, line)]
  }

  function MarkerAddition(env: Env, marker: string): seq<Location> {
    var candidate := Trim(marker);
    if candidate == "" then [] else Addition(env, candidate, None)
  }

  function MarkerAdditions(env: Env, markers: seq<string>): seq<Location> {
    if markers == [] then []
    else MarkerAdditions(env, markers[..|markers| - 1]) + MarkerAddition(env, markers[|markers| - 1])
  }

  function PathAddition(env: Env, fields: seq<(string, Json)>, key: string): seq<Location> {
    match Field(fields, key)
    case Some(Str(raw)) => Addition(env, raw, RecordLine(fields, env.lineKeys))
    case _ => []
  }

  function PathAdditions(env: Env, fields: seq<(string, Json)>, keys: seq<string>): seq<Location> {
    if keys == [] then []
    else PathAdditions(env, fields, keys[..|keys| - 1]) + PathAddition(env, fields, keys[|keys| - 1])
  }

  /** A content block of type "text". */
  function BlockAdditions(env: Env, block: Json): seq<Location> {
    if block.Obj? && Field(block.fields, "type") == Some(Str("text")) then
      match Field(block.fields, "text")
      case Some(Str(text)) => MarkerAdditions(env, env.markers(text))
      case _ => []
    else []
  }

  function ContentAdditions(env: Env, blocks: seq<Json>): seq<Location> {
    if blocks == [] then []
    else ContentAdditions(env, blocks[..|blocks| - 1]) + BlockAdditions(env, blocks[|blocks| - 1])
  }

  /** The locations one visited node contributes by itself. */
  function NodeAdditions(env: Env, v: Json): seq<Location> {
    match v
    case Str(text) => MarkerAdditions(env, env.markers(text))
    case Obj(fields) =>
      PathAdditions(env, fields, env.pathKeys)
      + (match Field(fields, "content") case Some(Arr(blocks)) => ContentAdditions(env, blocks) case _ => [])
    case _ => []
  }

  function AdditionsOf(env: Env, nodes: seq<Json>): seq<Location> {
    if nodes == [] then []
    else AdditionsOf(env, nodes[..|nodes| - 1]) + NodeAdditions(env, nodes[|nodes| - 1])
  }

  // ---------------------------------------------------------------- the walk

  /** The values below a node, in the order they are visited: `content` was read already. */
  function Children(v: Json): seq<Json> {
    match v
    case Arr(items) => items
    case Obj(fields) => FieldValues(fields)
    case _ => []
  }

  function FieldValues(fields: seq<(string, Json)>): seq<Json> {
    if fields == [] then []
    else (if fields[0].0 == "content" then [] else [fields[0].1]) + FieldValues(fields[1..])
  }

  function DepthLeft(depth: nat): nat { if depth > MAX_DEPTH then 0 else MAX_DEPTH + 1 - depth }

  /** All nodes down to the depth limit, parents before children. */
  function Preorder(v: Json, depth: nat): seq<Json>
    decreases DepthLeft(depth), 0
  {
    if depth > MAX_DEPTH then [] else [v] + PreorderAll(Children(v), depth + 1)
  }

  function PreorderAll(vs: seq<Json>, depth: nat): seq<Json>
    decreases DepthLeft(depth), 1, |vs|
  {
    if vs == [] then [] else Preorder(vs[0], depth) + PreorderAll(vs[1..], depth)
  }

  function Take(s: seq<Json>, n: nat): seq<Json> { if n < |s| then s[..n] else s }

  /** The nodes one value visits: each value starts with a fresh budget. */
  function Visited(v: Json): seq<Json> { Take(Preorder(v, 0), MAX_NODES) }

  function ExtractAdditions(env: Env, values: seq<Json>): seq<Location> {
    if values == [] then []
    else ExtractAdditions(env, values[..|values| - 1]) + AdditionsOf(env, Visited(values[|values| - 1]))
  }

  /** The entries' values, in insertion order. */
  function Values(m: OrderedMap<Location>): seq<Location> { seq(|m|, i requires 0 <= i < |m| => m[i].1) }

  /** `extractToolCallLocations`: `None` when nothing was found. */
  function Extract(env: Env, values: seq<Json>): Option<seq<Location>> {
    var m := InsertAll([], ExtractAdditions(env, values));
    if m == [] then None else Some(Values(m))
  }
}
