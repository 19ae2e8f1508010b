/** `session/list`: cursor pagination over a gateway that only serves prefixes
    (src/acp/translator.ts). */
module SessionListing {
  import opened Options
  import opened Json
  import opened Text

  const MAX_PAGE_SIZE: nat := 100
  const MAX_CURSOR_OFFSET: nat := 10_000
  const MAX_FETCH_LIMIT: nat := MAX_CURSOR_OFFSET + MAX_PAGE_SIZE + 1

  /** A gateway session row, as far as listing looks at it. */
  datatype Row = Row(key: string, spawnedCwd: Option<string>, spawnedWorkspaceDir: Option<string>)

  /** `path.isAbsolute`, and base64url of the UTF-8 JSON text with its inverse. */
  datatype Env = Env(isAbsolute: string -> bool, toText: Json -> string, fromText: string -> Option<Json>)

  datatype ListError =
    | RelativeCwd | InvalidCursor | UnsupportedCursor | InvalidOffset | CursorCwdMismatch

  datatype Result<T> = Ok(value: T) | Err(error: ListError)

  datatype Cursor = Cursor(offset: nat, cwd: Option<string>)

  datatype Page = Page(sessions: seq<Row>, nextCursor: Option<string>)

  /** Base64url text has no white space and is never empty; decoding undoes encoding. */
  ghost predicate TextLaws(env: Env) {
    forall j :: env.fromText(env.toText(j)) == Some(j) && Trim(env.toText(j)) == env.toText(j) != ""
  }

  /** `normalizeOptionalString`. */
  function Normalize(s: Option<string>): Option<string> {
    if s.None? || Trim(s.value) == "" then None else Some(Trim(s.value))
  }

  function PageSize(limit: Option<int>): (n: nat)
    ensures 1 <= n <= MAX_PAGE_SIZE
  {
    if limit.None? then 100
    else if limit.value < 1 then 1
    else if limit.value > MAX_PAGE_SIZE then MAX_PAGE_SIZE
    else limit.value
  }

  // ---------------------------------------------------------------- cursors

  function CursorFields(c: Cursor): seq<(string, Json)> {
    [("v", Num(1)), ("offset", Num(c.offset))] + (if c.cwd.Some? then [("cwd", Str(c.cwd.value))] else [])
  }

  function EncodeCursor(env: Env, c: Cursor): string { env.toText(Obj(CursorFields(c))) }

  function DecodeFields(record: seq<(string, Json)>): Result<Cursor> {
    if Field(record, "v") != Some(Num(1)) then Err(UnsupportedCursor)
    else
      match Field(record, "offset")
      case Some(Num(offset)) =>
        if offset < 0 || offset > MAX_CURSOR_OFFSET then Err(InvalidOffset)
        else
          Ok(Cursor(offset, Normalize(match Field(record, "cwd") { case Some(Str(s)) => Some(s) case _ => None })))
      case _ => Err(InvalidOffset)
  }

  function DecodeCursor(env: Env, value: Option<string>): Result<Cursor> {
    if value.None? || value.value == "" then Ok(Cursor(0, None))
    else
      var parsed := env.fromText(value.value);
      if parsed.None? || !parsed.value.Obj? then Err(InvalidCursor)
      else DecodeFields(parsed.value.fields)
  }

  lemma FieldsRoundTrip(c: Cursor)
    requires Normalize(c.cwd) == c.cwd
    ensures DecodeFields(CursorFields(c)) == if c.offset <= MAX_CURSOR_OFFSET then Ok(c) else Err(InvalidOffset)
  {
    var fields := CursorFields(c);
    FieldFound(fields, 0);
    FieldFound(fields, 1);
    if c.cwd.Some? { FieldFound(fields, 2); } else { FieldMissing(fields, "cwd"); }
  }

  /** A cursor comes back exactly when its offset is at most 10,000; beyond, it was issued in vain. */
  lemma CursorRoundTrip(env: Env, c: Cursor)
    requires TextLaws(env) && Normalize(c.cwd) == c.cwd
    ensures Normalize(Some(EncodeCursor(env, c))) == Some(EncodeCursor(env, c))
    ensures DecodeCursor(env, Some(EncodeCursor(env, c)))
            == if c.offset <= MAX_CURSOR_OFFSET then Ok(c) else Err(InvalidOffset)
  {
    FieldsRoundTrip(c);
    assert env.fromText(env.toText(Obj(CursorFields(c)))) == Some(Obj(CursorFields(c)));
  }

  // ---------------------------------------------------------------- filtering

  predicate Matches(row: Row, cwd: Option<string>) {
    cwd.None? ||
    (if Normalize(row.spawnedCwd).Some? then Normalize(row.spawnedCwd)
     else Normalize(row.spawnedWorkspaceDir)) == cwd
  }

  function Filter(rows: seq<Row>, cwd: Option<string>): (r: seq<Row>)
    ensures |r| <= |rows|
  {
    if rows == [] then []
    else
      var last := rows[|rows| - 1];
      Filter(rows[..|rows| - 1], cwd) + (if Matches(last, cwd) then [last] else [])
  }

  function Min(a: nat, b: nat): nat { if a < b then a else b }

  /** `rows.slice(start, end)`. */
  function Slice<T>(rows: seq<T>, start: nat, end: nat): seq<T>
    requires start <= end
  {
    rows[Min(start, |rows|)..Min(end, |rows|)]
  }

  /** A fixed list served by prefixes: the first `limit` rows, and whether there are more. */
  function FirstRows(all: seq<Row>, limit: nat): seq<Row> { all[..Min(limit, |all|)] }

  ghost predicate ServesPrefixes(gateway: nat -> (seq<Row>, bool), all: seq<Row>) {
    forall limit: nat :: gateway(limit) == (FirstRows(all, limit), limit < |all|)
  }

  lemma {:induction false} FilterPrefix(rows: seq<Row>, n: nat, cwd: Option<string>)
    requires n <= |rows|
    ensures Filter(rows[..n], cwd) <= Filter(rows, cwd)
    decreases |rows|
  {
    if n < |rows| {
      FilterPrefix(rows[..|rows| - 1], n, cwd);
      assert rows[..|rows| - 1][..n] == rows[..n];
    } else {
      assert rows[..n] == rows;
    }
  }

  /** The directory a row counts for: where it was spawned, else its workspace; blank counts as none. */
  function DirOf(row: Row): Option<string> {
    if row.spawnedCwd.Some? && Trim(row.spawnedCwd.value) != "" then Some(Trim(row.spawnedCwd.value))
    else if row.spawnedWorkspaceDir.Some? && Trim(row.spawnedWorkspaceDir.value) != ""
    then Some(Trim(row.spawnedWorkspaceDir.value)) else None
  }

  /** Main theorem. Without a directory every row is listed, with one exactly the rows of that directory;
      rows keep their order and number. */
  lemma {:induction false} FilterSelects(rows: seq<Row>, cwd: Option<string>, row: Row)
    ensures multiset(Filter(rows, cwd))[row]
         == if cwd.None? || DirOf(row) == cwd then multiset(rows)[row] else 0
  {
    if rows != [] {
      var init, last := rows[..|rows| - 1], rows[|rows| - 1];
      FilterSelects(init, cwd, row);
      assert rows == init + [last];
    }
  }

  lemma {:induction false} FilterAppend(a: seq<Row>, b: seq<Row>, cwd: Option<string>)
    ensures Filter(a + b, cwd) == Filter(a, cwd) + Filter(b, cwd)
  {
    if b == [] {
      assert a + b == a;
    } else {
      FilterAppend(a, b[..|b| - 1], cwd);
      assert (a + b)[..|a + b| - 1] == a + b[..|b| - 1];
    }
  }

  /** A page has the size asked for, from 1 to 100, and 100 unless asked. */
  lemma PageSizeIs(n: int)
    ensures PageSize(None) == 100 && PageSize(Some(n)) == if n < 1 then 1 else if n > 100 then 100 else n
  {
  }

  /** The matching rows within reach: the first 10,101 rows of the list, filtered. */
  function Reachable(all: seq<Row>, cwd: Option<string>): seq<Row> {
    Filter(FirstRows(all, MAX_FETCH_LIMIT), cwd)
  }

  // ---------------------------------------------------------------- one page

  /** The doubling fetch loop. However far it goes, it yields the page a single fetch of the
      maximum size would, and it never asks for more than the maximum. */
  method FetchPage(gateway: nat -> (seq<Row>, bool), ghost all: seq<Row>, cwd: Option<string>, start: nat, end: nat)
    returns (page: seq<Row>, hasMore: bool)
    requires start <= end < MAX_FETCH_LIMIT
    requires ServesPrefixes(gateway, all)
    ensures page == Slice(Reachable(all, cwd), start, end)
    ensures hasMore <==> |Reachable(all, cwd)| > end
  {
    var fetchLimit := end + 1;
    var rows: seq<Row>;
    while true
      invariant end + 1 <= fetchLimit <= MAX_FETCH_LIMIT
      decreases MAX_FETCH_LIMIT - fetchLimit
    {
      var (sessions, more) := gateway(fetchLimit);
      rows := Filter(sessions, cwd);
      ghost var reach := FirstRows(all, MAX_FETCH_LIMIT);
      assert sessions == reach[..|sessions|];
      FilterPrefix(reach, |sessions|, cwd);
      if |rows| > end || !more || fetchLimit >= MAX_FETCH_LIMIT {
        break;
      }
      fetchLimit := if fetchLimit * 2 < MAX_FETCH_LIMIT then fetchLimit * 2 else MAX_FETCH_LIMIT;
    }
    page := Slice(rows, start, end);
    hasMore := |rows| > end;
  }

  lemma SliceOfPrefix<T>(near: seq<T>, far: seq<T>, start: nat, end: nat)
    requires near <= far && start < end
    ensures Slice(near, start, end) == Slice(far, start, end)
            <==> |near| >= Min(end, |far|) || start >= |far|
  {
    if |near| < Min(end, |far|) && start < |far| {
      assert |Slice(near, start, end)| < |Slice(far, start, end)|;
    }
  }

  /** That page is the true slice of the whole filtered list exactly when the rows within reach go
      as far as the slice does. */
  lemma PageIsTrueSlice(all: seq<Row>, cwd: Option<string>, start: nat, end: nat)
    requires start < end
    ensures Slice(Reachable(all, cwd), start, end) == Slice(Filter(all, cwd), start, end)
            <==> |Reachable(all, cwd)| >= Min(end, |Filter(all, cwd)|) || start >= |Filter(all, cwd)|
  {
    FilterPrefix(all, Min(MAX_FETCH_LIMIT, |all|), cwd);
    SliceOfPrefix(Reachable(all, cwd), Filter(all, cwd), start, end);
  }

  /** A list that fits the fetch limit is always paged truly. */
  lemma ShortListsAreExact(all: seq<Row>, cwd: Option<string>)
    requires |all| <= MAX_FETCH_LIMIT
    ensures Reachable(all, cwd) == Filter(all, cwd)
  {
    assert FirstRows(all, MAX_FETCH_LIMIT) == all;
  }

  /** The page of `rows` at an offset, and the cursor for the next one when there is one. */
  function PageOf(rows: seq<Row>, cursorAt: nat -> string, offset: nat, limit: Option<int>): Page {
    var end := offset + PageSize(limit);
    Page(Slice(rows, offset, end), if |rows| > end then Some(cursorAt(end)) else None)
  }

  function CursorAt(env: Env, cwd: Option<string>): nat -> string {
    (offset: nat) => EncodeCursor(env, Cursor(offset, cwd))
  }

  /** The checks before any fetch: the filter and the offset to serve. */
  function Resolve(env: Env, cwd: Option<string>, rawCursor: Option<string>): Result<nat> {
    if cwd.Some? && !env.isAbsolute(cwd.value) then Err(RelativeCwd)
    else
      match DecodeCursor(env, rawCursor)
      case Err(e) => Err(e)
      case Ok(cursor) => if rawCursor.Some? && cursor.cwd != cwd then Err(CursorCwdMismatch) else Ok(cursor.offset)
  }

  /** `session/list` with normalized parameters. */
  function ListSpec(
    env: Env, all: seq<Row>, cwd: Option<string>, rawCursor: Option<string>, limit: Option<int>): Result<Page> {
    match Resolve(env, cwd, rawCursor)
    case Err(e) => Err(e)
    case Ok(offset) => Ok(PageOf(Reachable(all, cwd), CursorAt(env, cwd), offset, limit))
  }

  /** Main theorem. A directory must be absolute. A cursor must decode to an object of version 1 with an
      offset from 0 to 10,000, made for the same directory; each failing has its own error, in that order. */
  lemma RequestsChecked(env: Env, cwd: Option<string>, value: string, fields: seq<(string, Json)>)
    requires value != ""
    ensures cwd.Some? && !env.isAbsolute(cwd.value) ==>
              Resolve(env, cwd, Some(value)) == Err(RelativeCwd) == Resolve(env, cwd, None)
    ensures cwd.None? || env.isAbsolute(cwd.value) ==>
              && Resolve(env, cwd, None) == Ok(0)
              && (env.fromText(value).None? || !env.fromText(value).value.Obj? ==>
                    Resolve(env, cwd, Some(value)) == Err(InvalidCursor))
              && (env.fromText(value) == Some(Obj(fields)) ==>
                    Resolve(env, cwd, Some(value)) == CheckedFields(cwd, fields))
  {
  }

  /** The checks on a decoded cursor. */
  function CheckedFields(cwd: Option<string>, fields: seq<(string, Json)>): Result<nat> {
    var offset, dir := Field(fields, "offset"), Field(fields, "cwd");
    if Field(fields, "v") != Some(Num(1)) then Err(UnsupportedCursor)
    else if offset.None? || !offset.value.Num? || offset.value.n < 0 || offset.value.n > 10_000 then Err(InvalidOffset)
    else if cwd != (if dir.Some? && dir.value.Str? && Trim(dir.value.s) != "" then Some(Trim(dir.value.s)) else None)
    then Err(CursorCwdMismatch)
    else Ok(offset.value.n)
  }

  method ResolveRequest(env: Env, cwd: Option<string>, rawCursor: Option<string>) returns (r: Result<nat>)
    ensures r == Resolve(env, cwd, rawCursor)
    ensures r.Ok? ==> r.value <= MAX_CURSOR_OFFSET
  {
    if cwd.Some? && !env.isAbsolute(cwd.value) {
      return Err(RelativeCwd);
    }
    var decoded := DecodeCursor(env, rawCursor);
    if decoded.Err? {
      return Err(decoded.error);
    }
    if rawCursor.Some? && decoded.value.cwd != cwd {
      return Err(CursorCwdMismatch);
    }
    return Ok(decoded.value.offset);
  }

  method ListSessions(
    env: Env, gateway: nat -> (seq<Row>, bool), ghost all: seq<Row>,
    cwdParam: Option<string>, cursorParam: Option<string>, limit: Option<int>)
    returns (r: Result<Page>)
    requires ServesPrefixes(gateway, all)
    ensures r == ListSpec(env, all, Normalize(cwdParam), Normalize(cursorParam), limit)
  {
    var requestedCwd, rawCursor := Normalize(cwdParam), Normalize(cursorParam);
    var start := ResolveRequest(env, requestedCwd, rawCursor);
    if start.Err? {
      return Err(start.error);
    }
    var page := PageFrom(env, gateway, all, requestedCwd, start.value, limit);
    return Ok(page);
  }

  /** The page at an accepted offset, with the cursor for the next one. */
  method PageFrom(
    env: Env, gateway: nat -> (seq<Row>, bool), ghost all: seq<Row>,
    cwd: Option<string>, offset: nat, limit: Option<int>)
    returns (page: Page)
    requires ServesPrefixes(gateway, all) && offset <= MAX_CURSOR_OFFSET
    ensures page == PageOf(Reachable(all, cwd), CursorAt(env, cwd), offset, limit)
  {
    var end := offset + PageSize(limit);
    var sessions, hasMore := FetchPage(gateway, all, cwd, offset, end);
    page := Page(sessions, if hasMore then Some(EncodeCursor(env, Cursor(end, cwd))) else None);
  }

  // ---------------------------------------------------------------- following cursors

  datatype Outcome = Finished | Stopped(next: Option<string>) | Failed(error: ListError)

  /** A listing service with its other parameters fixed. */
  type Service = (Option<string>, Option<int>) -> Result<Page>

  /** Request page after page, each with its own size, always passing on the cursor received. */
  function Walk(list: Service, cursor: Option<string>, sizes: seq<Option<int>>): (seq<Row>, Outcome)
    decreases |sizes|
  {
    if sizes == [] then ([], Stopped(cursor))
    else
      match list(cursor, sizes[0])
      case Err(e) => ([], Failed(e))
      case Ok(page) =>
        if page.nextCursor.None? then (page.sessions, Finished)
        else
          var (rest, outcome) := Walk(list, page.nextCursor, sizes[1..]);
          (page.sessions + rest, outcome)
  }

  /** The cursor that points at an offset; the first request carries none. */
  function CursorFor(cursorAt: nat -> string, offset: nat): Option<string> {
    if offset == 0 then None else Some(cursorAt(offset))
  }

  /** The service pages through `rows` by such cursors, up to the largest offset it accepts. */
  ghost predicate PagesThrough(list: Service, rows: seq<Row>, cursorAt: nat -> string) {
    forall offset: nat, limit :: list(CursorFor(cursorAt, offset), limit)
      == if offset <= MAX_CURSOR_OFFSET then Ok(PageOf(rows, cursorAt, offset, limit)) else Err(InvalidOffset)
  }

  lemma SliceJoin<T>(rows: seq<T>, a: nat, b: nat, c: nat)
    requires a <= b <= c <= |rows|
    ensures Slice(rows, a, b) + rows[b..c] == rows[a..c]
  {
  }

  lemma {:induction false} WalkFrom(
    list: Service, rows: seq<Row>, cursorAt: nat -> string, sizes: seq<Option<int>>, offset: nat)
    returns (reached: nat)
    requires PagesThrough(list, rows, cursorAt) && offset <= |rows|
    ensures var (visited, outcome) := Walk(list, CursorFor(cursorAt, offset), sizes);
            && offset <= reached <= |rows|
            && visited == rows[offset..reached]
            && (outcome.Finished? ==> reached == |rows|)
            && (outcome.Stopped? ==> outcome.next == CursorFor(cursorAt, reached))
            && (outcome.Failed? ==> outcome.error == InvalidOffset && reached > MAX_CURSOR_OFFSET)
    decreases |sizes|
  {
    reached := offset;
    if sizes != [] {
      var end := offset + PageSize(sizes[0]);
      var reply := list(CursorFor(cursorAt, offset), sizes[0]);
      if offset > MAX_CURSOR_OFFSET {
        assert reply == Err(InvalidOffset);
      } else if |rows| > end {
        assert reply == Ok(PageOf(rows, cursorAt, offset, sizes[0]));
        reached := WalkFrom(list, rows, cursorAt, sizes[1..], end);
        SliceJoin(rows, offset, end, reached);
      } else {
        assert reply == Ok(PageOf(rows, cursorAt, offset, sizes[0]));
        reached := |rows|;
      }
    }
  }

  /** A normalized, acceptable filter. */
  predicate GoodFilter(env: Env, cwd: Option<string>) {
    Normalize(cwd) == cwd && (cwd.Some? ==> env.isAbsolute(cwd.value))
  }

  /** `session/list` for one filter. */
  function Listing(env: Env, all: seq<Row>, cwd: Option<string>): Service {
    (cursor, limit) => ListSpec(env, all, cwd, Normalize(cursor), limit)
  }

  /** An issued cursor serves the page it points at, or has its offset refused. */
  lemma ListAt(env: Env, all: seq<Row>, cwd: Option<string>, offset: nat, limit: Option<int>)
    requires TextLaws(env) && GoodFilter(env, cwd)
    ensures ListSpec(env, all, cwd, Normalize(CursorFor(CursorAt(env, cwd), offset)), limit)
            == if offset <= MAX_CURSOR_OFFSET
               then Ok(PageOf(Reachable(all, cwd), CursorAt(env, cwd), offset, limit)) else Err(InvalidOffset)
  {
    CursorRoundTrip(env, Cursor(offset, cwd));
    var cursor := Normalize(CursorFor(CursorAt(env, cwd), offset));
    assert Resolve(env, cwd, cursor) == if offset <= MAX_CURSOR_OFFSET then Ok(offset) else Err(InvalidOffset);
  }

  lemma ListingPages(env: Env, all: seq<Row>, cwd: Option<string>)
    requires TextLaws(env) && GoodFilter(env, cwd)
    ensures PagesThrough(Listing(env, all, cwd), Reachable(all, cwd), CursorAt(env, cwd))
  {
    forall offset: nat, limit
      ensures Listing(env, all, cwd)(CursorFor(CursorAt(env, cwd), offset), limit)
              == if offset <= MAX_CURSOR_OFFSET
                 then Ok(PageOf(Reachable(all, cwd), CursorAt(env, cwd), offset, limit)) else Err(InvalidOffset)
    {
      ListAt(env, all, cwd, offset, limit);
    }
  }

  /** Following cursors from the start visits the reachable rows in order with no gap and no
      duplicate; a walk that finishes has visited them all, and the only way one fails is a cursor
      past offset 10,000. */
  lemma FollowingCursors(env: Env, all: seq<Row>, cwd: Option<string>, sizes: seq<Option<int>>)
    requires TextLaws(env) && GoodFilter(env, cwd)
    ensures var rows := Reachable(all, cwd);
            var (visited, outcome) := Walk(Listing(env, all, cwd), None, sizes);
            && visited <= rows
            && (outcome.Finished? ==> visited == rows)
            && (outcome.Failed? ==> outcome.error == InvalidOffset && |visited| > MAX_CURSOR_OFFSET)
  {
    ListingPages(env, all, cwd);
    var rows := Reachable(all, cwd);
    var reached := WalkFrom(Listing(env, all, cwd), rows, CursorAt(env, cwd), sizes, 0);
    assert rows[0..reached] == rows[..reached];
    assert rows[..|rows|] == rows;
  }

  // ---------------------------------------------------------------- when a walk fails

  /** What the first requests ask for together. */
  function Total(sizes: seq<Option<int>>): nat {
    if sizes == [] then 0 else PageSize(sizes[0]) + Total(sizes[1..])
  }

  /** The request after the first `n` is sent, and its cursor lies past 10,000. */
  predicate RefusedAt(count: nat, offset: nat, sizes: seq<Option<int>>, n: nat) {
    && n < |sizes|
    && (n == 0 || count > offset + Total(sizes[..n]))
    && offset + Total(sizes[..n]) > MAX_CURSOR_OFFSET
  }

  lemma RefusedNext(count: nat, offset: nat, sizes: seq<Option<int>>, n: nat)
    requires sizes != [] && n > 0
    ensures count > offset + PageSize(sizes[0]) ==>
              (RefusedAt(count, offset, sizes, n)
               <==> RefusedAt(count, offset + PageSize(sizes[0]), sizes[1..], n - 1))
    ensures count <= offset + PageSize(sizes[0]) ==> !RefusedAt(count, offset, sizes, n)
  {
    if n < |sizes| { assert sizes[..n][1..] == sizes[1..][..n - 1]; }
  }

  lemma {:induction false} WalkFailsIff(
    list: Service, rows: seq<Row>, cursorAt: nat -> string, sizes: seq<Option<int>>, offset: nat)
    requires PagesThrough(list, rows, cursorAt)
    ensures Walk(list, CursorFor(cursorAt, offset), sizes).1.Failed?
            <==> exists n: nat :: RefusedAt(|rows|, offset, sizes, n)
    decreases |sizes|
  {
    if sizes != [] {
      var end := offset + PageSize(sizes[0]);
      var reply := list(CursorFor(cursorAt, offset), sizes[0]);
      forall n: nat | n > 0
        ensures RefusedAt(|rows|, offset, sizes, n)
                <==> |rows| > end && RefusedAt(|rows|, end, sizes[1..], n - 1)
      {
        RefusedNext(|rows|, offset, sizes, n);
      }
      if offset > MAX_CURSOR_OFFSET {
        assert reply == Err(InvalidOffset);
        assert RefusedAt(|rows|, offset, sizes, 0);
      } else {
        assert reply == Ok(PageOf(rows, cursorAt, offset, sizes[0]));
        assert !RefusedAt(|rows|, offset, sizes, 0);
        if |rows| > end {
          WalkFailsIff(list, rows, cursorAt, sizes[1..], end);
          if n: nat :| RefusedAt(|rows|, end, sizes[1..], n) { assert RefusedAt(|rows|, offset, sizes, n + 1); }
        }
      }
    }
  }

  /** Main theorem. Following cursors fails exactly when some number of pages ends past offset 10,000
      with reachable rows, and a request, still to come. */
  lemma FollowingFailsIff(env: Env, all: seq<Row>, cwd: Option<string>, sizes: seq<Option<int>>)
    requires TextLaws(env) && GoodFilter(env, cwd)
    ensures Walk(Listing(env, all, cwd), None, sizes).1.Failed? <==>
            exists n: nat :: n < |sizes| && MAX_CURSOR_OFFSET < Total(sizes[..n]) < |Reachable(all, cwd)|
  {
    ListingPages(env, all, cwd);
    var count := |Reachable(all, cwd)|;
    WalkFailsIff(Listing(env, all, cwd), Reachable(all, cwd), CursorAt(env, cwd), sizes, 0);
    forall n: nat
      ensures RefusedAt(count, 0, sizes, n) <==> n < |sizes| && MAX_CURSOR_OFFSET < Total(sizes[..n]) < count
    {
      if n == 0 { assert sizes[..0] == []; }
    }
  }

  lemma {:induction false} TotalOfDefaults(n: nat)
    ensures Total(seq(n, _ => None)) == 100 * n
  {
    if n > 0 {
      TotalOfDefaults(n - 1);
      assert seq<Option<int>>(n, _ => None)[1..] == seq(n - 1, _ => None);
    }
  }

  lemma {:induction false} UnfilteredKeepsAll(rows: seq<Row>)
    ensures Filter(rows, None) == rows
  {
    if rows != [] {
      UnfilteredKeepsAll(rows[..|rows| - 1]);
      assert rows[..|rows| - 1] + [rows[|rows| - 1]] == rows;
    }
  }

  /** Every list of 10,101 sessions or more, paged by the default size without a filter: the 101st page
      comes with a cursor for offset 10,100, which the next request has refused. */
  lemma LongListsFail(env: Env, all: seq<Row>)
    requires TextLaws(env) && |all| >= 10_101
    ensures Walk(Listing(env, all, None), None, seq(102, _ => None)).1.Failed?
  {
    var sizes: seq<Option<int>> := seq(102, _ => None);
    UnfilteredKeepsAll(FirstRows(all, MAX_FETCH_LIMIT));
    TotalOfDefaults(101);
    assert sizes[..101] == seq(101, _ => None);
    FollowingFailsIff(env, all, None, sizes);
  }
}
