/** store/rdbms/apigw_route.gen.go: keyset paging over the API-gateway routes table. A search
    normalises the filter's sorting, then a bounded refetch loop collects a full page, asking for
    one row more than it needs to learn whether a next page exists, and finally builds the cursors
    of the neighbouring pages. The database is an oracle that answers a query with scanned rows. */
module ApigwRouteStore {
  import opened Wrappers
  import opened Ints
  import Seqs

  // ----- Sorting and cursors (package `filter`, kept abstract where its code is not shown) -----

  datatype SortExpr = SortExpr(column: string, descending: bool)

  type SortExprSet = seq<SortExpr>

  /** `SortExprSet.Get(column) != nil`: some sort key is on `column`. */
  predicate HasColumn(s: SortExprSet, column: string) {
    exists i :: 0 <= i < |s| && s[i].column == column
  }

  /** `SortExprSet.Reverse`: flips the direction of every key. */
  function ReverseAll(s: SortExprSet): (r: SortExprSet)
    ensures |r| == |s|
    ensures forall i :: 0 <= i < |s| ==> r[i].column == s[i].column && r[i].descending == !s[i].descending
  {
    if s == [] then [] else [s[0].(descending := !s[0].descending)] + ReverseAll(s[1..])
  }

  /** One `PagingCursor.Set(column, value, descending)` call; the cursor is the log of them, as
      `Set`'s own bookkeeping is not modelled. */
  datatype CursorKey = CursorKey(column: string, value: uint64, descending: bool)

  datatype PagingCursor = PagingCursor(keys: seq<CursorKey>, rOrder: bool, lThen: bool)

  // ----- Routes, rows and queries -----

  /** `types.Route`, with the fields the store reads and writes; times are opaque instants. */
  datatype Route = Route(
    id: uint64, endpoint: string, httpMethod: string, debug: bool, enabled: bool, group: uint64,
    createdBy: uint64, updatedBy: uint64, deletedBy: uint64,
    createdAt: int, updatedAt: Option<int>, deletedAt: Option<int>)

  /** The outcome of advancing the row iterator: a scanned route, or `rows.Err()`/a scan error. */
  datatype RowOutcome = Scanned(route: Route) | ScanFailed(err: string)

  /** The select builder the filter converts into, with its `ORDER BY` keys. */
  datatype SelectQuery = SelectQuery(base: string, orderBy: SortExprSet)

  /** What one try sends: the select, the cursor its condition is built from, and `LIMIT`. */
  datatype Query = Query(select: SelectQuery, where: Option<PagingCursor>, limit: Option<uint64>)

  /** `types.RouteFilter`, the fields the search reads or writes; `criteria` stands for the rest. */
  datatype RouteFilter = RouteFilter(
    criteria: string, sort: SortExprSet, pageCursor: Option<PagingCursor>,
    prevPage: Option<PagingCursor>, nextPage: Option<PagingCursor>, limit: uint64)

  type Positive = n: nat | n > 0 witness 1

  /** What the store calls into and this model does not see: the filter converter, `setOrderBy`'s
      validation, the database with the cursor condition it applies, the cursor's `Sort`, and
      `SortExprSet.Reversed`/`LastDescending`; also the package's two paging constants. */
  datatype Backend = Backend(
    convertFilter: RouteFilter -> Result<string>,
    orderByError: SortExprSet -> Option<string>,
    run: Query -> Result<seq<RowOutcome>>,
    cursorSort: (PagingCursor, SortExprSet) -> (SortExprSet, Option<string>),
    reversed: SortExprSet -> bool,
    lastDescending: SortExprSet -> bool,
    maxRefetches: Positive,
    minEnsureFetchLimit: uint64)

  // ----- Table, columns and encoder -----

  /** `apigwRouteTable`: the table name, aliased when an alias is given. */
  function RouteTable(aa: seq<string>): (r: string)
    ensures |aa| == 0 ==> r == "apigw_routes"
    ensures |aa| > 0 ==> r == "apigw_routes AS " + aa[0]
  {
    "apigw_routes" + (if |aa| > 0 then " AS " + aa[0] else "")
  }

  const ColumnNames: seq<string> := [
    "id", "endpoint", "method", "debug", "enabled", "rel_group",
    "created_by", "updated_by", "deleted_by", "created_at", "updated_at", "deleted_at"]

  /** `apigwRouteColumns`: every column, prefixed with `alias.` when an alias is given. */
  function RouteColumns(aa: seq<string>): (r: seq<string>)
    ensures |r| == |ColumnNames|
    ensures forall i :: 0 <= i < |r| ==> r[i] == (if |aa| > 0 then aa[0] + "." else "") + ColumnNames[i]
  {
    var alias := if |aa| > 0 then aa[0] + "." else "";
    seq(|ColumnNames|, i requires 0 <= i < |ColumnNames| => alias + ColumnNames[i])
  }

  /** `sortableApigwRouteColumns`. */
  const SortableColumns: map<string, string> := map["id" := "id"]

  /** A value of the store payload. */
  datatype Value = UintValue(u: uint64) | StringValue(s: string) | BoolValue(b: bool) | TimeValue(t: int) | OptTimeValue(o: Option<int>)

  /** `internalApigwRouteEncoder`. */
  function Encode(res: Route): (p: map<string, Value>)
    ensures p.Keys == set c | c in ColumnNames
    ensures p["id"] == UintValue(res.id) && p["rel_group"] == UintValue(res.group)
  {
    map[
      "id" := UintValue(res.id), "endpoint" := StringValue(res.endpoint), "method" := StringValue(res.httpMethod),
      "debug" := BoolValue(res.debug), "enabled" := BoolValue(res.enabled), "rel_group" := UintValue(res.group),
      "created_by" := UintValue(res.createdBy), "updated_by" := UintValue(res.updatedBy),
      "deleted_by" := UintValue(res.deletedBy), "created_at" := TimeValue(res.createdAt),
      "updated_at" := OptTimeValue(res.updatedAt), "deleted_at" := OptTimeValue(res.deletedAt)]
  }

  /** Column names are distinct, the unaliased columns are exactly the payload keys, and the
      sortable columns are among them. */
  lemma ColumnsMatchEncoder(res: Route)
    ensures forall i, j :: 0 <= i < j < |ColumnNames| ==> ColumnNames[i] != ColumnNames[j]
    ensures (set c | c in RouteColumns([])) == Encode(res).Keys
    ensures SortableColumns.Keys <= Encode(res).Keys && SortableColumns["id"] in RouteColumns([])
  {
    assert forall c :: c in RouteColumns([]) <==> c in ColumnNames by {
      forall c ensures c in RouteColumns([]) <==> c in ColumnNames {
        if c in ColumnNames {
          var i :| 0 <= i < |ColumnNames| && ColumnNames[i] == c;
          assert RouteColumns([])[i] == "" + c == c;
        }
        if c in RouteColumns([]) {
          var i :| 0 <= i < |ColumnNames| && RouteColumns([])[i] == c;
          assert "" + ColumnNames[i] == ColumnNames[i];
        }
      }
    }
    assert RouteColumns([])[0] == "" + "id" == "id";
  }

  // ----- QueryApigwRoutes -----

  /** The rows a query yields: every scanned route in order, or the first error. */
  function ScanRows(rows: seq<RowOutcome>): Result<seq<Route>> {
    if rows == [] then Success([])
    else if rows[0].ScanFailed? then Failure(rows[0].err)
    else
      var rest := ScanRows(rows[1..]);
      if rest.Failure? then Failure(rest.error) else Success([rows[0].route] + rest.value)
  }

  /** Scanning succeeds exactly when every row scanned, and then yields their routes in order;
      otherwise it fails with the error of the first row that did not. */
  lemma {:induction false} ScanRowsMeaning(rows: seq<RowOutcome>)
    ensures ScanRows(rows).Success? <==> forall i :: 0 <= i < |rows| ==> rows[i].Scanned?
    ensures ScanRows(rows).Success? ==>
      |ScanRows(rows).value| == |rows| && forall i :: 0 <= i < |rows| ==> ScanRows(rows).value[i] == rows[i].route
    ensures ScanRows(rows).Failure? ==>
      exists k :: 0 <= k < |rows| && rows[k].ScanFailed? && ScanRows(rows).error == rows[k].err &&
        (forall i :: 0 <= i < k ==> rows[i].Scanned?)
  {
    if rows != [] && !rows[0].ScanFailed? {
      var tail := rows[1..];
      ScanRowsMeaning(tail);
      assert forall i :: 1 <= i < |rows| ==> rows[i] == tail[i - 1];
      if ScanRows(tail).Failure? {
        var k :| 0 <= k < |tail| && tail[k].ScanFailed? && ScanRows(tail).error == tail[k].err &&
          forall i :: 0 <= i < k ==> tail[i].Scanned?;
        assert rows[k + 1] == tail[k];
        assert forall i :: 0 <= i < k + 1 ==> rows[i].Scanned?;
      }
    } else if rows != [] {
      assert rows[0].ScanFailed?;
    }
  }

  /** The routes a query returns: the oracle's error, or its rows scanned. */
  function ScanAll(run: Query -> Result<seq<RowOutcome>>, q: Query): Result<seq<Route>> {
    var rows := run(q);
    if rows.Failure? then Failure(rows.error) else ScanRows(rows.value)
  }

  /** `QueryApigwRoutes`: scans every row into a temporary list, then copies all of them; the
      `check` argument is never consulted. */
  method QueryRoutes(run: Query -> Result<seq<RowOutcome>>, q: Query) returns (r: Result<seq<Route>>)
    ensures r == ScanAll(run, q)
  {
    var rows := run(q);
    if rows.Failure? {
      return Failure(rows.error);
    }
    var tmp: seq<Route> := [];
    for i := 0 to |rows.value|
      invariant |tmp| == i
      invariant forall j :: 0 <= j < i ==> rows.value[j].Scanned? && tmp[j] == rows.value[j].route
    {
      var res := rows.value[i];
      if res.ScanFailed? {
        ScanRowsMeaning(rows.value);
        return Failure(res.err);
      }
      tmp := tmp + [res.route];
    }
    var items: seq<Route> := [];
    for i := 0 to |tmp|
      invariant items == tmp[..i]
    {
      items := items + [tmp[i]];
    }
    assert tmp[..|tmp|] == tmp;
    ScanRowsMeaning(rows.value);
    assert ScanRows(rows.value).Success?;
    assert ScanRows(rows.value).value == tmp;
    return Success(items);
  }

  // ----- collectApigwRouteCursorValues -----

  /** The `Set` calls the first `collect(cc...)` makes: one per key on `id`. */
  function IdKeys(cc: SortExprSet, id: uint64): (r: seq<CursorKey>)
    ensures |r| <= |cc|
    ensures forall i :: 0 <= i < |r| ==> r[i].column == "id" && r[i].value == id
    ensures |r| == 0 <==> !HasColumn(cc, "id")
  {
    if cc == [] then []
    else
      var rest := IdKeys(cc[1..], id);
      assert HasColumn(cc, "id") <==> cc[0].column == "id" || HasColumn(cc[1..], "id") by {
        if HasColumn(cc[1..], "id") {
          var i :| 0 <= i < |cc[1..]| && cc[1..][i].column == "id";
          assert cc[i + 1].column == "id";
        }
        if HasColumn(cc, "id") && cc[0].column != "id" {
          var i :| 0 <= i < |cc| && cc[i].column == "id";
          assert cc[1..][i - 1].column == "id";
        }
      }
      (if cc[0].column == "id" then [CursorKey("id", id, cc[0].descending)] else []) + rest
  }

  /** The cursor `collectApigwRouteCursorValues` builds: the keys on `id` from `cc`, then, since
      no column is flagged unique, always a final ascending `id` key. */
  function CursorValues(reversed: SortExprSet -> bool, res: Route, cc: SortExprSet): (c: PagingCursor)
    ensures |c.keys| > 0 && c.keys[|c.keys| - 1] == CursorKey("id", res.id, false)
    ensures forall i :: 0 <= i < |c.keys| ==> c.keys[i].column == "id" && c.keys[i].value == res.id
    ensures !c.rOrder && c.lThen == reversed(cc)
  {
    PagingCursor(IdKeys(cc, res.id) + [CursorKey("id", res.id, false)], false, reversed(cc))
  }

  /** The imperative collection, with its loop over the sort keys. */
  method CollectCursorValues(reversed: SortExprSet -> bool, res: Route, cc: SortExprSet) returns (cursor: PagingCursor)
    ensures cursor == CursorValues(reversed, res, cc)
  {
    cursor := PagingCursor([], false, reversed(cc));
    var pkId := false;
    for i := 0 to |cc|
      invariant cursor == PagingCursor(IdKeys(cc[..i], res.id), false, reversed(cc))
      invariant pkId <==> HasColumn(cc[..i], "id")
    {
      IdKeysSnoc(cc[..i], cc[i], res.id);
      assert cc[..i + 1] == cc[..i] + [cc[i]];
      if cc[i].column == "id" {
        cursor := cursor.(keys := cursor.keys + [CursorKey("id", res.id, cc[i].descending)]);
        pkId := true;
      }
    }
    assert cc[..|cc|] == cc;
    cursor := cursor.(keys := cursor.keys + [CursorKey("id", res.id, false)]);
  }

  lemma {:induction false} IdKeysSnoc(cc: SortExprSet, c: SortExpr, id: uint64)
    ensures IdKeys(cc + [c], id) == IdKeys(cc, id) + (if c.column == "id" then [CursorKey("id", id, c.descending)] else [])
    ensures HasColumn(cc + [c], "id") <==> HasColumn(cc, "id") || c.column == "id"
  {
    var tail := if c.column == "id" then [CursorKey("id", id, c.descending)] else [];
    if cc == [] {
      assert [c][1..] == [];
      assert IdKeys([c], id) == tail + IdKeys([], id);
    } else {
      var t := cc[1..];
      assert (cc + [c])[1..] == t + [c];
      IdKeysSnoc(t, c, id);
      var h := if cc[0].column == "id" then [CursorKey("id", id, cc[0].descending)] else [];
      assert IdKeys(cc + [c], id) == h + IdKeys(t + [c], id);
      Seqs.AppendAssoc(h, IdKeys(t, id), tail);
    }
    HasColumnSnoc(cc, c, "id");
  }

  lemma HasColumnSnoc(cc: SortExprSet, c: SortExpr, column: string)
    ensures HasColumn(cc + [c], column) <==> HasColumn(cc, column) || c.column == column
  {
    assert (cc + [c])[|cc|] == c;
    if HasColumn(cc, column) {
      var i :| 0 <= i < |cc| && cc[i].column == column;
      assert (cc + [c])[i] == cc[i];
    }
    if HasColumn(cc + [c], column) && c.column != column {
      var i :| 0 <= i < |cc + [c]| && (cc + [c])[i].column == column;
      assert i < |cc| && cc[i] == (cc + [c])[i];
    }
  }

  // ----- fetchFullPageOfApigwRoutes: the refetch loop -----

  /** One query of the loop and the routes it returned (none when it failed). */
  datatype Step = Step(query: Query, rows: seq<Route>)

  /** The loop's variables, the queries made so far, and the error that ended it, if any. */
  datatype LoopState = LoopState(
    items: seq<Route>, cursor: Option<PagingCursor>, limit: uint64, hasNext: bool,
    steps: seq<Step>, err: Option<string>)

  /** The query of one try: the cursor condition when a cursor is set, and `LIMIT limit+1`
      (wrapping, as on a `uint64`) when a limit is set. */
  function TryQuery(q: SelectQuery, cursor: Option<PagingCursor>, limit: uint64): Query {
    Query(q, cursor, if limit > 0 then Some(Wrap(limit + 1)) else None)
  }

  /** The cursor a refill query continues from: built from the last route collected. */
  function RefillCursor(b: Backend, sort: SortExprSet, last: Route): PagingCursor {
    CursorValues(b.reversed, last, sort).(lThen := b.reversed(sort))
  }

  /** Where one try of the loop leaves it: done, or ready for another try. */
  datatype Advance = Done(st: LoopState) | Again(st: LoopState)

  /** One try of the loop: the query, the routes appended to the page, and the decision to stop,
      to truncate to `reqItems` (marking a next page), or to refill with an adjusted limit from
      the last route collected. */
  function TryStep(b: Backend, q: SelectQuery, sort: SortExprSet, reqItems: uint64, st: LoopState): Advance {
    var tq := TryQuery(q, st.cursor, st.limit);
    var aux := ScanAll(b.run, tq);
    if aux.Failure? then Done(st.(steps := st.steps + [Step(tq, [])], err := Some(aux.error)))
    else
      var steps := st.steps + [Step(tq, aux.value)];
      if |aux.value| == 0 then Done(st.(steps := steps))
      else
        var items := st.items + aux.value;
        if reqItems == 0 then Done(st.(items := items, steps := steps))
        else if reqItems > |items| then
          var limit := Max(reqItems - |items|, b.minEnsureFetchLimit);
          var cursor := RefillCursor(b, sort, items[|items| - 1]);
          Again(LoopState(items, Some(cursor), limit, st.hasNext, steps, None))
        else if reqItems < |items| then Done(st.(items := items[..reqItems], hasNext := true, steps := steps))
        else Done(st.(items := items, steps := steps))
  }

  /** The loop `for try := 0; try < MaxRefetches; try++`, from try `tries` on. */
  function Refetch(b: Backend, q: SelectQuery, sort: SortExprSet, reqItems: uint64, tries: nat, st: LoopState): LoopState
    decreases b.maxRefetches - tries
  {
    if tries >= b.maxRefetches then st
    else
      match TryStep(b, q, sort, reqItems, st)
      case Done(s) => s
      case Again(s) => Refetch(b, q, sort, reqItems, tries + 1, s)
  }

  function InitialState(cursor: Option<PagingCursor>, reqItems: uint64): LoopState {
    LoopState([], cursor, reqItems, false, [], None)
  }

  /** The loop's outcome for a fetch. */
  function RunLoop(b: Backend, q: SelectQuery, sort: SortExprSet, cursor: Option<PagingCursor>, reqItems: uint64): LoopState {
    Refetch(b, q, sort, reqItems, 0, InitialState(cursor, reqItems))
  }

  /** What `fetchFullPageOfApigwRoutes` returns: the page, the cursors and the error. */
  datatype Page = Page(items: seq<Route>, prev: Option<PagingCursor>, next: Option<PagingCursor>, err: Option<string>)

  function Reverse<T>(s: seq<T>): (r: seq<T>)
    ensures |r| == |s| && forall i :: 0 <= i < |s| ==> r[i] == s[|s| - 1 - i]
  {
    if s == [] then [] else Reverse(s[1..]) + [s[0]]
  }

  /** The end of the fetch, after the loop: errors and empty pages carry no cursors; a page
      fetched for a previous-page cursor is put back in order and its cursor flags swapped; the
      previous-page cursor comes from the first route and the next-page cursor from the last. */
  function FinishPage(b: Backend, sort: SortExprSet, cursor: Option<PagingCursor>, lp: LoopState): (r: Page)
    ensures lp.err.Some? ==> r == Page([], None, None, lp.err)
    ensures lp.err.None? && |lp.items| == 0 ==> r == Page([], None, None, None)
    ensures lp.err.None? && |lp.items| > 0 ==>
      var reversedOrder := cursor.Some? && cursor.value.rOrder;
      r.err.None? &&
      r.items == (if reversedOrder then Reverse(lp.items) else lp.items) &&
      (r.prev.Some? <==> if reversedOrder then lp.hasNext else cursor.Some?) &&
      (r.next.Some? <==> if reversedOrder then cursor.Some? else lp.hasNext) &&
      (r.prev.Some? ==> r.prev.value == CursorValues(b.reversed, r.items[0], sort).(rOrder := true, lThen := !b.reversed(sort))) &&
      (r.next.Some? ==> r.next.value == RefillCursor(b, sort, r.items[|r.items| - 1]))
  {
    if lp.err.Some? then Page([], None, None, lp.err)
    else if |lp.items| == 0 then Page([], None, None, None)
    else
      var reversedOrder := cursor.Some? && cursor.value.rOrder;
      var items := if reversedOrder then Reverse(lp.items) else lp.items;
      var hasPrev := if reversedOrder then lp.hasNext else cursor.Some?;
      var hasNext := if reversedOrder then cursor.Some? else lp.hasNext;
      var prev := if hasPrev then Some(CursorValues(b.reversed, items[0], sort).(rOrder := true, lThen := !b.reversed(sort))) else None;
      var next := if hasNext then Some(RefillCursor(b, sort, items[|items| - 1])) else None;
      Page(items, prev, next, None)
  }

  /** The page `fetchFullPageOfApigwRoutes` returns. */
  function FetchFullPageSpec(b: Backend, q: SelectQuery, sort: SortExprSet, cursor: Option<PagingCursor>, reqItems: uint64): Page {
    FinishPage(b, sort, cursor, RunLoop(b, q, sort, cursor, reqItems))
  }

  /** Reverses an array in place by swapping from both ends. */
  method ReverseInPlace<T>(a: array<T>)
    modifies a
    ensures a[..] == Reverse(old(a[..]))
  {
    ghost var s := a[..];
    var i, j := 0, a.Length - 1;
    while i < j
      invariant 0 <= i <= j + 2 && j == a.Length - 1 - i
      invariant forall k | 0 <= k < i :: a[k] == s[a.Length - 1 - k]
      invariant forall k | j < k < a.Length :: a[k] == s[a.Length - 1 - k]
      invariant forall k | i <= k <= j :: a[k] == s[k]
    {
      a[i], a[j] := a[j], a[i];
      i, j := i + 1, j - 1;
    }
    assert forall k | 0 <= k < a.Length :: a[..][k] == Reverse(s)[k];
  }

  /** Reversing keeps every route, as often as before. */
  lemma {:induction false} ReversePermutes<T>(s: seq<T>)
    ensures multiset(Reverse(s)) == multiset(s)
  {
    if s != [] {
      ReversePermutes(s[1..]);
      assert s == [s[0]] + s[1..];
    }
  }

  /** How one try of the refetch loop ends: with the query's error, with the loop left (the
      page complete, or nothing more to fetch), or with a refill to run next. */
  datatype TryOutcome =
    | TryFailed(err: string)
    | TryStopped(items: seq<Route>, hasNext: bool)
    | TryRefill(items: seq<Route>, cursor: PagingCursor, limit: uint64)

  /** The body of the refetch loop (lines 143-197): one query, the routes appended, and the
      decision to stop, to truncate, or to refill with an adjusted limit and cursor. */
  method FetchTry(b: Backend, q: SelectQuery, sort: SortExprSet, reqItems: uint64,
                  items: seq<Route>, cur: Option<PagingCursor>, limit: uint64, ghost steps: seq<Step>)
    returns (outcome: TryOutcome, ghost steps': seq<Step>)
    ensures var r := TryStep(b, q, sort, reqItems, LoopState(items, cur, limit, false, steps, None));
      match outcome
      case TryFailed(e) => r.Done? && r.st.err == Some(e)
      case TryStopped(items', hasNext) => r == Done(LoopState(items', cur, limit, hasNext, steps', None))
      case TryRefill(items', cursor, limit') => r == Again(LoopState(items', Some(cursor), limit', false, steps', None))
  {
    var tryQuery := Query(q, None, None);
    if cur.Some? {
      tryQuery := tryQuery.(where := cur);
    }
    if limit > 0 {
      tryQuery := tryQuery.(limit := Some(Wrap(limit + 1)));
    }
    assert tryQuery == TryQuery(q, cur, limit);
    var aux := QueryRoutes(b.run, tryQuery);
    if aux.Failure? {
      return TryFailed(aux.error), steps;
    }
    steps' := steps + [Step(tryQuery, aux.value)];
    if |aux.value| == 0 {
      return TryStopped(items, false), steps';
    }
    var fetched := items + aux.value;
    if reqItems == 0 {
      return TryStopped(fetched, false), steps';
    }
    var collected := |fetched|;
    if reqItems > collected {
      var limit' := reqItems - collected;
      if limit' < b.minEnsureFetchLimit {
        limit' := b.minEnsureFetchLimit;
      }
      var c := CollectCursorValues(b.reversed, fetched[collected - 1], sort);
      c := c.(lThen := b.reversed(sort));
      return TryRefill(fetched, c, limit'), steps';
    }
    var hasNext := false;
    if reqItems < collected {
      fetched := fetched[..reqItems];
      hasNext := true;
    }
    return TryStopped(fetched, hasNext), steps';
  }

  /** A try that ends the loop gives the loop's outcome. */
  lemma RefetchDone(b: Backend, q: SelectQuery, sort: SortExprSet, reqItems: uint64, tries: nat, st: LoopState, s: LoopState)
    requires tries < b.maxRefetches && TryStep(b, q, sort, reqItems, st) == Done(s)
    ensures Refetch(b, q, sort, reqItems, tries, st) == s
  {
  }

  /** A try that asks for another leaves the outcome to the remaining tries. */
  lemma RefetchAgain(b: Backend, q: SelectQuery, sort: SortExprSet, reqItems: uint64, tries: nat, st: LoopState, s: LoopState)
    requires tries < b.maxRefetches && TryStep(b, q, sort, reqItems, st) == Again(s)
    ensures Refetch(b, q, sort, reqItems, tries, st) == Refetch(b, q, sort, reqItems, tries + 1, s)
  {
  }

  /** The refetch loop of `fetchFullPageOfApigwRoutes` (lines 142-198), returning the routes
      collected, whether a next page exists, and the query error, if any. */
  method CollectPage(b: Backend, q: SelectQuery, sort: SortExprSet, cursor: Option<PagingCursor>, reqItems: uint64)
    returns (items: seq<Route>, hasNext: bool, err: Option<string>)
    ensures var lp := RunLoop(b, q, sort, cursor, reqItems);
            err == lp.err && (err.None? ==> items == lp.items && hasNext == lp.hasNext)
  {
    var limit: uint64 := reqItems;
    hasNext := false;
    var cur := cursor;
    items := [];
    ghost var steps: seq<Step> := [];
    ghost var spec := RunLoop(b, q, sort, cursor, reqItems);
    var try := 0;
    while try < b.maxRefetches
      invariant spec == Refetch(b, q, sort, reqItems, try, LoopState(items, cur, limit, false, steps, None))
      invariant !hasNext
    {
      var outcome;
      outcome, steps := FetchTry(b, q, sort, reqItems, items, cur, limit, steps);
      ghost var st := LoopState(items, cur, limit, false, steps, None);
      match outcome
      case TryFailed(e) =>
        RefetchDone(b, q, sort, reqItems, try, st, TryStep(b, q, sort, reqItems, st).st);
        return [], false, Some(e);
      case TryStopped(items', hasNext') =>
        RefetchDone(b, q, sort, reqItems, try, st, TryStep(b, q, sort, reqItems, st).st);
        items, hasNext := items', hasNext';
        break;
      case TryRefill(items', cursor', limit') =>
        RefetchAgain(b, q, sort, reqItems, try, st, TryStep(b, q, sort, reqItems, st).st);
        items, cur, limit := items', Some(cursor'), limit';
      try := try + 1;
    }
    err := None;
  }

  /** The end of `fetchFullPageOfApigwRoutes` (lines 200-227), on the loop's outcome `lp`
      without error: the in-place reversal and the cursors. */
  method FinishFetch(b: Backend, sort: SortExprSet, cursor: Option<PagingCursor>, items: seq<Route>, hasNext: bool,
                     ghost lp: LoopState)
    returns (page: Page)
    requires lp.err.None? && lp.items == items && lp.hasNext == hasNext
    ensures page == FinishPage(b, sort, cursor, lp)
  {
    var reversedOrder := cursor.Some? && cursor.value.rOrder;
    var hasPrev := cursor.Some?;
    var hasNext := hasNext;
    var items := items;
    var collected := |items|;
    if collected == 0 {
      return Page([], None, None, None);
    }
    if reversedOrder {
      var arr := new Route[collected](i requires 0 <= i < collected => items[i]);
      assert arr[..] == items;
      ReverseInPlace(arr);
      items := arr[..];
      hasPrev, hasNext := hasNext, hasPrev;
    }
    var prev: Option<PagingCursor> := None;
    var next: Option<PagingCursor> := None;
    if hasPrev {
      var p := CollectCursorValues(b.reversed, items[0], sort);
      p := p.(rOrder := true);
      p := p.(lThen := !b.reversed(sort));
      prev := Some(p);
    }
    if hasNext {
      var n := CollectCursorValues(b.reversed, items[collected - 1], sort);
      n := n.(lThen := b.reversed(sort));
      next := Some(n);
    }
    page := Page(items, prev, next, None);
  }

  /** `fetchFullPageOfApigwRoutes`: the refetch loop, then the reversal and the cursors. */
  method FetchFullPage(b: Backend, q: SelectQuery, sort: SortExprSet, cursor: Option<PagingCursor>, reqItems: uint64)
    returns (page: Page)
    ensures page == FetchFullPageSpec(b, q, sort, cursor, reqItems)
  {
    ghost var lp := RunLoop(b, q, sort, cursor, reqItems);
    var items, hasNext, err := CollectPage(b, q, sort, cursor, reqItems);
    if err.Some? {
      return Page([], None, None, err);
    }
    page := FinishFetch(b, sort, cursor, items, hasNext, lp);
  }

  // ----- SearchApigwRoutes -----

  /** The sort keys with `id` appended, in the direction of the last key, unless a key on `id`
      is already there; the existing keys keep their order. */
  function WithIdKey(b: Backend, s: SortExprSet): (r: SortExprSet)
    ensures HasColumn(r, "id")
    ensures |r| >= |s| && r[..|s|] == s
    ensures HasColumn(s, "id") ==> r == s
    ensures !HasColumn(s, "id") ==> r == s + [SortExpr("id", b.lastDescending(s))]
  {
    if HasColumn(s, "id") then s
    else
      var r := s + [SortExpr("id", b.lastDescending(s))];
      assert r[|s|].column == "id";
      r
  }

  /** The filter's sort keys after lines 46-62: taken from the page cursor when there is one
      (which may fail), then completed with `id`. */
  function NormalizedSort(b: Backend, f: RouteFilter): (SortExprSet, Option<string>) {
    if f.pageCursor.Some? then
      var (s, e) := b.cursorSort(f.pageCursor.value, f.sort);
      if e.Some? then (s, e) else (WithIdKey(b, s), None)
    else (WithIdKey(b, f.sort), None)
  }

  /** The keys the query is ordered by: a copy of the filter's, flipped for a previous-page cursor. */
  function OrderSort(f: RouteFilter, s: SortExprSet): SortExprSet {
    if f.pageCursor.Some? && f.pageCursor.value.rOrder then ReverseAll(s) else s
  }

  /** `SearchApigwRoutes`. The filter is returned as the search leaves it (Go evaluates the
      closure before the results are read); the cursors it returns come from the fetch alone. */
  method SearchRoutes(b: Backend, f: RouteFilter) returns (items: seq<Route>, f': RouteFilter, err: Option<string>)
    ensures b.convertFilter(f).Failure? ==> items == [] && f' == f && err == Some(b.convertFilter(f).error)
    ensures b.convertFilter(f).Success? && NormalizedSort(b, f).1.Some? ==>
      items == [] && err == NormalizedSort(b, f).1 &&
      f' == f.(sort := NormalizedSort(b, f).0, prevPage := None, nextPage := None)
    ensures b.convertFilter(f).Success? && NormalizedSort(b, f).1.None? ==>
      var s := NormalizedSort(b, f).0;
      var os := OrderSort(f, s);
      (b.orderByError(os).Some? ==>
        items == [] && err == b.orderByError(os) && f' == f.(sort := s, prevPage := None, nextPage := None)) &&
      (b.orderByError(os).None? ==>
        var page := FetchFullPageSpec(b, SelectQuery(b.convertFilter(f).value, os), s, f.pageCursor, f.limit);
        items == page.items && err == page.err &&
        f' == f.(sort := s, prevPage := page.prev, nextPage := page.next,
                 pageCursor := if page.err.None? then None else f.pageCursor))
  {
    items := [];
    f' := f;
    var q := b.convertFilter(f');
    if q.Failure? {
      return [], f', Some(q.error);
    }
    f' := f'.(prevPage := None, nextPage := None);
    if f'.pageCursor.Some? {
      var (s, e) := b.cursorSort(f'.pageCursor.value, f'.sort);
      f' := f'.(sort := s);
      if e.Some? {
        return [], f', e;
      }
    }
    if !HasColumn(f'.sort, "id") {
      f' := f'.(sort := f'.sort + [SortExpr("id", b.lastDescending(f'.sort))]);
    }
    var sort := f'.sort;
    if f'.pageCursor.Some? && f'.pageCursor.value.rOrder {
      sort := ReverseAll(sort);
    }
    err := b.orderByError(sort);
    if err.Some? {
      return [], f', err;
    }
    var page := FetchFullPage(b, SelectQuery(q.value, sort), f'.sort, f'.pageCursor, f'.limit);
    items := page.items;
    f' := f'.(prevPage := page.prev, nextPage := page.next);
    err := page.err;
    if err.Some? {
      return;
    }
    f' := f'.(pageCursor := None);
  }

  /** A successful search is sorted by `id` among its keys, and leaves no page cursor behind;
      without a page cursor the caller's keys come first, in their order. */
  lemma SearchSortHasId(b: Backend, f: RouteFilter)
    requires NormalizedSort(b, f).1.None?
    ensures HasColumn(NormalizedSort(b, f).0, "id")
    ensures f.pageCursor.None? ==> NormalizedSort(b, f).0[..|f.sort|] == f.sort
  {
  }
}
