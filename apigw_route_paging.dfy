/** What the refetch loop of store/rdbms/apigw_route.gen.go guarantees about the queries it
    makes and the page it returns, for every database oracle. */
module ApigwRoutePaging {
  import opened Wrappers
  import opened Ints
  import opened ApigwRouteStore

  /** Every route the loop's queries returned, in order. */
  function Collected(steps: seq<Step>): seq<Route> {
    if steps == [] then [] else Collected(steps[..|steps| - 1]) + steps[|steps| - 1].rows
  }

  lemma CollectedSnoc(steps: seq<Step>, s: Step)
    ensures Collected(steps + [s]) == Collected(steps) + s.rows
  {
    assert (steps + [s])[..|steps|] == steps;
  }

  /** Each query after the first is a refill: it follows a query whose routes, together with the
      earlier ones, fall short of `reqItems`, and it continues from the last route collected with
      the limit `max(reqItems - collected, MinEnsureFetchLimit)`. */
  ghost predicate RefillRule(b: Backend, q: SelectQuery, sort: SortExprSet, reqItems: uint64, steps: seq<Step>) {
    forall k :: 0 <= k < |steps| - 1 ==> IsRefill(b, q, sort, reqItems, steps, k)
  }

  /** Query `k + 1` is the refill after the first `k + 1` queries. */
  ghost predicate IsRefill(b: Backend, q: SelectQuery, sort: SortExprSet, reqItems: uint64, steps: seq<Step>, k: nat)
    requires k + 1 < |steps|
  {
    var acc := Collected(steps[..k + 1]);
    0 < |acc| < reqItems &&
    steps[k + 1].query == TryQuery(q, Some(RefillCursor(b, sort, acc[|acc| - 1])), Max(reqItems - |acc|, b.minEnsureFetchLimit))
  }

  /** The loop's state at the top of try `tries`, started from `cursor0`. */
  ghost predicate Continuing(b: Backend, q: SelectQuery, sort: SortExprSet, reqItems: uint64,
                             cursor0: Option<PagingCursor>, tries: nat, st: LoopState) {
    st.err.None? && !st.hasNext && |st.steps| == tries &&
    st.items == Collected(st.steps) &&
    RefillRule(b, q, sort, reqItems, st.steps) &&
    (tries == 0 ==> st.cursor == cursor0 && st.limit == reqItems) &&
    (tries > 0 ==>
      0 < |st.items| < reqItems &&
      st.cursor == Some(RefillCursor(b, sort, st.items[|st.items| - 1])) &&
      st.limit == Max(reqItems - |st.items|, b.minEnsureFetchLimit) &&
      st.steps[0].query == TryQuery(q, cursor0, reqItems))
  }

  /** A refill stays one when a query is appended. */
  lemma IsRefillSnoc(b: Backend, q: SelectQuery, sort: SortExprSet, reqItems: uint64,
                     steps: seq<Step>, s: Step, k: nat)
    requires k + 1 < |steps| && IsRefill(b, q, sort, reqItems, steps, k)
    ensures IsRefill(b, q, sort, reqItems, steps + [s], k)
  {
    assert (steps + [s])[..k + 1] == steps[..k + 1];
    assert (steps + [s])[k + 1] == steps[k + 1];
  }

  /** The query a later try makes is a refill. */
  lemma LastIsRefill(b: Backend, q: SelectQuery, sort: SortExprSet, reqItems: uint64,
                     cursor0: Option<PagingCursor>, tries: nat, st: LoopState, s: Step)
    requires Continuing(b, q, sort, reqItems, cursor0, tries, st) && tries > 0
    requires s.query == TryQuery(q, st.cursor, st.limit)
    ensures IsRefill(b, q, sort, reqItems, st.steps + [s], |st.steps| - 1)
  {
    var steps := st.steps + [s];
    assert steps[..|st.steps|] == st.steps;
    assert steps[|st.steps|] == s;
  }

  /** Appending the query just made keeps the refill rule, when that query was a refill. */
  lemma RefillRuleSnoc(b: Backend, q: SelectQuery, sort: SortExprSet, reqItems: uint64,
                       cursor0: Option<PagingCursor>, tries: nat, st: LoopState, s: Step)
    requires Continuing(b, q, sort, reqItems, cursor0, tries, st)
    requires s.query == TryQuery(q, st.cursor, st.limit)
    ensures RefillRule(b, q, sort, reqItems, st.steps + [s])
  {
    forall k | 0 <= k < |st.steps|
      ensures IsRefill(b, q, sort, reqItems, st.steps + [s], k)
    {
      if k + 1 == |st.steps| {
        LastIsRefill(b, q, sort, reqItems, cursor0, tries, st, s);
      } else {
        IsRefillSnoc(b, q, sort, reqItems, st.steps, s, k);
      }
    }
  }

  /** What holds of the loop's final state `r`, reached from the state `st` of try `tries`. */
  ghost predicate EndsWell(b: Backend, q: SelectQuery, sort: SortExprSet, reqItems: uint64,
                           cursor0: Option<PagingCursor>, tries: nat, st: LoopState, r: LoopState) {
    |st.steps| <= |r.steps| <= b.maxRefetches && r.steps[..|st.steps|] == st.steps &&
    (tries < b.maxRefetches ==> |r.steps| > tries) &&
    RefillRule(b, q, sort, reqItems, r.steps) &&
    (|r.steps| > 0 ==> r.steps[0].query == TryQuery(q, cursor0, reqItems)) &&
    (r.err.None? ==>
      (r.hasNext <==> reqItems > 0 && |Collected(r.steps)| > reqItems) &&
      r.items == if r.hasNext then Collected(r.steps)[..reqItems] else Collected(r.steps))
  }

  /** The queries after a try: the refill rule still holds, the routes collected grow by the
      try's routes, and the first query is unchanged. */
  lemma TryStepsFacts(b: Backend, q: SelectQuery, sort: SortExprSet, reqItems: uint64,
                      cursor0: Option<PagingCursor>, tries: nat, st: LoopState, s: Step)
    requires Continuing(b, q, sort, reqItems, cursor0, tries, st)
    requires s.query == TryQuery(q, st.cursor, st.limit)
    ensures var steps := st.steps + [s];
      RefillRule(b, q, sort, reqItems, steps) && Collected(steps) == st.items + s.rows &&
      |steps| == tries + 1 && steps[..|st.steps|] == st.steps &&
      steps[0].query == TryQuery(q, cursor0, reqItems)
  {
    var steps := st.steps + [s];
    RefillRuleSnoc(b, q, sort, reqItems, cursor0, tries, st, s);
    CollectedSnoc(st.steps, s);
    assert steps[..|st.steps|] == st.steps;
    assert tries == 0 ==> steps[0] == s;
    assert tries > 0 ==> steps[0] == st.steps[0];
  }

  /** A try that ends the loop ends it well. */
  lemma DoneStep(b: Backend, q: SelectQuery, sort: SortExprSet, reqItems: uint64,
                 cursor0: Option<PagingCursor>, tries: nat, st: LoopState)
    requires tries < b.maxRefetches && Continuing(b, q, sort, reqItems, cursor0, tries, st)
    requires TryStep(b, q, sort, reqItems, st).Done?
    ensures EndsWell(b, q, sort, reqItems, cursor0, tries, st, TryStep(b, q, sort, reqItems, st).st)
  {
    var tq := TryQuery(q, st.cursor, st.limit);
    var aux := ScanAll(b.run, tq);
    TryStepsFacts(b, q, sort, reqItems, cursor0, tries, st, Step(tq, if aux.Failure? then [] else aux.value));
  }

  /** A try that goes on leaves a state of the next try. */
  lemma AgainStep(b: Backend, q: SelectQuery, sort: SortExprSet, reqItems: uint64,
                  cursor0: Option<PagingCursor>, tries: nat, st: LoopState)
    requires tries < b.maxRefetches && Continuing(b, q, sort, reqItems, cursor0, tries, st)
    requires TryStep(b, q, sort, reqItems, st).Again?
    ensures var s := TryStep(b, q, sort, reqItems, st).st;
      Continuing(b, q, sort, reqItems, cursor0, tries + 1, s) &&
      |s.steps| == |st.steps| + 1 && s.steps[..|st.steps|] == st.steps
  {
    var tq := TryQuery(q, st.cursor, st.limit);
    TryStepsFacts(b, q, sort, reqItems, cursor0, tries, st, Step(tq, ScanAll(b.run, tq).value));
  }

  /** The loop, from any state `Continuing` describes, ends well. */
  lemma {:induction false} RefetchFacts(b: Backend, q: SelectQuery, sort: SortExprSet, reqItems: uint64,
                                        cursor0: Option<PagingCursor>, tries: nat, st: LoopState)
    requires tries <= b.maxRefetches
    requires Continuing(b, q, sort, reqItems, cursor0, tries, st)
    ensures EndsWell(b, q, sort, reqItems, cursor0, tries, st, Refetch(b, q, sort, reqItems, tries, st))
    decreases b.maxRefetches - tries
  {
    if tries < b.maxRefetches {
      match TryStep(b, q, sort, reqItems, st)
      case Done(s) =>
        DoneStep(b, q, sort, reqItems, cursor0, tries, st);
      case Again(s) =>
        AgainStep(b, q, sort, reqItems, cursor0, tries, st);
        RefetchFacts(b, q, sort, reqItems, cursor0, tries + 1, s);
        var r := Refetch(b, q, sort, reqItems, tries + 1, s);
        assert r.steps[..|s.steps|][..|st.steps|] == r.steps[..|st.steps|];
    } else {
      assert st.steps[..|st.steps|] == st.steps;
    }
  }

  /** Over the whole loop: one to `MaxRefetches` queries, the first with the caller's cursor and
      limit, every later one a refill; the page is everything fetched, or its first `reqItems`
      routes exactly when more than `reqItems` were fetched. */
  lemma LoopFacts(b: Backend, q: SelectQuery, sort: SortExprSet, cursor: Option<PagingCursor>, reqItems: uint64)
    ensures var r := RunLoop(b, q, sort, cursor, reqItems);
      1 <= |r.steps| <= b.maxRefetches &&
      r.steps[0].query == TryQuery(q, cursor, reqItems) &&
      RefillRule(b, q, sort, reqItems, r.steps) &&
      (r.err.None? ==>
        (r.hasNext <==> reqItems > 0 && |Collected(r.steps)| > reqItems) &&
        r.items == if r.hasNext then Collected(r.steps)[..reqItems] else Collected(r.steps))
  {
    RefetchFacts(b, q, sort, reqItems, cursor, 0, InitialState(cursor, reqItems));
  }

  /** The first query asks for `reqItems + 1` rows (the extra row tells whether a next page
      exists), or sets no limit when no limit was requested; refills always set a limit. */
  lemma QueryLimits(b: Backend, q: SelectQuery, sort: SortExprSet, cursor: Option<PagingCursor>, reqItems: uint64)
    ensures var r := RunLoop(b, q, sort, cursor, reqItems);
      |r.steps| > 0 && r.steps[0].query.limit == (if reqItems > 0 then Some(Wrap(reqItems + 1)) else None) &&
      forall k :: 1 <= k < |r.steps| ==> r.steps[k].query.limit.Some? && r.steps[k].query.where.Some?
  {
    LoopFacts(b, q, sort, cursor, reqItems);
    var r := RunLoop(b, q, sort, cursor, reqItems);
    forall k | 1 <= k < |r.steps|
      ensures r.steps[k].query.limit.Some? && r.steps[k].query.where.Some?
    {
      assert IsRefill(b, q, sort, reqItems, r.steps, k - 1);
    }
  }

  /** Without a requested limit the loop makes exactly one query, with no `LIMIT`. */
  lemma UnlimitedFetchesOnce(b: Backend, q: SelectQuery, sort: SortExprSet, cursor: Option<PagingCursor>)
    ensures var r := RunLoop(b, q, sort, cursor, 0);
      |r.steps| == 1 && r.steps[0].query == Query(q, cursor, None) &&
      (r.err.None? ==> r.items == r.steps[0].rows && !r.hasNext)
  {
  }

  /** With a limit, the page never holds more than the limit. */
  lemma PageBounded(b: Backend, q: SelectQuery, sort: SortExprSet, cursor: Option<PagingCursor>, reqItems: uint64)
    requires reqItems > 0
    ensures |FetchFullPageSpec(b, q, sort, cursor, reqItems).items| <= reqItems
  {
    LoopFacts(b, q, sort, cursor, reqItems);
  }

  /** A failed query ends the fetch with no routes and no cursors; so does an empty result,
      even when a cursor was given. */
  lemma ErrorsAndEmptyPages(b: Backend, q: SelectQuery, sort: SortExprSet, cursor: Option<PagingCursor>, reqItems: uint64)
    ensures var r := RunLoop(b, q, sort, cursor, reqItems);
      var p := FetchFullPageSpec(b, q, sort, cursor, reqItems);
      (r.err.Some? ==> p == Page([], None, None, r.err)) &&
      (r.err.None? && Collected(r.steps) == [] ==> p == Page([], None, None, None))
  {
    LoopFacts(b, q, sort, cursor, reqItems);
  }

  /** A page fetched for a previous-page cursor comes back as the exact reverse of the order the
      queries returned it in, holds the same routes, and has its cursor flags swapped: a next-page
      cursor always, and a previous-page cursor when more rows were fetched than requested. */
  lemma ReversedPage(b: Backend, q: SelectQuery, sort: SortExprSet, cursor: Option<PagingCursor>, reqItems: uint64)
    requires cursor.Some? && cursor.value.rOrder
    ensures var r := RunLoop(b, q, sort, cursor, reqItems);
      var p := FetchFullPageSpec(b, q, sort, cursor, reqItems);
      r.err.None? && |r.items| > 0 ==>
        p.items == Reverse(r.items) && multiset(p.items) == multiset(r.items) &&
        p.next.Some? && (p.prev.Some? <==> reqItems > 0 && |Collected(r.steps)| > reqItems)
  {
    LoopFacts(b, q, sort, cursor, reqItems);
    ReversePermutes(RunLoop(b, q, sort, cursor, reqItems).items);
  }

  /** The cursors of a page: the previous-page cursor starts from the first route, asks for the
      reverse order, and has `LThen` negated; the next-page cursor starts from the last route. Both
      are built from the filter's sort keys as given, not the flipped ones. */
  lemma PageCursors(b: Backend, q: SelectQuery, sort: SortExprSet, cursor: Option<PagingCursor>, reqItems: uint64)
    ensures var p := FetchFullPageSpec(b, q, sort, cursor, reqItems);
      (p.prev.Some? ==>
        |p.items| > 0 && p.prev.value.rOrder && p.prev.value.lThen == !b.reversed(sort) &&
        p.prev.value.keys == CursorValues(b.reversed, p.items[0], sort).keys) &&
      (p.next.Some? ==>
        |p.items| > 0 && !p.next.value.rOrder && p.next.value.lThen == b.reversed(sort) &&
        p.next.value.keys == CursorValues(b.reversed, p.items[|p.items| - 1], sort).keys)
  {
  }

  /** Without a cursor there is no previous page, and a next-page cursor exactly when more routes
      came back than requested: the extra row asked for. */
  lemma ForwardPageCursors(b: Backend, q: SelectQuery, sort: SortExprSet, reqItems: uint64)
    ensures var r := RunLoop(b, q, sort, None, reqItems);
      var p := FetchFullPageSpec(b, q, sort, None, reqItems);
      r.err.None? ==>
        p.prev.None? && (p.next.Some? <==> reqItems > 0 && |Collected(r.steps)| > reqItems)
  {
    LoopFacts(b, q, sort, None, reqItems);
  }

  // ----- A concrete database: a table of routes in ascending `id` order -----

  predicate SortedById(rows: seq<Route>) {
    forall i, j :: 0 <= i < j < |rows| ==> rows[i].id < rows[j].id
  }

  /** The routes whose `id` is greater than `id`, in table order. */
  function After(rows: seq<Route>, id: uint64): (r: seq<Route>)
    ensures (forall i :: 0 <= i < |rows| ==> rows[i].id <= id) ==> r == []
  {
    if rows == [] then [] else (if rows[0].id > id then [rows[0]] else []) + After(rows[1..], id)
  }

  function Take(s: seq<Route>, limit: Option<uint64>): seq<Route> {
    if limit.Some? && limit.value < |s| then s[..limit.value] else s
  }

  function AsRows(s: seq<Route>): (r: seq<RowOutcome>)
    ensures |r| == |s| && forall i :: 0 <= i < |s| ==> r[i] == Scanned(s[i])
  {
    seq(|s|, i requires 0 <= i < |s| => Scanned(s[i]))
  }

  /** How such a table answers a query: the rows past the cursor's last key (the `id` every
      cursor ends with), then at most `LIMIT` of them. */
  function TableAnswer(rows: seq<Route>, qu: Query): Result<seq<RowOutcome>> {
    var from := if qu.where.Some? && |qu.where.value.keys| > 0
      then After(rows, qu.where.value.keys[|qu.where.value.keys| - 1].value) else rows;
    Success(AsRows(Take(from, qu.limit)))
  }

  lemma ScanTable(rows: seq<Route>, qu: Query, b: Backend)
    requires b.run == (qq => TableAnswer(rows, qq))
    ensures ScanAll(b.run, qu).Success?
    ensures var from := if qu.where.Some? && |qu.where.value.keys| > 0
      then After(rows, qu.where.value.keys[|qu.where.value.keys| - 1].value) else rows;
      ScanAll(b.run, qu).value == Take(from, qu.limit)
  {
    var from := if qu.where.Some? && |qu.where.value.keys| > 0
      then After(rows, qu.where.value.keys[|qu.where.value.keys| - 1].value) else rows;
    var t := Take(from, qu.limit);
    assert b.run(qu) == Success(AsRows(t));
    ScanRowsMeaning(AsRows(t));
    assert ScanRows(AsRows(t)).Success?;
    assert ScanRows(AsRows(t)).value == t;
  }

  /** A try whose routes, with those collected before, still fall short of a positive
      `reqItems` goes on with a refill from the last one. */
  lemma AgainWhenShort(b: Backend, q: SelectQuery, sort: SortExprSet, reqItems: uint64, st: LoopState, rows: seq<Route>)
    requires ScanAll(b.run, TryQuery(q, st.cursor, st.limit)) == Success(rows)
    requires |rows| > 0 && |st.items + rows| < reqItems
    ensures var items := st.items + rows;
      TryStep(b, q, sort, reqItems, st) ==
        Again(LoopState(items, Some(RefillCursor(b, sort, items[|items| - 1])), Max(reqItems - |items|, b.minEnsureFetchLimit),
                        st.hasNext, st.steps + [Step(TryQuery(q, st.cursor, st.limit), rows)], None))
  {
  }

  /** A first try whose query returns fewer routes than the limit asks for a refill from the
      last one. */
  lemma ShortFirstTry(rows: seq<Route>, b: Backend, q: SelectQuery, sort: SortExprSet, n: uint64)
    requires ScanAll(b.run, TryQuery(q, None, n)) == Success(rows)
    requires 0 < |rows| < n
    ensures var a := TryStep(b, q, sort, n, InitialState(None, n));
      a.Again? && a.st.items == rows && a.st.err.None? && !a.st.hasNext &&
      a.st.cursor == Some(RefillCursor(b, sort, rows[|rows| - 1]))
  {
    var st := InitialState(None, n);
    assert st.items + rows == rows;
    AgainWhenShort(b, q, sort, n, st, rows);
  }

  /** A refill whose query returns nothing ends the loop as it was. */
  lemma EmptyRefill(b: Backend, q: SelectQuery, sort: SortExprSet, n: uint64, s: LoopState)
    requires ScanAll(b.run, TryQuery(q, s.cursor, s.limit)) == Success([])
    ensures var a := TryStep(b, q, sort, n, s);
      a.Done? && a.st.items == s.items && a.st.err == s.err && a.st.hasNext == s.hasNext
  {
  }

  /** On a sorted table, a query from a cursor on the last route finds nothing. */
  lemma PastTheEnd(rows: seq<Route>, b: Backend, q: SelectQuery, sort: SortExprSet, limit: uint64)
    requires SortedById(rows) && b.run == (qq => TableAnswer(rows, qq))
    requires 0 < |rows|
    ensures ScanAll(b.run, TryQuery(q, Some(RefillCursor(b, sort, rows[|rows| - 1])), limit)) == Success([])
  {
    var cur := RefillCursor(b, sort, rows[|rows| - 1]);
    var tq := TryQuery(q, Some(cur), limit);
    ScanTable(rows, tq, b);
    assert cur.keys[|cur.keys| - 1].value == rows[|rows| - 1].id;
    assert forall i :: 0 <= i < |rows| ==> rows[i].id <= rows[|rows| - 1].id;
  }

  /** A table with fewer routes than the limit: the first fetch is short, and the refill past
      its last route, when there is one, finds nothing. */
  lemma ShortSortedTable(rows: seq<Route>, b: Backend, q: SelectQuery, sort: SortExprSet, n: uint64)
    requires SortedById(rows) && b.run == (qq => TableAnswer(rows, qq))
    requires 0 < |rows| < n < MAX_UINT64
    ensures var r := RunLoop(b, q, sort, None, n);
      r.err.None? && r.items == rows && !r.hasNext
  {
    var tq := TryQuery(q, None, n);
    ScanTable(rows, tq, b);
    assert Take(rows, tq.limit) == rows;
    ShortFirstTry(rows, b, q, sort, n);
    var s := TryStep(b, q, sort, n, InitialState(None, n)).st;
    assert RunLoop(b, q, sort, None, n) == Refetch(b, q, sort, n, 1, s);
    if b.maxRefetches > 1 {
      PastTheEnd(rows, b, q, sort, s.limit);
      EmptyRefill(b, q, sort, n, s);
    }
  }

  /** A first try whose query returns nothing, or at least the limit, ends the loop with the
      first `n` routes, marking a next page exactly when there were more. */
  lemma FirstTryEnds(first: seq<Route>, b: Backend, q: SelectQuery, sort: SortExprSet, n: uint64)
    requires ScanAll(b.run, TryQuery(q, None, n)) == Success(first)
    requires n > 0 && (|first| == 0 || |first| >= n)
    ensures var a := TryStep(b, q, sort, n, InitialState(None, n));
      a.Done? && a.st.err.None? && (a.st.hasNext <==> |first| > n) &&
      a.st.items == first[..if |first| < n then |first| else n]
  {
    assert [] + first == first;
    assert first[..|first|] == first;
  }

  /** The first page of such a table, for a limit `n`: its first `n` routes (all, when fewer),
      no previous-page cursor, and a next-page cursor exactly when the table holds more than `n`
      routes. */
  lemma FirstPageOfSortedTable(rows: seq<Route>, b: Backend, q: SelectQuery, sort: SortExprSet, n: uint64)
    requires SortedById(rows) && b.run == (qq => TableAnswer(rows, qq))
    requires 0 < n < MAX_UINT64
    ensures var p := FetchFullPageSpec(b, q, sort, None, n);
      p.err.None? && p.prev.None? &&
      p.items == rows[..if |rows| < n then |rows| else n] &&
      (p.next.Some? <==> |rows| > n)
  {
    if 0 < |rows| < n {
      ShortSortedTable(rows, b, q, sort, n);
      assert rows[..|rows|] == rows;
    } else {
      var tq := TryQuery(q, None, n);
      ScanTable(rows, tq, b);
      var first := Take(rows, Some(n + 1));
      assert |rows| > n ==> |first| == n + 1 && first[..n] == rows[..n];
      assert |rows| <= n ==> first == rows;
      FirstTryEnds(first, b, q, sort, n);
      assert RunLoop(b, q, sort, None, n) == TryStep(b, q, sort, n, InitialState(None, n)).st;
    }
  }
}
