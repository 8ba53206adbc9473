/** Filters, keyset search and paging of the request log: app/db.py and app/main.py. */
module RequestLog {
  import opened Common
  import opened Ordering
  import opened StatusSql

  /** A row of request_stats joined with its payload, which may have aged out. */
  datatype Row = Row(id: int, timestamp: real, model: string, provider: Option<string>,
                     status: Option<int>, wait: Option<int>, payload: Option<string>)

  /** Empty strings filter nothing; a status without a condition is ignored. */
  datatype Filters = Filters(start: Option<real>, end: Option<real>, model: string, status: Option<Status>, search: string, provider: string)

  datatype Clause =
    | Before(id: int)
    | From(start: real)
    | Until(end: real)
    | ModelIs(model: string)
    | ProviderIs(provider: string)
    | StatusIs(status: Status)
    | PayloadLike(text: string)

  /** `like` is SQL's ILIKE with the text between percent signs. */
  function Holds(like: (string, string) -> bool, clause: Clause, row: Row): Truth {
    match clause
    case Before(id) => Is(row.id < id)
    case From(start) => Is(row.timestamp >= start)
    case Until(end) => Is(row.timestamp <= end)
    case ModelIs(model) => Is(row.model == model)
    case ProviderIs(provider) => if row.provider.None? then Unknown else Is(row.provider.value == provider)
    case StatusIs(status) => Condition(status, row.status, row.wait)
    case PayloadLike(text) => if row.payload.None? then Unknown else Is(like(row.payload.value, text))
  }

  /** The conjunction of a WHERE clause; without conditions every row qualifies. */
  function HoldAll(like: (string, string) -> bool, clauses: seq<Clause>, row: Row): Truth {
    if clauses == [] then Yes
    else And(HoldAll(like, clauses[..|clauses| - 1], row), Holds(like, clauses[|clauses| - 1], row))
  }

  predicate InPeriod(f: Filters, row: Row) {
    (f.start.Some? ==> row.timestamp >= f.start.value) && (f.end.Some? ==> row.timestamp <= f.end.value)
  }

  predicate OfOrigin(f: Filters, row: Row) {
    (f.model != "" ==> row.model == f.model) && (f.provider != "" ==> row.provider == Some(f.provider))
  }

  predicate OfContent(like: (string, string) -> bool, f: Filters, row: Row) {
    && (f.status.Some? ==> Condition(f.status.value, row.status, row.wait).Yes?)
    && (f.search != "" ==> row.payload.Some? && like(row.payload.value, f.search))
  }

  /** What a user means by the filters. */
  predicate Matches(like: (string, string) -> bool, f: Filters, row: Row) {
    InPeriod(f, row) && OfOrigin(f, row) && OfContent(like, f, row)
  }

  predicate Below(before: Option<int>, row: Row) {
    before.Some? ==> row.id < before.value
  }

  function KeyClauses(before: Option<int>): seq<Clause> {
    if before.Some? then [Before(before.value)] else []
  }

  function PeriodClauses(f: Filters, c: seq<Clause>): seq<Clause> {
    var d := if f.start.Some? then c + [From(f.start.value)] else c;
    if f.end.Some? then d + [Until(f.end.value)] else d
  }

  function OriginClauses(f: Filters, c: seq<Clause>): seq<Clause> {
    var d := if f.model != "" then c + [ModelIs(f.model)] else c;
    if f.provider != "" then d + [ProviderIs(f.provider)] else d
  }

  function ContentClauses(f: Filters, c: seq<Clause>): seq<Clause> {
    var d := if f.status.Some? then c + [StatusIs(f.status.value)] else c;
    if f.search != "" then d + [PayloadLike(f.search)] else d
  }

  function Where(f: Filters, before: Option<int>): seq<Clause> {
    ContentClauses(f, OriginClauses(f, PeriodClauses(f, KeyClauses(before))))
  }

  /** _build_where */
  method BuildWhere(f: Filters, before: Option<int>) returns (clauses: seq<Clause>)
    ensures clauses == Where(f, before)
  {
    clauses := [];
    if before.Some? {
      clauses := [Before(before.value)];
    }
    if f.start.Some? {
      clauses := clauses + [From(f.start.value)];
    }
    if f.end.Some? {
      clauses := clauses + [Until(f.end.value)];
    }
    if f.model != "" {
      clauses := clauses + [ModelIs(f.model)];
    }
    if f.provider != "" {
      clauses := clauses + [ProviderIs(f.provider)];
    }
    if f.status.Some? {
      clauses := clauses + [StatusIs(f.status.value)];
    }
    if f.search != "" {
      clauses := clauses + [PayloadLike(f.search)];
    }
  }

  lemma OneMoreClause(like: (string, string) -> bool, clauses: seq<Clause>, clause: Clause, row: Row)
    ensures HoldAll(like, clauses + [clause], row).Yes? <==> HoldAll(like, clauses, row).Yes? && Holds(like, clause, row).Yes?
  {
    assert (clauses + [clause])[..|clauses|] == clauses;
  }

  lemma KeySelects(like: (string, string) -> bool, before: Option<int>, row: Row)
    ensures HoldAll(like, KeyClauses(before), row).Yes? <==> Below(before, row)
  {
    if before.Some? {
      assert [] + [Before(before.value)] == KeyClauses(before);
      OneMoreClause(like, [], Before(before.value), row);
    }
  }

  lemma PeriodSelects(like: (string, string) -> bool, f: Filters, c: seq<Clause>, row: Row)
    ensures HoldAll(like, PeriodClauses(f, c), row).Yes? <==> HoldAll(like, c, row).Yes? && InPeriod(f, row)
  {
    var d := if f.start.Some? then c + [From(f.start.value)] else c;
    if f.start.Some? {
      OneMoreClause(like, c, From(f.start.value), row);
    }
    if f.end.Some? {
      OneMoreClause(like, d, Until(f.end.value), row);
    }
  }

  lemma OriginSelects(like: (string, string) -> bool, f: Filters, c: seq<Clause>, row: Row)
    ensures HoldAll(like, OriginClauses(f, c), row).Yes? <==> HoldAll(like, c, row).Yes? && OfOrigin(f, row)
  {
    var d := if f.model != "" then c + [ModelIs(f.model)] else c;
    if f.model != "" {
      OneMoreClause(like, c, ModelIs(f.model), row);
    }
    assert HoldAll(like, d, row).Yes? <==> HoldAll(like, c, row).Yes? && (f.model != "" ==> row.model == f.model);
    if f.provider != "" {
      OneMoreClause(like, d, ProviderIs(f.provider), row);
    }
  }

  lemma ContentSelects(like: (string, string) -> bool, f: Filters, c: seq<Clause>, row: Row)
    ensures HoldAll(like, ContentClauses(f, c), row).Yes? <==> HoldAll(like, c, row).Yes? && OfContent(like, f, row)
  {
    var d := if f.status.Some? then c + [StatusIs(f.status.value)] else c;
    if f.status.Some? {
      OneMoreClause(like, c, StatusIs(f.status.value), row);
    }
    if f.search != "" {
      OneMoreClause(like, d, PayloadLike(f.search), row);
    }
  }

  /** The conditions select exactly the rows below `before` that match; NULLs match nothing. */
  lemma WhereSelects(like: (string, string) -> bool, f: Filters, before: Option<int>, row: Row)
    ensures HoldAll(like, Where(f, before), row).Yes? <==> Below(before, row) && Matches(like, f, row)
  {
    var keys := KeyClauses(before);
    var periods := PeriodClauses(f, keys);
    KeySelects(like, before, row);
    PeriodSelects(like, f, keys, row);
    OriginSelects(like, f, periods, row);
    ContentSelects(like, f, OriginClauses(f, periods), row);
  }

  // ---------------------------------------------------------------- the query

  function IdOf(row: Row): int {
    row.id
  }

  /** The rows below `before` that are to be kept, newest first. */
  function Select(keep: Row -> bool, table: seq<Row>, before: Option<int>): seq<Row> {
    if table == [] then []
    else
      var (init, last) := (Select(keep, table[..|table| - 1], before), table[|table| - 1]);
      if Below(before, last) && keep(last) then [last] + init else init
  }

  /** SELECT ... WHERE clauses ORDER BY id DESC */
  function Query(like: (string, string) -> bool, clauses: seq<Clause>, table: seq<Row>): seq<Row> {
    if table == [] then []
    else
      var (init, last) := (Query(like, clauses, table[..|table| - 1]), table[|table| - 1]);
      if HoldAll(like, clauses, last).Yes? then [last] + init else init
  }

  function Meaning(like: (string, string) -> bool, f: Filters): Row -> bool {
    row => Matches(like, f, row)
  }

  /** The query that is built answers what the filters mean. */
  lemma {:induction false} QueryMeansSelect(like: (string, string) -> bool, f: Filters, before: Option<int>, table: seq<Row>)
    ensures Query(like, Where(f, before), table) == Select(Meaning(like, f), table, before)
  {
    if table == [] {
    } else {
      QueryMeansSelect(like, f, before, table[..|table| - 1]);
      WhereSelects(like, f, before, table[|table| - 1]);
    }
  }

  /** The answer holds exactly the kept rows below `before`. */
  lemma {:induction false} SelectIsExact(keep: Row -> bool, table: seq<Row>, before: Option<int>, row: Row)
    ensures row in Select(keep, table, before) <==> row in table && Below(before, row) && keep(row)
  {
    if table == [] {
    } else {
      var init, last := table[..|table| - 1], table[|table| - 1];
      SelectIsExact(keep, init, before, row);
      assert row in table <==> row in init || row == last;
    }
  }

  lemma {:induction false} SelectedBelow(keep: Row -> bool, table: seq<Row>, before: Option<int>, bound: int)
    requires forall row <- table :: row.id < bound
    ensures forall row <- Select(keep, table, before) :: row.id < bound
  {
    if table == [] {
    } else {
      SelectedBelow(keep, table[..|table| - 1], before, bound);
    }
  }

  ghost predicate Descending(rows: seq<Row>) {
    forall i, j | 0 <= i < j < |rows| :: rows[i].id > rows[j].id
  }

  lemma DescendingPush(last: Row, rows: seq<Row>)
    requires Descending(rows) && forall row <- rows :: row.id < last.id
    ensures Descending([last] + rows)
  {
    forall i, j | 0 <= i < j < |rows| + 1
      ensures ([last] + rows)[i].id > ([last] + rows)[j].id
    {
      assert rows[j - 1] in rows;
    }
  }

  /** The answer is in descending id order, so no row comes twice. */
  lemma {:induction false} SelectDescends(keep: Row -> bool, table: seq<Row>, before: Option<int>)
    requires Ascending(table, IdOf)
    ensures Descending(Select(keep, table, before))
  {
    if table == [] {
    } else {
      SelectDescends(keep, table[..|table| - 1], before);
      SelectedBelow(keep, table[..|table| - 1], before, table[|table| - 1].id);
      DescendingPush(table[|table| - 1], Select(keep, table[..|table| - 1], before));
    }
  }

  lemma {:induction false} AllBelow(keep: Row -> bool, table: seq<Row>, before: int)
    requires forall row <- table :: row.id < before
    ensures Select(keep, table, Some(before)) == Select(keep, table, None)
  {
    if table == [] {
    } else {
      AllBelow(keep, table[..|table| - 1], before);
    }
  }

  /** Asking below the last row of a page continues where the page ended. */
  lemma {:induction false} NextPageContinues(keep: Row -> bool, table: seq<Row>, n: nat)
    requires Ascending(table, IdOf) && 0 < n <= |Select(keep, table, None)|
    ensures var rows := Select(keep, table, None);
            Select(keep, table, Some(rows[n - 1].id)) == rows[n..]
  {
    var init, last := table[..|table| - 1], table[|table| - 1];
    var older, m := Select(keep, init, None), if keep(last) then n - 1 else n;
    SelectedBelow(keep, init, None, last.id);
    if m == 0 {
      AllBelow(keep, init, last.id);
    } else {
      assert older[m - 1] in older;
      NextPageContinues(keep, init, m);
    }
  }

  /** Rows inserted later do not show up below an older row. */
  lemma {:induction false} LaterRowsStayAbove(keep: Row -> bool, table: seq<Row>, n: nat, before: int)
    requires n <= |table| && forall i | n <= i < |table| :: table[i].id >= before
    ensures Select(keep, table, Some(before)) == Select(keep, table[..n], Some(before))
    decreases |table|
  {
    if n < |table| {
      var init := table[..|table| - 1];
      assert init[..n] == table[..n];
      LaterRowsStayAbove(keep, init, n, before);
    } else {
      assert table[..n] == table;
    }
  }

  // ---------------------------------------------------------------- the endpoint and its client

  datatype Page = Page(requests: seq<Row>, hasMore: bool, totalMatching: nat)

  function Limit(rows: seq<Row>, limit: nat): seq<Row> {
    if |rows| <= limit then rows else rows[..limit]
  }

  /** api_search_requests */
  method SearchRequests(like: (string, string) -> bool, table: seq<Row>, f: Filters, before: Option<int>, limit: nat) returns (page: Page)
    ensures page == var rows := Limit(Select(Meaning(like, f), table, before), limit);
                    Page(rows, |rows| == limit, |Select(Meaning(like, f), table, None)|)
  {
    var where := BuildWhere(f, before);
    var rows := Limit(Query(like, where, table), limit);
    QueryMeansSelect(like, f, before, table);
    var whole := BuildWhere(f, None);
    QueryMeansSelect(like, f, None, table);
    page := Page(rows, |rows| == limit, |Query(like, whole, table)|);
  }

  /** Between the queries the table only grows, at the top. */
  ghost predicate OnlyInserts(tables: nat -> seq<Row>) {
    forall k :: Ascending(tables(k), IdOf) && tables(0) <= tables(k)
  }

  lemma PageIsNext(wanted: seq<Row>, seen: seq<Row>, page: seq<Row>, limit: nat)
    requires seen <= wanted && page == Limit(wanted[|seen|..], limit)
    ensures seen + page <= wanted
    ensures |page| != limit ==> seen + page == wanted
  {
    assert wanted == seen + wanted[|seen|..];
  }

  lemma Continues(keep: Row -> bool, tables: nat -> seq<Row>, k: nat, n: nat)
    requires OnlyInserts(tables) && 0 < n <= |Select(keep, tables(0), None)|
    ensures var wanted := Select(keep, tables(0), None);
            Select(keep, tables(k), Some(wanted[n - 1].id)) == wanted[n..]
  {
    var first, now, wanted := tables(0), tables(k), Select(keep, tables(0), None);
    NextPageContinues(keep, first, n);
    assert wanted[n - 1] in wanted;
    SelectIsExact(keep, first, None, wanted[n - 1]);
    var at :| 0 <= at < |first| && first[at] == wanted[n - 1];
    assert now[at] == first[at] && now[..|first|] == first;
    LaterRowsStayAbove(keep, now, |first|, wanted[n - 1].id);
  }

  /** Following before_id until has_more is false, while rows may be inserted between the queries:
      `tables(k)` is the table at query k. What the client has seen in the end is exactly what matched
      at the first query, each row once, newest first, as many as total_matching said then. */
  method Browse(like: (string, string) -> bool, tables: nat -> seq<Row>, f: Filters, limit: nat) returns (seen: seq<Row>, total: nat)
    requires 0 < limit && OnlyInserts(tables)
    ensures seen == Select(Meaning(like, f), tables(0), None) && total == |seen|
  {
    ghost var keep := Meaning(like, f);
    ghost var wanted := Select(keep, tables(0), None);
    var page := SearchRequests(like, tables(0), f, None, limit);
    seen, total := page.requests, page.totalMatching;
    var k := 1;
    while page.hasMore
      invariant seen <= wanted && total == |wanted|
      invariant page.hasMore ==> seen != []
      invariant !page.hasMore ==> seen == wanted
      decreases |wanted| - |seen|, page.hasMore
    {
      Continues(keep, tables, k, |seen|);
      page := SearchRequests(like, tables(k), f, Some(seen[|seen| - 1].id), limit);
      PageIsNext(wanted, seen, page.requests, limit);
      seen, k := seen + page.requests, k + 1;
    }
  }
}
