/** `queryRuns` and `countRuns`: what a prepared query returns, and that its self-check never fails. */
module QueryResults {
  import opened Base
  import opened Numbers
  import opened Sorting
  import opened AuthorityTypes
  import opened RunRecords
  import opened RunStore
  import opened RunQuery
  import opened QueryStore

  // ----- executing a prepared query

  /** `ORDER BY started_at ASC, run_id ASC` */
  predicate RowLe(a: Row, b: Row) {
    if a.startedAt == b.startedAt then StrLe(a.runId, b.runId) else StrLe(a.startedAt, b.startedAt)
  }

  const ROW_ORDER: (Row, Row) -> bool := (a, b) => RowLe(a, b)

  lemma RowOrderTotal()
    ensures TotalPreorder(ROW_ORDER)
  {
    forall a, b ensures RowLe(a, b) || RowLe(b, a) {
      StrLeTotal(a.startedAt, b.startedAt);
      StrLeTotal(a.runId, b.runId);
    }
    forall a, b, c | RowLe(a, b) && RowLe(b, c) ensures RowLe(a, c) { RowLeTransitive(a, b, c); }
  }

  lemma RowLeTransitive(a: Row, b: Row, c: Row)
    requires RowLe(a, b) && RowLe(b, c)
    ensures RowLe(a, c)
  {
    if StrLe(a.startedAt, b.startedAt) && StrLe(b.startedAt, c.startedAt) {
      StrLeTransitive(a.startedAt, b.startedAt, c.startedAt);
    }
    if a.startedAt == c.startedAt && a.startedAt != b.startedAt {
      StrLeAntisymmetric(a.startedAt, b.startedAt);
    }
    if a.startedAt == b.startedAt == c.startedAt {
      StrLeTransitive(a.runId, b.runId, c.runId);
    }
  }

  /** The rows that the WHERE part keeps. */
  function Selected(table: seq<Row>, where: Fragment): (rows: seq<Row>)
    requires Aligned(where)
  {
    if table == [] then []
    else
      var last := table[|table| - 1];
      Selected(table[..|table| - 1], where) + if Selects(where, last) == True then [last] else []
  }

  function TailPlaceholders(tail: Tail): nat {
    (if tail.limit == LimitPlaceholder then 1 else 0) + if tail.offset then 1 else 0
  }

  predicate IsCount(v: Value) {
    v.Number? && v.number >= 0.0 && v.number == v.number.Floor as real
  }

  function Drop<T>(s: seq<T>, n: nat): seq<T> {
    if n <= |s| then s[n..] else []
  }

  function Take<T>(s: seq<T>, n: nat): seq<T> {
    if n <= |s| then s[..n] else s
  }

  /** The rows that LIMIT and OFFSET leave, reading their arguments left to right; `None` for malformed arguments. */
  function Page(rows: seq<Row>, tail: Tail, args: seq<Value>): Option<seq<Row>>
    requires |args| == TailPlaceholders(tail)
  {
    if exists i :: 0 <= i < |args| && !IsCount(args[i]) then None
    else
      var rest := if tail.offset then Drop(rows, args[|args| - 1].number.Floor) else rows;
      Some(if tail.limit == LimitPlaceholder then Take(rest, args[0].number.Floor) else rest)
  }

  /** Running a query; the driver refuses a binding count that differs from the placeholder count. */
  function RunSql(sql: Sql, bindings: seq<Value>, table: seq<Row>): Option<seq<Row>> {
    var n := TotalPlaceholders(sql.clauses);
    if |bindings| != n + TailPlaceholders(sql.tail) then None
    else Page(Sort(Selected(table, Fragment(sql.clauses, bindings[..n])), ROW_ORDER), sql.tail, bindings[n..])
  }

  function LoadAll(rows: seq<Row>): Option<seq<RunRecord>> {
    if rows == [] then Some([])
    else
      var front := LoadAll(rows[..|rows| - 1]);
      var last := Load(rows[|rows| - 1]);
      if front.None? || last.None? then None else Some(front.value + [last.value])
  }

  /** The self-check of `queryRuns`. */
  predicate AllMatch(records: seq<RunRecord>, filter: RunFilter) {
    forall i :: 0 <= i < |records| ==> MatchesQuery(records[i], filter)
  }

  /** `queryRuns`; `None` when it throws. */
  function QueryRuns(table: seq<Row>, filter: RunFilter): Option<seq<RunRecord>> {
    var prepared := Prepared(filter, false);
    var rows := RunSql(prepared.sql, prepared.bindings, table);
    if rows.None? then None
    else
      var records := LoadAll(rows.value);
      if records.None? || !AllMatch(records.value, filter) then None else records
  }

  /** `countRuns`; `None` when it throws. */
  function CountRuns(table: seq<Row>, filter: RunFilter): Option<nat> {
    var prepared := Prepared(filter, true);
    var rows := RunSql(prepared.sql, prepared.bindings, table);
    if rows.None? then None else Some(|rows.value|)
  }

  // ----- the reference: filter the records, sort, cut out the page

  ghost predicate Written(table: seq<Row>) {
    forall i :: 0 <= i < |table| ==> WrittenSomehow(table[i])
  }

  /** The row was written by a save or by the migration. */
  ghost predicate WrittenSomehow(row: Row) {
    exists source :: WrittenFrom(row, row.runId, source)
  }

  /** The rows whose record matches the filter. */
  function Matching(table: seq<Row>, filter: RunFilter): seq<Row> {
    if table == [] then []
    else
      var last := table[|table| - 1];
      Matching(table[..|table| - 1], filter) +
      if Load(last).Some? && MatchesQuery(Load(last).value, filter) then [last] else []
  }

  function PageOf(rows: seq<Row>, filter: RunFilter): seq<Row> {
    var rest := if filter.offset.Some? then Drop(rows, filter.offset.value) else rows;
    if filter.limit.Some? then Take(rest, filter.limit.value) else rest
  }

  function Records(rows: seq<Row>): (records: seq<RunRecord>)
    requires forall i :: 0 <= i < |rows| ==> Load(rows[i]).Some?
    ensures |records| == |rows|
    ensures forall i :: 0 <= i < |rows| ==> records[i] == Load(rows[i]).value
  {
    seq(|rows|, i requires 0 <= i < |rows| => Load(rows[i]).value)
  }

  lemma WrittenRowAgrees(row: Row, filter: RunFilter)
    requires WrittenSomehow(row)
    ensures Load(row).Some? && Aligned(WhereOf(filter))
    ensures Selects(WhereOf(filter), row) == True <==> MatchesQuery(Load(row).value, filter)
  {
    var source :| WrittenFrom(row, row.runId, source);
    WrittenColumnsAgree(row, row.runId, source);
    CompiledFilterAgrees(row, Load(row).value, filter);
  }

  lemma {:induction false} SelectedMatches(table: seq<Row>, filter: RunFilter)
    requires Written(table)
    ensures Aligned(WhereOf(filter)) && Selected(table, WhereOf(filter)) == Matching(table, filter)
    ensures forall row :: row in Matching(table, filter) ==> Load(row).Some? && MatchesQuery(Load(row).value, filter)
  {
    if table == [] {
      forall row { WhereMeans(row, filter); }
    } else {
      var front, last := table[..|table| - 1], table[|table| - 1];
      SelectedMatches(front, filter);
      WrittenRowAgrees(last, filter);
    }
  }

  lemma WhereAligned(filter: RunFilter)
    ensures Aligned(WhereOf(filter))
  {
    PartsAligned(filter);
    JoinAllAligned(Parts(filter));
  }

  lemma OneClauseAligned(clause: Clause, args: seq<Value>)
    requires |args| == Placeholders(clause)
    ensures Aligned(Fragment([clause], args))
  {
    assert [clause][1..] == [];
  }

  lemma ArrayAligned(column: Column, values: Option<seq<Value>>)
    ensures Aligned(ArrayFragment(column, values))
  {
    if values.Some? {
      OneClauseAligned(Never, []);
      OneClauseAligned(In(column, |values.value|), values.value);
    }
  }

  lemma SingleAligned(column: Column, operator: Operator, value: Option<Value>)
    ensures Aligned(ExactFragment(column, value)) && Aligned(CompareFragment(column, operator, value))
  {
    if value.Some? {
      OneClauseAligned(Equals(column), [value.value]);
      OneClauseAligned(Compare(column, operator), [value.value]);
    }
  }

  lemma {:induction false} PluralPartsAligned(filter: RunFilter, n: nat)
    requires n <= |PLURAL|
    ensures AllAligned(PluralParts(filter, n))
  {
    if n > 0 {
      PluralPartsAligned(filter, n - 1);
      ArrayAligned(PLURAL[n - 1], PluralValues(filter, PLURAL[n - 1]));
    }
  }

  lemma PartsAligned(filter: RunFilter)
    ensures AllAligned(Parts(filter))
  {
    PluralPartsAligned(filter, |PLURAL|);
    OneClauseAligned(IsEligible, []);
    OneClauseAligned(IsNotEligible, []);
    SingleAligned(SimulatedColumn, AtLeast, FlagValue(filter.simulated));
    SingleAligned(StartedAt, AtLeast, TextValue(filter.fromDate));
    SingleAligned(StartedAt, AtMost, TextValue(filter.toDate));
    SingleAligned(PassedBenchmark, AtLeast, FlagValue(filter.passedBenchmark));
    SingleAligned(CompositeScore, AtLeast, NumberValue(filter.minScore));
    SingleAligned(CompositeScore, AtMost, NumberValue(filter.maxScore));
  }

  lemma {:induction false} JoinAllAligned(parts: seq<Fragment>)
    requires AllAligned(parts)
    ensures Aligned(JoinAll(parts))
  {
    if parts != [] {
      JoinAllAligned(parts[..|parts| - 1]);
      PlaceholdersConcat(JoinAll(parts[..|parts| - 1]).clauses, parts[|parts| - 1].clauses);
    }
  }

  lemma {:induction false} PlaceholdersConcat(a: seq<Clause>, b: seq<Clause>)
    ensures TotalPlaceholders(a + b) == TotalPlaceholders(a) + TotalPlaceholders(b)
  {
    if a == [] {
      assert a + b == b;
    } else {
      PlaceholdersConcat(a[1..], b);
      assert (a + b)[1..] == a[1..] + b;
    }
  }

  /** Placeholder and binding counts agree in every form of the query, and the tail reads its own bindings. */
  lemma PreparedAligned(filter: RunFilter, count: bool)
    ensures var p := Prepared(filter, count); var n := TotalPlaceholders(p.sql.clauses);
      && |p.bindings| == n + TailPlaceholders(p.sql.tail)
      && Fragment(p.sql.clauses, p.bindings[..n]) == WhereOf(filter)
      && p.bindings[n..] == TailBindings(filter, count)
  {
    WhereAligned(filter);
  }

  lemma PageMeans(rows: seq<Row>, filter: RunFilter)
    ensures |TailBindings(filter, false)| == TailPlaceholders(TailOf(filter, false))
    ensures Page(rows, TailOf(filter, false), TailBindings(filter, false)) == Some(PageOf(rows, filter))
  {}

  lemma {:induction false} LoadAllRecords(rows: seq<Row>)
    requires forall i :: 0 <= i < |rows| ==> Load(rows[i]).Some?
    ensures LoadAll(rows) == Some(Records(rows))
  {
    if rows != [] {
      LoadAllRecords(rows[..|rows| - 1]);
      assert Records(rows) == Records(rows[..|rows| - 1]) + [Load(rows[|rows| - 1]).value];
    }
  }

  lemma PageElements(rows: seq<Row>, filter: RunFilter)
    ensures forall row :: row in PageOf(rows, filter) ==> row in rows
  {}

  /** The page of matching rows, in order. */
  function Reference(table: seq<Row>, filter: RunFilter): seq<Row> {
    PageOf(Sort(Matching(table, filter), ROW_ORDER), filter)
  }

  lemma SortedElements(rows: seq<Row>)
    ensures forall row :: row in Sort(rows, ROW_ORDER) ==> row in rows
  {
    RowOrderTotal();
    SortCorrect(rows, ROW_ORDER);
    forall row | row in Sort(rows, ROW_ORDER)
      ensures row in rows
    {
      assert row in multiset(Sort(rows, ROW_ORDER));
    }
  }

  lemma ReferenceMatches(table: seq<Row>, filter: RunFilter)
    requires Written(table)
    ensures forall row :: row in Reference(table, filter) ==> Load(row).Some? && MatchesQuery(Load(row).value, filter)
  {
    SelectedMatches(table, filter);
    SortedElements(Matching(table, filter));
    PageElements(Sort(Matching(table, filter), ROW_ORDER), filter);
  }

  lemma RunSqlMeans(table: seq<Row>, filter: RunFilter)
    requires Written(table)
    ensures RunSql(Prepared(filter, false).sql, Prepared(filter, false).bindings, table)
            == Some(Reference(table, filter))
    ensures CountRuns(table, filter) == Some(|Matching(table, filter)|)
  {
    SelectedMatches(table, filter);
    PreparedAligned(filter, false);
    PreparedAligned(filter, true);
    PageMeans(Sort(Matching(table, filter), ROW_ORDER), filter);
  }

  /**
   * On a store of saved and migrated rows a query returns exactly the page of the matching records in order; it never
   * throws, so the re-check inside it is unreachable, and the count is the number of matching records.
   */
  lemma QueryExact(table: seq<Row>, filter: RunFilter)
    requires Written(table)
    ensures forall i :: 0 <= i < |Reference(table, filter)| ==> Load(Reference(table, filter)[i]).Some?
    ensures QueryRuns(table, filter) == Some(Records(Reference(table, filter)))
    ensures CountRuns(table, filter) == Some(|Matching(table, filter)|)
  {
    ReferenceMatches(table, filter);
    RunSqlMeans(table, filter);
    var rows := Reference(table, filter);
    LoadAllRecords(rows);
    assert AllMatch(Records(rows), filter) by {
      forall i | 0 <= i < |rows| ensures MatchesQuery(Records(rows)[i], filter) { assert rows[i] in rows; }
    }
  }

  lemma ReferenceInOrder(table: seq<Row>, filter: RunFilter, i: nat, j: nat)
    requires i < j < |Reference(table, filter)|
    ensures RowLe(Reference(table, filter)[i], Reference(table, filter)[j])
  {
    var sorted := Sort(Matching(table, filter), ROW_ORDER);
    RowOrderTotal();
    SortCorrect(Matching(table, filter), ROW_ORDER);
    var from := PageIsSlice(sorted, filter);
    assert Reference(table, filter)[i] == sorted[from..][i] && Reference(table, filter)[j] == sorted[from..][j];
    assert ROW_ORDER(sorted[from + i], sorted[from + j]);
  }

  lemma LoadKeepsOrder(row: Row, later: Row)
    requires Load(row).Some? && Load(later).Some? && RowLe(row, later)
    ensures
      var a, b := Load(row).value, Load(later).value;
      StrLe(a.startedAt, b.startedAt) && (a.startedAt == b.startedAt ==> StrLe(a.runId, b.runId))
  {
    StrLeTotal(row.startedAt, row.startedAt);
  }

  /** The records of a page come oldest first, and in the order of their identifiers when they started together. */
  lemma QueryInOrder(table: seq<Row>, filter: RunFilter, i: nat, j: nat)
    requires Written(table) && QueryRuns(table, filter).Some? && i < j < |QueryRuns(table, filter).value|
    ensures
      var records := QueryRuns(table, filter).value;
      && StrLe(records[i].startedAt, records[j].startedAt)
      && (records[i].startedAt == records[j].startedAt ==> StrLe(records[i].runId, records[j].runId))
  {
    QueryExact(table, filter);
    ReferenceInOrder(table, filter, i, j);
    LoadKeepsOrder(Reference(table, filter)[i], Reference(table, filter)[j]);
  }

  /** A page skips `offset` rows, as far as there are any, and holds the next `limit`. */
  lemma PageIsSlice(rows: seq<Row>, filter: RunFilter) returns (from: nat)
    ensures from == if filter.offset.Some? && filter.offset.value < |rows| then filter.offset.value
                    else if filter.offset.Some? then |rows| else 0
    ensures PageOf(rows, filter) <= rows[from..]
    ensures |PageOf(rows, filter)|
            == if filter.limit.Some? && filter.limit.value < |rows| - from then filter.limit.value else |rows| - from
  {
    from := if filter.offset.Some? then (if filter.offset.value < |rows| then filter.offset.value else |rows|) else 0;
  }

  /** A query without limit and offset returns every row whose record matches, as often as the table holds it. */
  lemma QueryComplete(table: seq<Row>, filter: RunFilter, row: Row)
    requires Written(table) && filter.limit == None && filter.offset == None
    ensures Load(row).Some? ==>
            multiset(Reference(table, filter))[row]
            == if MatchesQuery(Load(row).value, filter) then multiset(table)[row] else 0
  {
    RowOrderTotal();
    SortCorrect(Matching(table, filter), ROW_ORDER);
    MatchingCounts(table, filter, row);
  }

  lemma {:induction false} MatchingCounts(table: seq<Row>, filter: RunFilter, row: Row)
    ensures multiset(Matching(table, filter))[row]
            == if Load(row).Some? && MatchesQuery(Load(row).value, filter) then multiset(table)[row] else 0
  {
    if table != [] {
      MatchingCounts(table[..|table| - 1], filter, row);
      CountSnoc(table, row);
      CountAppend(Matching(table[..|table| - 1], filter), table[|table| - 1], row);
    }
  }

  lemma CountSnoc<T>(s: seq<T>, x: T)
    requires s != []
    ensures multiset(s)[x] == multiset(s[..|s| - 1])[x] + if s[|s| - 1] == x then 1 else 0
  {
    assert s == s[..|s| - 1] + [s[|s| - 1]];
  }

  lemma CountAppend<T>(s: seq<T>, y: T, x: T)
    ensures multiset(s + [y])[x] == multiset(s)[x] + (if y == x then 1 else 0)
    ensures s + [] == s
  {}

  /** The rows of a valid store, in any order, are such a table. */
  lemma StoreRowsWritten(store: ReportingStore, table: seq<Row>)
    requires store.Valid()
    requires forall i :: 0 <= i < |table| ==> table[i].runId in store.runs && store.runs[table[i].runId] == table[i]
    ensures Written(table)
  {
    forall i | 0 <= i < |table|
      ensures WrittenSomehow(table[i])
    {
      assert WrittenFrom(table[i], table[i].runId, store.origin[table[i].runId]);
    }
  }
}
