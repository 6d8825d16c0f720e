/** `createPreparedRunQuery`: a filter compiled to WHERE clauses with positional bindings. */
module RunQuery {
  import opened Base
  import opened Numbers
  import opened AuthorityTypes
  import opened RunRecords

  /** A normalized `RunQueryFilter`; `authority` is `Some(true)` for "eligible" and `Some(false)` for "diagnostic". */
  datatype RunFilter = RunFilter(
    scenarioIds: Option<seq<string>>, categories: Option<seq<string>>, skillIds: Option<seq<string>>,
    modelIds: Option<seq<string>>, providerIds: Option<seq<string>>, statuses: Option<seq<Lifecycle>>,
    executionModes: Option<seq<ExecutionMode>>, simulated: Option<bool>, authority: Option<bool>,
    benchmarkCohorts: Option<seq<Cohort>>, eligibilityStatuses: Option<seq<EligibilityStatus>>,
    evaluationStatuses: Option<seq<EvaluationStatus>>, evidenceStatuses: Option<seq<EvidenceStatus>>,
    fromDate: Option<string>, toDate: Option<string>, passedBenchmark: Option<bool>,
    minScore: Option<real>, maxScore: Option<real>, limit: Option<nat>, offset: Option<nat>)

  // ----- the little SQL

  /** SQL values; each status text is a value of its own. */
  datatype Value =
    | Text(text: string) | Number(number: real)
    | RunStatusText(lifecycle: Lifecycle) | ModeText(mode: ExecutionMode) | CohortText(cohort: Cohort)
    | EligibilityText(eligibility: EligibilityStatus)
    | EvaluationText(evaluation: EvaluationStatus) | EvidenceText(evidence: EvidenceStatus)

  datatype Column =
    | ScenarioId | Category | SkillId | ModelId | ProviderId | RunStatus | ExecutionModeColumn | BenchmarkCohort
    | Eligibility | EvaluationStatusColumn | EvidenceStatusColumn | SimulatedColumn | StartedAt
    | PassedBenchmark | CompositeScore

  datatype Operator = AtLeast | AtMost

  datatype Clause =
    | Never
    | In(column: Column, placeholders: nat)
    | Equals(column: Column)
    | Compare(column: Column, operator: Operator)
    | IsEligible
    | IsNotEligible

  datatype Truth = True | False | Unknown

  function And(a: Truth, b: Truth): Truth {
    if a == False || b == False then False else if a == True && b == True then True else Unknown
  }

  function Known(b: bool): Truth {
    if b then True else False
  }

  function NumberCell(n: Option<Num>): Option<Value> {
    if n.Some? && n.value.Fin? then Some(Number(n.value.v)) else None
  }

  /** The value of a column; `None` is NULL. */
  function Cell(row: Row, column: Column): Option<Value> {
    match column
    case ScenarioId => Some(Text(row.scenarioId))
    case Category => Some(Text(row.category))
    case SkillId => Some(Text(row.skillId))
    case ModelId => Some(Text(row.modelId))
    case ProviderId => Some(Text(row.providerId))
    case RunStatus => Some(RunStatusText(row.status))
    case ExecutionModeColumn => Some(ModeText(row.executionMode))
    case BenchmarkCohort => Some(CohortText(row.benchmarkCohort))
    case Eligibility => Some(EligibilityText(row.eligibilityStatus))
    case EvaluationStatusColumn => Some(EvaluationText(row.evaluationStatus))
    case EvidenceStatusColumn => Some(EvidenceText(row.evidenceStatus))
    case SimulatedColumn => Some(Number(row.simulated as real))
    case StartedAt => Some(Text(row.startedAt))
    case PassedBenchmark => if row.passedBenchmark.Some? then Some(Number(row.passedBenchmark.value as real)) else None
    case CompositeScore => NumberCell(row.compositeScore)
  }

  function Placeholders(clause: Clause): nat {
    match clause
    case In(_, n) => n
    case Equals(_) => 1
    case Compare(_, _) => 1
    case _ => 0
  }

  predicate Ordered(a: Value, operator: Operator, b: Value) {
    match (a, b)
    case (Text(s), Text(t)) => if operator == AtLeast then StrLe(t, s) else StrLe(s, t)
    case (Number(x), Number(y)) => if operator == AtLeast then x >= y else x <= y
    case _ => false
  }

  /** Evaluates one clause on a row, given the arguments for its placeholders. */
  function EvalClause(clause: Clause, args: seq<Value>, row: Row): Truth
    requires |args| == Placeholders(clause)
  {
    match clause
    case Never => False
    case In(column, _) => var cell := Cell(row, column); if cell.None? then Unknown else Known(cell.value in args)
    case Equals(column) => var cell := Cell(row, column); if cell.None? then Unknown else Known(cell.value == args[0])
    case Compare(column, operator) =>
      var cell := Cell(row, column); if cell.None? then Unknown else Known(Ordered(cell.value, operator, args[0]))
    case IsEligible => Known(row.eligibilityStatus == Eligible)
    case IsNotEligible => Known(row.eligibilityStatus != Eligible)
  }

  function TotalPlaceholders(clauses: seq<Clause>): nat {
    if clauses == [] then 0 else Placeholders(clauses[0]) + TotalPlaceholders(clauses[1..])
  }

  /** The conjunction of the clauses, which take their arguments from the bindings left to right. */
  function EvalWhere(clauses: seq<Clause>, bindings: seq<Value>, row: Row): Truth
    requires |bindings| == TotalPlaceholders(clauses)
  {
    if clauses == [] then True
    else
      var n := Placeholders(clauses[0]);
      And(EvalClause(clauses[0], bindings[..n], row), EvalWhere(clauses[1..], bindings[n..], row))
  }

  // ----- fragments: clauses together with the bindings they consume

  datatype Fragment = Fragment(clauses: seq<Clause>, bindings: seq<Value>)

  predicate Aligned(f: Fragment) {
    |f.bindings| == TotalPlaceholders(f.clauses)
  }

  function Join(f: Fragment, g: Fragment): Fragment {
    Fragment(f.clauses + g.clauses, f.bindings + g.bindings)
  }

  const EMPTY: Fragment := Fragment([], [])

  function Selects(f: Fragment, row: Row): Truth
    requires Aligned(f)
  {
    EvalWhere(f.clauses, f.bindings, row)
  }

  lemma AndAssociative(a: Truth, b: Truth, c: Truth)
    ensures And(And(a, b), c) == And(a, And(b, c))
  {}

  /** Appending clauses and bindings side by side keeps them aligned, and means conjunction. */
  lemma {:induction false} JoinMeans(f: Fragment, g: Fragment, row: Row)
    requires Aligned(f) && Aligned(g)
    ensures Aligned(Join(f, g)) && Selects(Join(f, g), row) == And(Selects(f, row), Selects(g, row))
    decreases |f.clauses|
  {
    if f.clauses == [] {
      assert f.clauses + g.clauses == g.clauses && f.bindings + g.bindings == g.bindings;
    } else {
      var n := Placeholders(f.clauses[0]);
      var rest := Fragment(f.clauses[1..], f.bindings[n..]);
      JoinMeans(rest, g, row);
      assert (f.clauses + g.clauses)[1..] == f.clauses[1..] + g.clauses;
      assert (f.bindings + g.bindings)[..n] == f.bindings[..n];
      assert (f.bindings + g.bindings)[n..] == f.bindings[n..] + g.bindings;
      AndAssociative(EvalClause(f.clauses[0], f.bindings[..n], row), Selects(rest, row), Selects(g, row));
    }
  }

  function ArrayFragment(column: Column, values: Option<seq<Value>>): Fragment {
    if values.None? then EMPTY
    else if values.value == [] then Fragment([Never], [])
    else Fragment([In(column, |values.value|)], values.value)
  }

  function ExactFragment(column: Column, value: Option<Value>): Fragment {
    if value.None? then EMPTY else Fragment([Equals(column)], [value.value])
  }

  function CompareFragment(column: Column, operator: Operator, value: Option<Value>): Fragment {
    if value.None? then EMPTY else Fragment([Compare(column, operator)], [value.value])
  }

  function LiteralFragment(present: bool, clause: Clause): Fragment {
    if present then Fragment([clause], []) else EMPTY
  }

  predicate Listed(cell: Option<Value>, values: Option<seq<Value>>) {
    values.None? || (cell.Some? && cell.value in values.value)
  }

  predicate Matches(cell: Option<Value>, value: Option<Value>) {
    value.None? || cell == value
  }

  predicate Compares(cell: Option<Value>, operator: Operator, value: Option<Value>) {
    value.None? || (cell.Some? && Ordered(cell.value, operator, value.value))
  }

  lemma OneClauseMeans(clause: Clause, args: seq<Value>, row: Row)
    requires |args| == Placeholders(clause)
    ensures Aligned(Fragment([clause], args)) && Selects(Fragment([clause], args), row) == EvalClause(clause, args, row)
  {
    var n := |args|;
    assert [clause][1..] == [] && args[n..] == [] && args[..n] == args;
    assert EvalWhere([clause], args, row)
           == And(EvalClause(clause, args[..n], row), EvalWhere([clause][1..], args[n..], row));
    assert EvalWhere([clause][1..], args[n..], row) == True;
  }

  lemma ArrayMeans(column: Column, values: Option<seq<Value>>, row: Row)
    ensures Aligned(ArrayFragment(column, values))
    ensures Selects(ArrayFragment(column, values), row) == True <==> Listed(Cell(row, column), values)
  {
    if values.Some? {
      if values.value == [] {
        OneClauseMeans(Never, [], row);
      } else {
        OneClauseMeans(In(column, |values.value|), values.value, row);
      }
    }
  }

  lemma ExactMeans(column: Column, value: Option<Value>, row: Row)
    ensures Aligned(ExactFragment(column, value))
    ensures Selects(ExactFragment(column, value), row) == True <==> Matches(Cell(row, column), value)
  {
    if value.Some? {
      OneClauseMeans(Equals(column), [value.value], row);
    }
  }

  lemma CompareMeans(column: Column, operator: Operator, value: Option<Value>, row: Row)
    ensures Aligned(CompareFragment(column, operator, value))
    ensures Selects(CompareFragment(column, operator, value), row) == True <==>
            Compares(Cell(row, column), operator, value)
  {
    if value.Some? {
      OneClauseMeans(Compare(column, operator), [value.value], row);
    }
  }

  lemma LiteralMeans(present: bool, clause: Clause, row: Row)
    requires Placeholders(clause) == 0
    ensures Aligned(LiteralFragment(present, clause))
    ensures Selects(LiteralFragment(present, clause), row) == True <==>
            (present ==> EvalClause(clause, [], row) == True)
  {
    OneClauseMeans(clause, [], row);
  }

  // ----- the compiler

  /** `pluralColumns` */
  const PLURAL: seq<Column> := [ScenarioId, Category, SkillId, ModelId, ProviderId, RunStatus, ExecutionModeColumn,
                                BenchmarkCohort, Eligibility, EvaluationStatusColumn, EvidenceStatusColumn]

  function Wrap<T>(values: Option<seq<T>>, f: T -> Value): (r: Option<seq<Value>>)
    ensures r.Some? <==> values.Some?
    ensures values.Some? ==>
            |r.value| == |values.value| && forall i :: 0 <= i < |r.value| ==> r.value[i] == f(values.value[i])
  {
    if values.None? then None else Some(seq(|values.value|, i requires 0 <= i < |values.value| => f(values.value[i])))
  }

  /** `filter[key]` for the key that belongs to a plural column */
  function PluralValues(filter: RunFilter, column: Column): Option<seq<Value>> {
    match column
    case ScenarioId => Wrap(filter.scenarioIds, (t: string) => Text(t))
    case Category => Wrap(filter.categories, (t: string) => Text(t))
    case SkillId => Wrap(filter.skillIds, (t: string) => Text(t))
    case ModelId => Wrap(filter.modelIds, (t: string) => Text(t))
    case ProviderId => Wrap(filter.providerIds, (t: string) => Text(t))
    case RunStatus => Wrap(filter.statuses, (t: Lifecycle) => RunStatusText(t))
    case ExecutionModeColumn => Wrap(filter.executionModes, (t: ExecutionMode) => ModeText(t))
    case BenchmarkCohort => Wrap(filter.benchmarkCohorts, (t: Cohort) => CohortText(t))
    case Eligibility => Wrap(filter.eligibilityStatuses, (t: EligibilityStatus) => EligibilityText(t))
    case EvaluationStatusColumn => Wrap(filter.evaluationStatuses, (t: EvaluationStatus) => EvaluationText(t))
    case EvidenceStatusColumn => Wrap(filter.evidenceStatuses, (t: EvidenceStatus) => EvidenceText(t))
    case _ => None
  }

  function FlagValue(flag: Option<bool>): Option<Value> {
    if flag.None? then None else Some(Number(if flag.value then 1.0 else 0.0))
  }

  function TextValue(text: Option<string>): Option<Value> {
    if text.None? then None else Some(Text(text.value))
  }

  function NumberValue(number: Option<real>): Option<Value> {
    if number.None? then None else Some(Number(number.value))
  }

  predicate ScoreFiltered(filter: RunFilter) {
    filter.passedBenchmark.Some? || filter.minScore.Some? || filter.maxScore.Some?
  }

  /** The clauses and bindings that the code collects, part by part in its order. */
  function Parts(filter: RunFilter): seq<Fragment> {
    PluralParts(filter, |PLURAL|) + RunParts(filter) + ScoreParts(filter)
  }

  function PluralParts(filter: RunFilter, n: nat): seq<Fragment>
    requires n <= |PLURAL|
  {
    if n == 0 then []
    else PluralParts(filter, n - 1) + [ArrayFragment(PLURAL[n - 1], PluralValues(filter, PLURAL[n - 1]))]
  }

  function RunParts(filter: RunFilter): seq<Fragment> {
    [ExactFragment(SimulatedColumn, FlagValue(filter.simulated)),
     LiteralFragment(filter.authority == Some(true), IsEligible),
     LiteralFragment(filter.authority == Some(false), IsNotEligible),
     CompareFragment(StartedAt, AtLeast, TextValue(filter.fromDate)),
     CompareFragment(StartedAt, AtMost, TextValue(filter.toDate))]
  }

  function ScoreParts(filter: RunFilter): seq<Fragment> {
    [LiteralFragment(ScoreFiltered(filter), IsEligible),
     ExactFragment(PassedBenchmark, FlagValue(filter.passedBenchmark)),
     CompareFragment(CompositeScore, AtLeast, NumberValue(filter.minScore)),
     CompareFragment(CompositeScore, AtMost, NumberValue(filter.maxScore))]
  }

  function JoinAll(parts: seq<Fragment>): Fragment {
    if parts == [] then EMPTY else Join(JoinAll(parts[..|parts| - 1]), parts[|parts| - 1])
  }

  datatype LimitForm = NoLimit | LimitPlaceholder | LimitUnlimited

  /** What follows ORDER BY: a limit form, and whether `OFFSET ?` is present. */
  datatype Tail = Tail(limit: LimitForm, offset: bool)

  datatype Sql = Sql(countOnly: bool, clauses: seq<Clause>, tail: Tail)

  datatype PreparedQuery = PreparedQuery(sql: Sql, bindings: seq<Value>, filter: RunFilter)

  function TailOf(filter: RunFilter, count: bool): Tail {
    if count then Tail(NoLimit, false)
    else Tail(if filter.limit.Some? then LimitPlaceholder else if filter.offset.Some? then LimitUnlimited else NoLimit,
              filter.offset.Some?)
  }

  function TailBindings(filter: RunFilter, count: bool): seq<Value> {
    if count then []
    else (if filter.limit.Some? then [Number(filter.limit.value as real)] else []) +
         (if filter.offset.Some? then [Number(filter.offset.value as real)] else [])
  }

  function Prepared(filter: RunFilter, count: bool): PreparedQuery {
    var where := JoinAll(Parts(filter));
    PreparedQuery(Sql(count, where.clauses, TailOf(filter, count)), where.bindings + TailBindings(filter, count),
                  filter)
  }

  /** The two arrays that the `add…Clause` helpers push into. */
  class QueryBuilder {
    var clauses: seq<Clause>
    var bindings: seq<Value>

    constructor ()
      ensures clauses == [] && bindings == []
    {
      clauses, bindings := [], [];
    }

    function Built(): Fragment
      reads this
    {
      Fragment(clauses, bindings)
    }

    method AddArrayClause(column: Column, values: Option<seq<Value>>)
      modifies this
      ensures Built() == Join(old(Built()), ArrayFragment(column, values))
    {
      if values.None? {
        return;
      }
      if values.value == [] {
        clauses := clauses + [Never];
        return;
      }
      clauses := clauses + [In(column, |values.value|)];
      bindings := bindings + values.value;
    }

    method AddExactClause(column: Column, value: Option<Value>)
      modifies this
      ensures Built() == Join(old(Built()), ExactFragment(column, value))
    {
      if value.None? {
        return;
      }
      clauses := clauses + [Equals(column)];
      bindings := bindings + [value.value];
    }

    method AddComparisonClause(column: Column, operator: Operator, value: Value)
      modifies this
      ensures Built() == Join(old(Built()), CompareFragment(column, operator, Some(value)))
    {
      clauses := clauses + [Compare(column, operator)];
      bindings := bindings + [value];
    }

    method AddLiteralClause(present: bool, clause: Clause)
      modifies this
      ensures Built() == Join(old(Built()), LiteralFragment(present, clause))
    {
      if present {
        clauses := clauses + [clause];
      }
    }
  }

  lemma JoinAllSnoc(parts: seq<Fragment>, part: Fragment)
    ensures JoinAll(parts + [part]) == Join(JoinAll(parts), part)
  {
    assert (parts + [part])[..|parts|] == parts;
  }

  lemma JoinNothing(f: Fragment)
    ensures Join(f, EMPTY) == f
  {}

  lemma JoinAllFour(parts: seq<Fragment>, a: Fragment, b: Fragment, c: Fragment, d: Fragment)
    ensures JoinAll(parts + [a, b, c, d]) == Join(Join(Join(Join(JoinAll(parts), a), b), c), d)
  {
    JoinAllSnoc(parts, a);
    JoinAllSnoc(parts + [a], b);
    JoinAllSnoc(parts + [a] + [b], c);
    JoinAllSnoc(parts + [a] + [b] + [c], d);
    assert parts + [a] + [b] + [c] + [d] == parts + [a, b, c, d];
  }

  lemma JoinAllFive(parts: seq<Fragment>, a: Fragment, b: Fragment, c: Fragment, d: Fragment, e: Fragment)
    ensures JoinAll(parts + [a, b, c, d, e]) == Join(Join(Join(Join(Join(JoinAll(parts), a), b), c), d), e)
  {
    JoinAllFour(parts, a, b, c, d);
    JoinAllSnoc(parts + [a, b, c, d], e);
    assert parts + [a, b, c, d] + [e] == parts + [a, b, c, d, e];
  }

  /** `createPreparedRunQuery` on a normalized filter. */
  method CreatePreparedRunQuery(filter: RunFilter, count: bool) returns (query: PreparedQuery)
    ensures query == Prepared(filter, count)
  {
    var builder := new QueryBuilder();
    for k := 0 to |PLURAL|
      invariant builder.Built() == JoinAll(PluralParts(filter, k))
    {
      JoinAllSnoc(PluralParts(filter, k), ArrayFragment(PLURAL[k], PluralValues(filter, PLURAL[k])));
      builder.AddArrayClause(PLURAL[k], PluralValues(filter, PLURAL[k]));
    }
    AddRunClauses(builder, filter);
    AddScoreClauses(builder, filter);
    var tail, extra := Tail(NoLimit, false), [];
    if !count {
      if filter.limit.Some? {
        tail := tail.(limit := LimitPlaceholder);
        extra := extra + [Number(filter.limit.value as real)];
      } else if filter.offset.Some? {
        tail := tail.(limit := LimitUnlimited);
      }
      if filter.offset.Some? {
        tail := tail.(offset := true);
        extra := extra + [Number(filter.offset.value as real)];
      }
    }
    query := PreparedQuery(Sql(count, builder.clauses, tail), builder.bindings + extra, filter);
  }

  /** The clauses on simulation, authority and dates. */
  method AddRunClauses(builder: QueryBuilder, filter: RunFilter)
    requires builder.Built() == JoinAll(PluralParts(filter, |PLURAL|))
    modifies builder
    ensures builder.Built() == JoinAll(PluralParts(filter, |PLURAL|) + RunParts(filter))
  {
    ghost var f := RunParts(filter);
    JoinAllFive(PluralParts(filter, |PLURAL|), f[0], f[1], f[2], f[3], f[4]);
    builder.AddExactClause(SimulatedColumn, FlagValue(filter.simulated));
    builder.AddLiteralClause(filter.authority == Some(true), IsEligible);
    builder.AddLiteralClause(filter.authority == Some(false), IsNotEligible);
    if filter.fromDate.Some? {
      builder.AddComparisonClause(StartedAt, AtLeast, Text(filter.fromDate.value));
    } else {
      JoinNothing(builder.Built());
    }
    if filter.toDate.Some? {
      builder.AddComparisonClause(StartedAt, AtMost, Text(filter.toDate.value));
    } else {
      JoinNothing(builder.Built());
    }
  }

  /** The clauses on the benchmark verdict and score. */
  method AddScoreClauses(builder: QueryBuilder, filter: RunFilter)
    requires builder.Built() == JoinAll(PluralParts(filter, |PLURAL|) + RunParts(filter))
    modifies builder
    ensures builder.Built() == JoinAll(Parts(filter))
  {
    ghost var f := ScoreParts(filter);
    JoinAllFour(PluralParts(filter, |PLURAL|) + RunParts(filter), f[0], f[1], f[2], f[3]);
    builder.AddLiteralClause(ScoreFiltered(filter), IsEligible);
    builder.AddExactClause(PassedBenchmark, FlagValue(filter.passedBenchmark));
    if filter.minScore.Some? {
      builder.AddComparisonClause(CompositeScore, AtLeast, Number(filter.minScore.value));
    } else {
      JoinNothing(builder.Built());
    }
    if filter.maxScore.Some? {
      builder.AddComparisonClause(CompositeScore, AtMost, Number(filter.maxScore.value));
    } else {
      JoinNothing(builder.Built());
    }
  }

  // ----- what a compiled filter selects

  predicate AllAligned(parts: seq<Fragment>) {
    forall i :: 0 <= i < |parts| ==> Aligned(parts[i])
  }

  lemma {:induction false} JoinAllMeans(parts: seq<Fragment>, row: Row)
    requires AllAligned(parts)
    ensures Aligned(JoinAll(parts))
    ensures Selects(JoinAll(parts), row) == True <==> AllSelect(parts, row)
  {
    if parts != [] {
      var front, last := parts[..|parts| - 1], parts[|parts| - 1];
      JoinAllMeans(front, row);
      JoinMeans(JoinAll(front), last, row);
      assert parts == front + [last];
    }
  }

  predicate PluralAt(row: Row, filter: RunFilter, k: nat)
    requires k < |PLURAL|
  {
    Listed(Cell(row, PLURAL[k]), PluralValues(filter, PLURAL[k]))
  }

  /** The row satisfies every plural filter. */
  predicate PluralMatch(row: Row, filter: RunFilter) {
    forall k :: 0 <= k < |PLURAL| ==> PluralAt(row, filter, k)
  }

  predicate RunMatch(row: Row, filter: RunFilter) {
    && Matches(Cell(row, SimulatedColumn), FlagValue(filter.simulated))
    && (filter.authority == Some(true) ==> row.eligibilityStatus == Eligible)
    && (filter.authority == Some(false) ==> row.eligibilityStatus != Eligible)
    && Compares(Cell(row, StartedAt), AtLeast, TextValue(filter.fromDate))
    && Compares(Cell(row, StartedAt), AtMost, TextValue(filter.toDate))
  }

  predicate ScoreMatch(row: Row, filter: RunFilter) {
    && (ScoreFiltered(filter) ==> row.eligibilityStatus == Eligible)
    && Matches(Cell(row, PassedBenchmark), FlagValue(filter.passedBenchmark))
    && Compares(Cell(row, CompositeScore), AtLeast, NumberValue(filter.minScore))
    && Compares(Cell(row, CompositeScore), AtMost, NumberValue(filter.maxScore))
  }

  ghost predicate AllSelect(parts: seq<Fragment>, row: Row)
    requires AllAligned(parts)
  {
    forall i :: 0 <= i < |parts| ==> Selects(parts[i], row) == True
  }

  lemma {:induction false} PluralPartsMean(row: Row, filter: RunFilter, n: nat)
    requires n <= |PLURAL|
    ensures |PluralParts(filter, n)| == n && AllAligned(PluralParts(filter, n))
    ensures forall k :: 0 <= k < n ==>
              (Selects(PluralParts(filter, n)[k], row) == True <==> PluralAt(row, filter, k))
  {
    if n > 0 {
      PluralPartsMean(row, filter, n - 1);
      ArrayMeans(PLURAL[n - 1], PluralValues(filter, PLURAL[n - 1]), row);
    }
  }

  lemma RunPartsMean(row: Row, filter: RunFilter)
    ensures AllAligned(RunParts(filter))
    ensures AllSelect(RunParts(filter), row) <==> RunMatch(row, filter)
  {
    var parts := RunParts(filter);
    ExactMeans(SimulatedColumn, FlagValue(filter.simulated), row);
    LiteralMeans(filter.authority == Some(true), IsEligible, row);
    LiteralMeans(filter.authority == Some(false), IsNotEligible, row);
    CompareMeans(StartedAt, AtLeast, TextValue(filter.fromDate), row);
    CompareMeans(StartedAt, AtMost, TextValue(filter.toDate), row);
    AllSelectFive(parts[0], parts[1], parts[2], parts[3], parts[4], row);
  }

  lemma ScorePartsMean(row: Row, filter: RunFilter)
    ensures AllAligned(ScoreParts(filter))
    ensures AllSelect(ScoreParts(filter), row) <==> ScoreMatch(row, filter)
  {
    var parts := ScoreParts(filter);
    LiteralMeans(ScoreFiltered(filter), IsEligible, row);
    ExactMeans(PassedBenchmark, FlagValue(filter.passedBenchmark), row);
    CompareMeans(CompositeScore, AtLeast, NumberValue(filter.minScore), row);
    CompareMeans(CompositeScore, AtMost, NumberValue(filter.maxScore), row);
    AllSelectFour(parts[0], parts[1], parts[2], parts[3], row);
  }

  lemma AllSelectFour(a: Fragment, b: Fragment, c: Fragment, d: Fragment, row: Row)
    requires Aligned(a) && Aligned(b) && Aligned(c) && Aligned(d)
    ensures AllAligned([a, b, c, d])
    ensures AllSelect([a, b, c, d], row) <==>
            Selects(a, row) == True && Selects(b, row) == True && Selects(c, row) == True && Selects(d, row) == True
  {
    var parts := [a, b, c, d];
    if AllSelect(parts, row) {
      assert Selects(parts[0], row) == True && Selects(parts[1], row) == True;
      assert Selects(parts[2], row) == True && Selects(parts[3], row) == True;
    }
  }

  lemma AllSelectFive(a: Fragment, b: Fragment, c: Fragment, d: Fragment, e: Fragment, row: Row)
    requires Aligned(a) && Aligned(b) && Aligned(c) && Aligned(d) && Aligned(e)
    ensures AllAligned([a, b, c, d, e])
    ensures AllSelect([a, b, c, d, e], row) <==>
            Selects(a, row) == True && Selects(b, row) == True && Selects(c, row) == True && Selects(d, row) == True &&
              Selects(e, row) == True
  {
    var parts := [a, b, c, d, e];
    if AllSelect(parts, row) {
      assert Selects(parts[0], row) == True && Selects(parts[1], row) == True;
      assert Selects(parts[2], row) == True && Selects(parts[3], row) == True && Selects(parts[4], row) == True;
    }
  }

  lemma AllSelectConcat(parts: seq<Fragment>, more: seq<Fragment>, row: Row)
    requires AllAligned(parts) && AllAligned(more)
    ensures AllAligned(parts + more)
    ensures AllSelect(parts + more, row) <==> AllSelect(parts, row) && AllSelect(more, row)
  {
    if AllSelect(parts + more, row) {
      assert forall i :: 0 <= i < |parts| ==> (parts + more)[i] == parts[i];
      assert forall i :: 0 <= i < |more| ==> (parts + more)[|parts| + i] == more[i];
    }
  }

  /** The WHERE part of the prepared query for `filter`. */
  function WhereOf(filter: RunFilter): Fragment {
    JoinAll(Parts(filter))
  }

  /** Placeholders and bindings stay aligned, and the clauses select exactly the rows that satisfy every filter. */
  lemma WhereMeans(row: Row, filter: RunFilter)
    ensures Aligned(WhereOf(filter))
    ensures Selects(WhereOf(filter), row) == True <==>
            PluralMatch(row, filter) && RunMatch(row, filter) && ScoreMatch(row, filter)
  {
    var plural, run, score := PluralParts(filter, |PLURAL|), RunParts(filter), ScoreParts(filter);
    PluralPartsMean(row, filter, |PLURAL|);
    RunPartsMean(row, filter);
    ScorePartsMean(row, filter);
    AllSelectConcat(plural, run, row);
    AllSelectConcat(plural + run, score, row);
    JoinAllMeans(plural + run + score, row);
  }
}
