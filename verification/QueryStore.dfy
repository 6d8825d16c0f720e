/** `ReportingQueryStore`: running prepared queries, and the in-memory filter that re-checks their result. */
module QueryStore {
  import opened Base
  import opened Numbers
  import opened AuthorityTypes
  import opened BenchmarkAuthority
  import opened RunRecords
  import opened RunStore
  import opened RunQuery

  // ----- the in-memory filter

  /** `matchesArray` */
  predicate MatchesArray<T(==)>(value: T, allowed: Option<seq<T>>) {
    allowed.None? || value in allowed.value
  }

  predicate MatchesPlurals(r: RunRecord, f: RunFilter) {
    && MatchesArray(r.scenarioId, f.scenarioIds) && MatchesArray(r.category, f.categories)
    && MatchesArray(r.skillId, f.skillIds)
    && MatchesArray(r.modelId, f.modelIds) && MatchesArray(r.providerId, f.providerIds)
    && MatchesArray(r.status, f.statuses)
    && MatchesArray(r.mode, f.executionModes)
    && MatchesArray(r.authority.cohort, f.benchmarkCohorts)
    && MatchesArray(r.authority.eligibility, f.eligibilityStatuses)
    && MatchesArray(StatusOf(r.authority.evaluation), f.evaluationStatuses)
    && MatchesArray(r.authority.evidence.status, f.evidenceStatuses)
  }

  /** `recordMatchesReportFilter` */
  predicate MatchesReport(r: RunRecord, f: RunFilter) {
    && MatchesPlurals(r, f)
    && (f.simulated.None? || r.simulated == f.simulated.value)
    && (f.authority.None? || f.authority.value == (r.authority.eligibility == Eligible))
    && (f.fromDate.None? || StrLe(f.fromDate.value, r.startedAt))
    && (f.toDate.None? || StrLe(r.startedAt, f.toDate.value))
  }

  predicate HasScore(r: RunRecord) {
    r.authority.eligibility == Eligible && r.authority.compositeScore.Some?
  }

  /** `recordMatchesRunQuery` */
  predicate MatchesQuery(r: RunRecord, f: RunFilter) {
    && MatchesReport(r, f)
    && (f.passedBenchmark.Some? ==>
        r.authority.eligibility == Eligible && r.authority.passedBenchmark == f.passedBenchmark)
    && (f.minScore.Some? ==> HasScore(r) && !Lt(r.authority.compositeScore.value, Fin(f.minScore.value)))
    && (f.maxScore.Some? ==> HasScore(r) && !Lt(Fin(f.maxScore.value), r.authority.compositeScore.value))
  }

  // ----- the two filters agree

  lemma ListedWrap<T(!new)>(value: T, values: Option<seq<T>>, f: T -> Value)
    requires forall a, b :: f(a) == f(b) ==> a == b
    ensures Listed(Some(f(value)), Wrap(values, f)) <==> MatchesArray(value, values)
  {
    if values.Some? {
      var wrapped := Wrap(values, f).value;
      if value in values.value {
        var i :| 0 <= i < |values.value| && values.value[i] == value;
        assert wrapped[i] == f(value);
      }
    }
  }

  /** The columns of a stored row say what the loaded record says. */
  predicate ColumnsAgree(row: Row, r: RunRecord) {
    && row.scenarioId == r.scenarioId && row.category == r.category && row.skillId == r.skillId
    && row.modelId == r.modelId
    && row.providerId == r.providerId && row.status == r.status && row.executionMode == r.mode
    && row.benchmarkCohort == r.authority.cohort && row.eligibilityStatus == r.authority.eligibility
    && row.evaluationStatus == StatusOf(r.authority.evaluation) && row.evidenceStatus == r.authority.evidence.status
    && row.startedAt == r.startedAt && row.simulated == Bit(r.simulated)
    && (r.authority.eligibility == Eligible ==>
          && r.authority.compositeScore.Some? && r.authority.compositeScore.value.Fin?
          && row.compositeScore == r.authority.compositeScore
          && r.authority.passedBenchmark.Some? && row.passedBenchmark == Some(Bit(r.authority.passedBenchmark.value)))
    && (r.authority.eligibility != Eligible ==> row.compositeScore.None? && row.passedBenchmark.None?)
  }

  lemma ScenarioClauseAgrees(row: Row, r: RunRecord, f: RunFilter)
    requires row.scenarioId == r.scenarioId
    ensures PluralAt(row, f, 0) <==> MatchesArray(r.scenarioId, f.scenarioIds)
  {
    ListedWrap(r.scenarioId, f.scenarioIds, (t: string) => Text(t));
  }

  lemma CategoryClauseAgrees(row: Row, r: RunRecord, f: RunFilter)
    requires row.category == r.category
    ensures PluralAt(row, f, 1) <==> MatchesArray(r.category, f.categories)
  {
    ListedWrap(r.category, f.categories, (t: string) => Text(t));
  }

  lemma SkillClauseAgrees(row: Row, r: RunRecord, f: RunFilter)
    requires row.skillId == r.skillId
    ensures PluralAt(row, f, 2) <==> MatchesArray(r.skillId, f.skillIds)
  {
    ListedWrap(r.skillId, f.skillIds, (t: string) => Text(t));
  }

  lemma ModelClauseAgrees(row: Row, r: RunRecord, f: RunFilter)
    requires row.modelId == r.modelId
    ensures PluralAt(row, f, 3) <==> MatchesArray(r.modelId, f.modelIds)
  {
    ListedWrap(r.modelId, f.modelIds, (t: string) => Text(t));
  }

  lemma ProviderClauseAgrees(row: Row, r: RunRecord, f: RunFilter)
    requires row.providerId == r.providerId
    ensures PluralAt(row, f, 4) <==> MatchesArray(r.providerId, f.providerIds)
  {
    ListedWrap(r.providerId, f.providerIds, (t: string) => Text(t));
  }

  lemma TextPluralsAgree(row: Row, r: RunRecord, f: RunFilter)
    requires ColumnsAgree(row, r)
    ensures PluralAt(row, f, 0) <==> MatchesArray(r.scenarioId, f.scenarioIds)
    ensures PluralAt(row, f, 1) <==> MatchesArray(r.category, f.categories)
    ensures PluralAt(row, f, 2) <==> MatchesArray(r.skillId, f.skillIds)
    ensures PluralAt(row, f, 3) <==> MatchesArray(r.modelId, f.modelIds)
    ensures PluralAt(row, f, 4) <==> MatchesArray(r.providerId, f.providerIds)
  {
    ScenarioClauseAgrees(row, r, f);
    CategoryClauseAgrees(row, r, f);
    SkillClauseAgrees(row, r, f);
    ModelClauseAgrees(row, r, f);
    ProviderClauseAgrees(row, r, f);
  }

  lemma StatusPluralsAgree(row: Row, r: RunRecord, f: RunFilter)
    requires ColumnsAgree(row, r)
    ensures PluralAt(row, f, 5) <==> MatchesArray(r.status, f.statuses)
    ensures PluralAt(row, f, 6) <==> MatchesArray(r.mode, f.executionModes)
    ensures PluralAt(row, f, 7) <==> MatchesArray(r.authority.cohort, f.benchmarkCohorts)
  {
    ListedWrap(r.status, f.statuses, (t: Lifecycle) => RunStatusText(t));
    ListedWrap(r.mode, f.executionModes, (t: ExecutionMode) => ModeText(t));
    ListedWrap(r.authority.cohort, f.benchmarkCohorts, (t: Cohort) => CohortText(t));
  }

  lemma VerdictPluralsAgree(row: Row, r: RunRecord, f: RunFilter)
    requires ColumnsAgree(row, r)
    ensures PluralAt(row, f, 8) <==> MatchesArray(r.authority.eligibility, f.eligibilityStatuses)
    ensures PluralAt(row, f, 9) <==> MatchesArray(StatusOf(r.authority.evaluation), f.evaluationStatuses)
    ensures PluralAt(row, f, 10) <==> MatchesArray(r.authority.evidence.status, f.evidenceStatuses)
  {
    ListedWrap(r.authority.eligibility, f.eligibilityStatuses, (t: EligibilityStatus) => EligibilityText(t));
    ListedWrap(StatusOf(r.authority.evaluation), f.evaluationStatuses, (t: EvaluationStatus) => EvaluationText(t));
    ListedWrap(r.authority.evidence.status, f.evidenceStatuses, (t: EvidenceStatus) => EvidenceText(t));
  }

  lemma PluralsAgree(row: Row, r: RunRecord, f: RunFilter)
    requires ColumnsAgree(row, r)
    ensures PluralMatch(row, f) <==> MatchesPlurals(r, f)
  {
    TextPluralsAgree(row, r, f);
    StatusPluralsAgree(row, r, f);
    VerdictPluralsAgree(row, r, f);
    PluralMatchSplit(row, f);
  }

  lemma PluralMatchSplit(row: Row, f: RunFilter)
    ensures PluralMatch(row, f) <==>
            && PluralAt(row, f, 0) && PluralAt(row, f, 1) && PluralAt(row, f, 2) && PluralAt(row, f, 3)
            && PluralAt(row, f, 4) && PluralAt(row, f, 5) && PluralAt(row, f, 6) && PluralAt(row, f, 7)
            && PluralAt(row, f, 8) && PluralAt(row, f, 9) && PluralAt(row, f, 10)
  {
    assert |PLURAL| == 11;
  }

  lemma RunMatchAgrees(row: Row, r: RunRecord, f: RunFilter)
    requires ColumnsAgree(row, r) && MatchesPlurals(r, f)
    ensures RunMatch(row, f) <==> MatchesReport(r, f)
  {}

  lemma ScoreMatchAgrees(row: Row, r: RunRecord, f: RunFilter)
    requires ColumnsAgree(row, r) && MatchesReport(r, f)
    ensures ScoreMatch(row, f) <==> MatchesQuery(r, f)
  {}

  /** Compilation preserves meaning: the clauses select a row exactly when the record matches the filter. */
  lemma CompiledFilterAgrees(row: Row, r: RunRecord, f: RunFilter)
    requires ColumnsAgree(row, r)
    ensures Aligned(WhereOf(f))
    ensures Selects(WhereOf(f), row) == True <==> MatchesQuery(r, f)
  {
    WhereMeans(row, f);
    PluralsAgree(row, r, f);
    if MatchesPlurals(r, f) {
      RunMatchAgrees(row, r, f);
      if MatchesReport(r, f) {
        ScoreMatchAgrees(row, r, f);
      }
    }
  }

  /**
   * The columns of any row that meets its constraints and loads agree with the record, but for the evaluation status.
   */
  lemma LoadedColumnsAgree(row: Row)
    requires AuthorityChecks(row) && Load(row).Some?
    ensures ColumnsAgree(row, Load(row).value) <==>
            row.evaluationStatus == StatusOf(Load(row).value.authority.evaluation)
  {}

  /** The filter that asks for one evaluation status and nothing else. */
  function StatusFilter(status: EvaluationStatus): RunFilter {
    RunFilter(None, None, None, None, None, None, None, None, None, None, None, Some([status]), None,
              None, None, None, None, None, None, None)
  }

  lemma StatusFilterSelects(row: Row)
    ensures Aligned(WhereOf(StatusFilter(row.evaluationStatus)))
    ensures Selects(WhereOf(StatusFilter(row.evaluationStatus)), row) == True
  {
    var f := StatusFilter(row.evaluationStatus);
    WhereMeans(row, f);
    ListedWrap(row.evaluationStatus, f.evaluationStatuses, (t: EvaluationStatus) => EvaluationText(t));
    PluralMatchSplit(row, f);
    assert RunMatch(row, f) && ScoreMatch(row, f);
  }

  lemma AgreementIsExact(row: Row, r: RunRecord)
    requires ColumnsAgree(row, r) <==> row.evaluationStatus == StatusOf(r.authority.evaluation)
    requires forall f :: Aligned(WhereOf(f))
    ensures (forall f :: Selects(WhereOf(f), row) == True <==> MatchesQuery(r, f)) <==>
            row.evaluationStatus == StatusOf(r.authority.evaluation)
  {
    if row.evaluationStatus == StatusOf(r.authority.evaluation) {
      forall f
        ensures Selects(WhereOf(f), row) == True <==> MatchesQuery(r, f)
      {
        CompiledFilterAgrees(row, r, f);
      }
    } else {
      StatusFilterSelects(row);
      assert !MatchesQuery(r, StatusFilter(row.evaluationStatus));
    }
  }

  /**
   * For rows that meet their constraints and load, the database and the in-memory filter agree on every filter exactly
   * when the status column repeats the status inside the stored evaluation.
   */
  lemma FiltersAgreeExactly(row: Row)
    requires AuthorityChecks(row) && Load(row).Some?
    ensures forall f :: Aligned(WhereOf(f))
    ensures (forall f :: Selects(WhereOf(f), row) == True <==> MatchesQuery(Load(row).value, f)) <==>
            row.evaluationStatus == StatusOf(Load(row).value.authority.evaluation)
  {
    forall f ensures Aligned(WhereOf(f)) { WhereMeans(row, f); }
    LoadedColumnsAgree(row);
    AgreementIsExact(row, Load(row).value);
  }

  // ----- a row whose status column says something else

  /** A fake run that was never evaluated. */
  function UnevaluatedRun(): RunRecord {
    RunRecord(None, None, None, None, "r", "s", "c", "k", None, "m", "p", Fake, false, false, None, None, None,
              CompletedRun, Some(Success), 0.0, 0, 0.0, 0, 0, None, "t", "t", None, None,
              Authority(ValidationCohort, Ineligible, [],
                        Evidence(Unavailable, ZERO, ZERO, ZERO, Unverified, None, None, None, None),
                        Unevaluated(NotEvaluated, []), SimulatedZero(ZERO), None, None, None))
  }

  /** The row of `r` as saved, but with another status in the column. */
  function Relabelled(r: RunRecord): Row {
    RowOf(r).(evaluationStatus := NotRequestedStatus)
  }

  /** Judging a fake run refuses it and keeps its status. */
  lemma FakeStaysUnevaluated(r: RunRecord)
    requires r.mode == Fake && r.authority.evaluation.Unevaluated?
    ensures var a := Judged(r).authority;
      a.eligibility == Ineligible && a.evaluation.Unevaluated? && a.evaluation.status == r.authority.evaluation.status
  {
    EligibleExactly(GateInput(r));
  }

  lemma UnevaluatedRunSaved(r: RunRecord)
    requires r.mode == Fake && r.authority.evaluation.Unevaluated? && r.authority.evaluation.status == NotEvaluated
    ensures var saved := Judged(Judged(r));
      Gated(saved) && saved.authority.eligibility == Ineligible &&
        StatusOf(saved.authority.evaluation) == NotEvaluatedStatus
  {
    TwiceJudgedIsGated(r);
    FakeStaysUnevaluated(r);
    FakeStaysUnevaluated(Judged(r));
  }

  lemma RelabelledRowLoads(r: RunRecord)
    requires Gated(r) && r.authority.eligibility == Ineligible && TypedStatus(r.status)
    ensures AuthorityChecks(Relabelled(r)) && Load(Relabelled(r)) == Some(Filled(r))
    ensures Filled(r).authority == r.authority
  {
    DiagnosticRowChecks(r);
    SaveLoadRoundTrip(r);
  }

  /** Only the database selects this row. */
  ghost predicate SelectedWrongly(row: Row, f: RunFilter) {
    && AuthorityChecks(row) && Load(row).Some? && Aligned(WhereOf(f))
    && Selects(WhereOf(f), row) == True && !MatchesQuery(Load(row).value, f)
  }

  lemma RelabelledDisagrees(r: RunRecord)
    requires Gated(r) && r.authority.eligibility == Ineligible && TypedStatus(r.status)
    requires StatusOf(r.authority.evaluation) == NotEvaluatedStatus
    ensures SelectedWrongly(Relabelled(r), StatusFilter(NotRequestedStatus))
  {
    RelabelledRowLoads(r);
    StatusFilterSelects(Relabelled(r));
  }

  /**
   * The constraints let that row in, it loads, and the database then selects a record that the in-memory filter
   * rejects.
   */
  lemma RelabelledRowDisagrees()
    ensures SelectedWrongly(Relabelled(Judged(Judged(UnevaluatedRun()))), StatusFilter(NotRequestedStatus))
  {
    UnevaluatedRunSaved(UnevaluatedRun());
    RelabelledDisagrees(Judged(Judged(UnevaluatedRun())));
  }

  /** Rows written by a save or by the migration agree with what they load to. */
  lemma WrittenColumnsAgree(row: Row, id: string, source: Option<RunRecord>)
    requires WrittenFrom(row, id, source)
    ensures Load(row).Some? && ColumnsAgree(row, Load(row).value)
  {
    if source.Some? {
      SaveLoadRoundTrip(source.value);
      SavedRowChecks(source.value);
      if source.value.authority.eligibility == Eligible {
        GatedEligible(source.value);
      }
    } else {
      LegacyRowLoads(row);
    }
  }
}
