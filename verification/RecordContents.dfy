/** What a saved record leaves in its row, what a load fills in, and what the constraints on rows mean. */
module RecordContents {
  import opened Base
  import opened Numbers
  import opened AuthorityTypes
  import opened RunRecords

  /** The record's own value, or the one of its manifest. */
  predicate OwnOrManifest<T(==)>(value: Option<T>, own: Option<T>, fromManifest: Option<T>) {
    if own == None then value == fromManifest else value == own
  }

  /**
   * A load gives back the record, its gaps filled from the manifest it was saved with; unknown attempts become none.
   */
  lemma GapsFilled(r: RunRecord)
    requires Gated(r)
    ensures Load(RowOf(r)).Some?
    ensures
      var loaded, m := Load(RowOf(r)).value, r.manifest;
      && OwnOrManifest(loaded.skillVersion, r.skillVersion, if m == None then None else m.value.skillVersion)
      && OwnOrManifest(loaded.thinkingLevel, r.thinkingLevel, if m == None then None else m.value.thinkingLevel)
      && OwnOrManifest(loaded.thinkingBudgetTokens, r.thinkingBudgetTokens,
                       if m == None then None else m.value.thinkingBudgetTokens)
      && loaded.attemptCount == (if r.attemptCount == None then Some(0) else r.attemptCount)
      && r == loaded.(skillVersion := r.skillVersion, thinkingLevel := r.thinkingLevel,
                      thinkingBudgetTokens := r.thinkingBudgetTokens, attemptCount := r.attemptCount)
  {
    SaveLoadRoundTrip(r);
  }

  /** The columns of identity, time and measurement show the record. */
  lemma ColumnsShow(r: RunRecord)
    ensures
      var row := RowOf(r);
      && row.runId == r.runId && row.scenarioId == r.scenarioId && row.category == r.category
      && row.skillId == r.skillId && row.modelId == r.modelId && row.providerId == r.providerId
      && row.sweepId == r.sweepId && row.cellId == r.cellId && row.planFingerprint == r.planFingerprint
      && row.executionMode == r.mode && (row.simulated == 1 <==> r.simulated) && (row.dryRun == 1 <==> r.dryRun)
      && row.status == r.status && row.terminationReason == r.termination
      && row.startedAt == r.startedAt && row.completedAt == r.completedAt
      && row.wallClockMs == r.wallClockMs && row.totalTokens == r.totalTokens && row.cacheHitRatio == r.cacheHitRatio
      && row.totalTurns == r.totalTurns && row.errorCount == r.errorCount
      && row.commitSha == if r.manifest == None then None else r.manifest.value.commitSha
  {}

  /** The columns of authority show the verdict; score and pass flag are NULL unless the run is eligible. */
  lemma AuthorityColumnsShow(r: RunRecord)
    requires Gated(r)
    ensures
      var row, a := RowOf(r), r.authority;
      && row.benchmarkCohort == a.cohort && row.eligibilityStatus == a.eligibility
      && row.eligibilityReasons == a.eligibilityReasons && row.evaluation == Some(a.evaluation)
      && row.evidenceStatus == a.evidence.status && row.artifactIntegrity == a.evidence.integrity
      && row.checksDeclared == Some(a.evidence.declared) && row.checksExecuted == Some(a.evidence.executed)
      && row.checksPassed == Some(a.evidence.passed) && row.operationalCostUSD == a.cost.amountUSD
      && row.compositeScore == a.compositeScore && row.actualCostUSD == a.actualCostUSD
      && (row.passedBenchmark == None <==> a.eligibility != Eligible)
      && (a.eligibility == Eligible ==> (row.passedBenchmark == Some(1) <==> a.passedBenchmark == Some(true)))
      && (row.evaluationStatus == EvaluatedStatus <==> a.eligibility == Eligible)
  {
    if r.authority.eligibility == Eligible {
      GatedEligible(r);
    }
  }

  /** The constraints on measurements refuse exactly negative numbers, and shares above one. */
  lemma MeasurementsAre(r: RunRecord)
    ensures
      MeasurementChecks(RowOf(r)) <==>
      && r.wallClockMs >= 0.0 && r.totalTokens >= 0 && r.cacheHitRatio >= 0.0 && r.cacheHitRatio <= 1.0
      && r.totalTurns >= 0 && r.errorCount >= 0 && (r.attemptCount.Some? ==> r.attemptCount.value >= 0)
  {}

  /** Known check counts are in order. */
  predicate CountsInOrder(row: Row) {
    row.checksDeclared.Some? && row.checksExecuted.Some? && row.checksPassed.Some? ==>
      && Le(ZERO, row.checksPassed.value) && Le(row.checksPassed.value, row.checksExecuted.value)
      && Le(row.checksExecuted.value, row.checksDeclared.value)
  }

  /**
   * Whatever wrote it, a row within the constraints is eligible in status and cohort or in neither, shows scores and
   * verified costs only then, has its check counts in order, and no validation run is a genuine one.
   */
  lemma ConstraintsMean(row: Row)
    requires AuthorityChecks(row)
    ensures row.eligibilityStatus == Eligible <==> row.benchmarkCohort == EligibleCohort
    ensures row.eligibilityStatus == Eligible ==>
            && row.evaluationStatus == EvaluatedStatus && row.evidenceStatus == Complete
            && row.artifactIntegrity == Verified && row.compositeScore.Some? && row.passedBenchmark.Some?
            && row.executionMode == Live && row.simulated == 0 && row.dryRun == 0 && row.status == CompletedRun
            && row.checksDeclared.Some? && row.checksExecuted == row.checksDeclared
            && row.checksDeclared != Some(ZERO)
    ensures row.eligibilityStatus != Eligible ==>
            && row.evaluationStatus != EvaluatedStatus && row.compositeScore == None && row.passedBenchmark == None
            && row.actualCostUSD == None && row.costStatus != VerifiedStatus
    ensures row.actualCostUSD.Some? ==> row.costStatus == VerifiedStatus && Le(ZERO, row.actualCostUSD.value)
    ensures row.benchmarkCohort == ValidationCohort && row.executionMode == Live ==>
            row.simulated == 1 || row.dryRun == 1
    ensures CountsInOrder(row) && Le(ZERO, row.operationalCostUSD)
  {}
}
