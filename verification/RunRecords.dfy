/** `saveRunRecord` and `mapRowToRunRecord`: run records, their database rows, and the way back. */
module RunRecords {
  import opened Base
  import opened Numbers
  import opened AuthorityTypes
  import opened BenchmarkAuthority

  /** The parts of a manifest that fill gaps in the record; the rest travels as it is. */
  datatype Manifest = Manifest(skillVersion: Option<string>, thinkingLevel: Option<string>,
                               thinkingBudgetTokens: Option<int>, commitSha: Option<string>, rest: string)

  datatype RunRecord = RunRecord(
    sweepId: Option<string>, planFingerprint: Option<string>, cellId: Option<string>,
    matrixOccurrenceIndex: Option<int>, runId: string, scenarioId: string, category: string, skillId: string,
    skillVersion: Option<string>, modelId: string, providerId: string, mode: ExecutionMode, simulated: bool,
    dryRun: bool, thinkingLevel: Option<string>, thinkingBudgetTokens: Option<int>, reasoningTokens: Option<int>,
    status: Lifecycle, termination: Option<Termination>,
    wallClockMs: real, totalTokens: int, cacheHitRatio: real, totalTurns: int, errorCount: int,
    attemptCount: Option<int>, startedAt: string, completedAt: string, manifest: Option<Manifest>,
    metrics: Option<string>, authority: Authority)

  /** A row of table `runs`; `None` is SQL NULL, and a JSON column holds the value it encodes. */
  datatype Row = Row(
    sweepId: Option<string>, planFingerprint: Option<string>, cellId: Option<string>,
    matrixOccurrenceIndex: Option<int>, runId: string, scenarioId: string, category: string, skillId: string,
    skillVersion: Option<string>, modelId: string, providerId: string, executionMode: ExecutionMode, simulated: int,
    dryRun: int, thinkingLevel: Option<string>, thinkingBudgetTokens: Option<int>, reasoningTokens: Option<int>,
    status: Lifecycle, terminationReason: Option<Termination>,
    benchmarkCohort: Cohort, eligibilityStatus: EligibilityStatus, eligibilityReasons: seq<Reason>,
    evidenceStatus: EvidenceStatus, evaluationStatus: EvaluationStatus,
    checksDeclared: Option<Num>, checksExecuted: Option<Num>, checksPassed: Option<Num>, artifactIntegrity: Integrity,
    evaluatorId: Option<string>, evaluatorVersion: Option<string>, evidenceDigest: Option<string>,
    evidenceIdentity: Option<Identity>, compositeScore: Option<Num>, passedBenchmark: Option<int>,
    operationalCostUSD: Num, costStatus: CostStatus, actualCostUSD: Option<Num>,
    costPricingIdentity: Option<string>, costUsageDigest: Option<string>,
    wallClockMs: real, totalTokens: int, cacheHitRatio: real, totalTurns: int, errorCount: int, attemptCount: int,
    startedAt: string, completedAt: string, manifest: Option<Manifest>, metrics: Option<string>,
    evaluation: Option<Evaluation>, commitSha: Option<string>)

  datatype CostStatus = SimulatedZeroStatus | UnverifiedStatus | VerifiedStatus

  function StatusOf(e: Evaluation): EvaluationStatus {
    match e
    case Evaluated(_, _, _, _, _) => EvaluatedStatus
    case Unevaluated(NotRequested, _) => NotRequestedStatus
    case Unevaluated(NotEvaluated, _) => NotEvaluatedStatus
    case Unevaluated(InvalidOutcome, _) => InvalidStatus
  }

  function CostStatusOf(c: Cost): CostStatus {
    match c
    case SimulatedZero(_) => SimulatedZeroStatus
    case UnverifiedCost(_) => UnverifiedStatus
    case VerifiedCost(_, _, _) => VerifiedStatus
  }

  function Or<T>(a: Option<T>, b: Option<T>): Option<T> {
    if a.Some? then a else b
  }

  function FromManifest<T>(m: Option<Manifest>, field: Manifest -> Option<T>): Option<T> {
    if m.Some? then field(m.value) else None
  }

  function Bit(b: bool): int {
    if b then 1 else 0
  }

  /** A number bound to a nullable column: NaN is stored as NULL. */
  function Column(n: Num): Option<Num> {
    if n.NaN? then None else Some(n)
  }

  // ----- the gate

  function GateInput(r: RunRecord): AuthorityInput {
    var fingerprint := if r.authority.evidence.identity.Some?
                       then r.authority.evidence.identity.value.workspaceFingerprint else "";
    AuthorityInput(r.mode, r.simulated, r.dryRun, r.status, r.termination,
                   Identity(r.runId, r.scenarioId, r.skillId, r.modelId, r.providerId, fingerprint),
                   r.authority.evidence, r.authority.evaluation, r.authority.cost)
  }

  /** `authorityProjection`: a diagnostic record is compared without score, pass flag and actual cost. */
  function Projection(a: Authority): Authority {
    if a.eligibility == Eligible then a else a.(compositeScore := None, passedBenchmark := None, actualCostUSD := None)
  }

  /** `assertRunRecordAuthority` does not throw. */
  predicate Gated(r: RunRecord) {
    && Consistent(r.authority)
    && r.authority.eligibility != UnknownEligibility
    && Classify(GateInput(r)) == Projection(r.authority)
  }

  /** The four values a record's status can have. */
  predicate TypedStatus(status: Lifecycle) {
    !status.OtherLifecycle?
  }

  // ----- record to row

  function RowOf(r: RunRecord): Row {
    var a := r.authority;
    var e := a.evidence;
    var eligible := a.eligibility == Eligible;
    Row(r.sweepId, r.planFingerprint, r.cellId, r.matrixOccurrenceIndex,
        r.runId, r.scenarioId, r.category, r.skillId,
        Or(r.skillVersion, FromManifest(r.manifest, (m: Manifest) => m.skillVersion)), r.modelId, r.providerId, r.mode,
        Bit(r.simulated), Bit(r.dryRun),
        Or(r.thinkingLevel, FromManifest(r.manifest, (m: Manifest) => m.thinkingLevel)),
        Or(r.thinkingBudgetTokens, FromManifest(r.manifest, (m: Manifest) => m.thinkingBudgetTokens)),
        r.reasoningTokens, r.status, r.termination,
        a.cohort, a.eligibility, a.eligibilityReasons,
        e.status, StatusOf(a.evaluation), Column(e.declared), Column(e.executed), Column(e.passed), e.integrity,
        e.evaluatorId, e.evaluatorVersion, e.evidenceDigest, e.identity,
        if eligible && a.compositeScore.Some? then Column(a.compositeScore.value) else None,
        if eligible then Some(Bit(a.passedBenchmark == Some(true))) else None,
        a.cost.amountUSD, CostStatusOf(a.cost),
        if eligible && a.actualCostUSD.Some? then Column(a.actualCostUSD.value) else None,
        if a.cost.VerifiedCost? then Some(a.cost.pricingIdentity) else None,
        if a.cost.VerifiedCost? then Some(a.cost.usageDigest) else None,
        r.wallClockMs, r.totalTokens, r.cacheHitRatio, r.totalTurns, r.errorCount,
        if r.attemptCount.Some? then r.attemptCount.value else 0,
        r.startedAt, r.completedAt, r.manifest, r.metrics, Some(a.evaluation),
        FromManifest(r.manifest, (m: Manifest) => m.commitSha))
  }

  // ----- the CHECK constraints on authority; SQL accepts a row unless a constraint is false

  /** `length(trim(text)) > 0`, with the SQL `trim` that removes spaces only. */
  predicate SqlNonblank(s: string) {
    exists i :: 0 <= i < |s| && s[i] != ' '
  }

  predicate NotBlankText(text: Option<string>) {
    text.Some? && SqlNonblank(text.value)
  }

  predicate CountsCheck(row: Row) {
    || (row.checksDeclared.None? && row.checksExecuted.None? && row.checksPassed.None?)
    || ((row.checksDeclared.Some? ==> Le(ZERO, row.checksDeclared.value)) &&
        (row.checksExecuted.Some? ==> Le(ZERO, row.checksExecuted.value)) &&
        (row.checksPassed.Some? ==> Le(ZERO, row.checksPassed.value)) &&
        (row.checksPassed.Some? && row.checksExecuted.Some? ==> Le(row.checksPassed.value, row.checksExecuted.value)) &&
        (row.checksExecuted.Some? && row.checksDeclared.Some? ==>
         Le(row.checksExecuted.value, row.checksDeclared.value)))
  }

  predicate EligibleCheck(row: Row) {
    row.eligibilityStatus == Eligible ==>
      && row.benchmarkCohort == EligibleCohort && row.executionMode == Live && row.simulated == 0 && row.dryRun == 0
      && row.status == CompletedRun && (row.terminationReason.Some? ==> row.terminationReason.value == Success)
      && row.evidenceStatus == Complete && row.evaluationStatus == EvaluatedStatus && row.artifactIntegrity == Verified
      && row.checksDeclared.Some? && row.checksExecuted.Some? && row.checksPassed.Some?
      && Lt(ZERO, row.checksDeclared.value) && Eq(row.checksExecuted.value, row.checksDeclared.value)
      && NotBlankText(row.evaluatorId) && NotBlankText(row.evaluatorVersion) && NotBlankText(row.evidenceDigest)
      && row.evidenceIdentity.Some? && row.evaluation.Some?
      && row.compositeScore.Some? && Le(ZERO, row.compositeScore.value) && Le(row.compositeScore.value, Fin(100.0))
      && row.passedBenchmark.Some? && row.passedBenchmark.value in {0, 1}
  }

  predicate CostChecks(row: Row) {
    && (row.costStatus == SimulatedZeroStatus ==> Eq(row.operationalCostUSD, ZERO) && row.actualCostUSD.None?)
    && (row.costStatus == UnverifiedStatus ==> row.actualCostUSD.None?)
    && (row.costStatus == VerifiedStatus ==>
          && row.eligibilityStatus == Eligible && row.actualCostUSD.Some? && Le(ZERO, row.actualCostUSD.value)
          && NotBlankText(row.costPricingIdentity) && NotBlankText(row.costUsageDigest))
  }

  predicate AuthorityChecks(row: Row) {
    && TypedStatus(row.status) && row.simulated in {0, 1} && row.dryRun in {0, 1}
    && Le(ZERO, row.operationalCostUSD)
    && CountsCheck(row)
    && EligibleCheck(row)
    && (row.eligibilityStatus == Eligible <==> row.benchmarkCohort == EligibleCohort)
    && (row.eligibilityStatus == Eligible || row.evaluationStatus != EvaluatedStatus)
    && (row.eligibilityStatus == Eligible ||
        (row.compositeScore.None? && row.passedBenchmark.None? && row.actualCostUSD.None?))
    && (row.benchmarkCohort == ValidationCohort ==> row.executionMode == Fake || row.simulated == 1 || row.dryRun == 1)
    && CostChecks(row)
  }

  /** The CHECK constraints on the measurements. */
  predicate MeasurementChecks(row: Row) {
    && row.wallClockMs >= 0.0 && row.totalTokens >= 0 && 0.0 <= row.cacheHitRatio <= 1.0
    && row.totalTurns >= 0 && row.errorCount >= 0 && row.attemptCount >= 0
  }

  // ----- row to record

  function CountOf(c: Option<Num>): Num {
    if c.Some? then c.value else ZERO
  }

  function EvidenceOf(row: Row): Evidence {
    Evidence(row.evidenceStatus, CountOf(row.checksDeclared), CountOf(row.checksExecuted), CountOf(row.checksPassed),
             row.artifactIntegrity, row.evaluatorId, row.evaluatorVersion, row.evidenceDigest, row.evidenceIdentity)
  }

  function EvaluationOf(row: Row): Evaluation {
    if row.evaluation.Some? then row.evaluation.value else Unevaluated(NotEvaluated, row.eligibilityReasons)
  }

  function TextOf(t: Option<string>): string {
    if t.Some? then t.value else ""
  }

  /** The authority rebuilt from a row, before the final check; `None` for an incomplete eligible row. */
  function AuthorityOf(row: Row): Option<Authority> {
    var evidence, evaluation := EvidenceOf(row), EvaluationOf(row);
    if row.eligibilityStatus == Eligible then
      if row.compositeScore.None? || row.passedBenchmark.None? || !evaluation.Evaluated? || evidence.status != Complete
        then None
      else
        Some(Authority(EligibleCohort, Eligible, [], evidence, evaluation,
                       if row.costStatus == VerifiedStatus
                       then VerifiedCost(row.operationalCostUSD, TextOf(row.costPricingIdentity),
                                         TextOf(row.costUsageDigest))
                       else UnverifiedCost(row.operationalCostUSD),
                       row.compositeScore, Some(row.passedBenchmark.value == 1), row.actualCostUSD))
    else
      Some(Authority(if row.benchmarkCohort == ValidationCohort then ValidationCohort else OperationalCohort,
                     row.eligibilityStatus, row.eligibilityReasons, evidence,
                     if evaluation.Evaluated? then Unevaluated(InvalidOutcome, row.eligibilityReasons) else evaluation,
                     if row.costStatus == SimulatedZeroStatus then SimulatedZero(ZERO)
                       else UnverifiedCost(row.operationalCostUSD),
                     None, None, None))
  }

  /** The record rebuilt from a row around the authority `a`. */
  function RecordWith(row: Row, a: Authority): RunRecord {
    RunRecord(row.sweepId, row.planFingerprint, row.cellId, row.matrixOccurrenceIndex,
              row.runId, row.scenarioId, row.category, row.skillId, row.skillVersion,
              row.modelId, row.providerId, row.executionMode, row.simulated == 1, row.dryRun == 1,
              row.thinkingLevel, row.thinkingBudgetTokens, row.reasoningTokens,
              row.status, row.terminationReason,
              row.wallClockMs, row.totalTokens, row.cacheHitRatio, row.totalTurns, row.errorCount,
              Some(row.attemptCount), row.startedAt, row.completedAt, row.manifest, row.metrics, a)
  }

  /** The identity test of `validateMappedRecord`. */
  predicate IdentityMatches(r: RunRecord) {
    r.authority.eligibility == Eligible ==>
      && r.authority.evidence.identity.Some?
      && var id := r.authority.evidence.identity.value;
         id.runId == r.runId && id.scenarioId == r.scenarioId && id.skillId == r.skillId &&
         id.modelId == r.modelId && id.providerId == r.providerId
  }

  /** `mapRowToRunRecord`; `None` when it throws. */
  function Load(row: Row): Option<RunRecord> {
    var a := AuthorityOf(row);
    if a.None? then None
    else
      var r := RecordWith(row, a.value);
      if Consistent(r.authority) && IdentityMatches(r) then Some(r) else None
  }

  // ----- theorems

  /** What a save fills in: values the manifest supplies, and zero attempts. */
  function Filled(r: RunRecord): RunRecord {
    r.(skillVersion := Or(r.skillVersion, FromManifest(r.manifest, (m: Manifest) => m.skillVersion)),
       thinkingLevel := Or(r.thinkingLevel, FromManifest(r.manifest, (m: Manifest) => m.thinkingLevel)),
       thinkingBudgetTokens := Or(r.thinkingBudgetTokens,
                                  FromManifest(r.manifest, (m: Manifest) => m.thinkingBudgetTokens)),
       attemptCount := if r.attemptCount.Some? then r.attemptCount else Some(0))
  }

  lemma NonblankIsSqlNonblank(s: string)
    requires Nonblank(s)
    ensures SqlNonblank(s)
  {
    var i :| 0 <= i < |s| && !IsSpace(s[i]);
    assert s[i] != ' ';
  }

  lemma NonblankOptionIsNotBlank(s: Option<string>)
    requires NonblankOption(s)
    ensures NotBlankText(s)
  {
    NonblankIsSqlNonblank(s.value);
  }

  lemma GatedEligible(r: RunRecord)
    requires Gated(r) && r.authority.eligibility == Eligible
    ensures Deserving(GateInput(r)) && IdentityMatches(r)
    ensures r.authority.cost.VerifiedCost? ==>
            Nonblank(r.authority.cost.pricingIdentity) && Nonblank(r.authority.cost.usageDigest)
  {
    EligibleExactly(GateInput(r));
  }

  lemma EligibleRowCheck(r: RunRecord)
    requires Deserving(GateInput(r)) && Consistent(r.authority) && r.authority.eligibility == Eligible
    requires TypedStatus(r.status)
    ensures EligibleCheck(RowOf(r))
  {
    var e := r.authority.evidence;
    NonblankOptionIsNotBlank(e.evaluatorId);
    NonblankOptionIsNotBlank(e.evaluatorVersion);
    NonblankOptionIsNotBlank(e.evidenceDigest);
  }

  lemma EligibleCountsCheck(r: RunRecord)
    requires ValidCounts(r.authority.evidence)
    ensures CountsCheck(RowOf(r))
  {}

  lemma EligibleCostChecks(r: RunRecord)
    requires EligibleConsistent(r.authority) && r.authority.eligibility == Eligible
    requires r.authority.cost.VerifiedCost? ==>
             Nonblank(r.authority.cost.pricingIdentity) && Nonblank(r.authority.cost.usageDigest)
    ensures CostChecks(RowOf(r))
  {
    if r.authority.cost.VerifiedCost? {
      NonblankIsSqlNonblank(r.authority.cost.pricingIdentity);
      NonblankIsSqlNonblank(r.authority.cost.usageDigest);
    }
  }

  lemma EligibleRowChecks(r: RunRecord)
    requires Gated(r) && r.authority.eligibility == Eligible && TypedStatus(r.status)
    ensures EligibleCheck(RowOf(r)) && CountsCheck(RowOf(r)) && CostChecks(RowOf(r))
  {
    GatedEligible(r);
    EligibleRowCheck(r);
    EligibleCountsCheck(r);
    EligibleCostChecks(r);
  }

  lemma DiagnosticRowChecks(r: RunRecord)
    requires Gated(r) && r.authority.eligibility != Eligible && TypedStatus(r.status)
    ensures AuthorityChecks(RowOf(r))
  {}

  /** A record that passes the gate makes a row that violates no authority constraint. */
  lemma SavedRowChecks(r: RunRecord)
    requires Gated(r) && TypedStatus(r.status)
    ensures AuthorityChecks(RowOf(r))
  {
    if r.authority.eligibility == Eligible {
      EligibleRowChecks(r);
    } else {
      DiagnosticRowChecks(r);
    }
  }

  lemma AuthoritySurvives(r: RunRecord)
    requires Gated(r)
    ensures AuthorityOf(RowOf(r)) == Some(r.authority)
  {
    var a := r.authority;
    if a.eligibility == Eligible {
      GatedEligible(r);
    }
  }

  /** Saving and loading restores the record, with the gaps filled, and the authority exactly. */
  lemma SaveLoadRoundTrip(r: RunRecord)
    requires Gated(r)
    ensures Load(RowOf(r)) == Some(Filled(r))
    ensures Load(RowOf(r)).value.authority == r.authority
  {
    AuthoritySurvives(r);
    if r.authority.eligibility == Eligible {
      GatedEligible(r);
    }
  }

  /** A loaded record passes the gate again, and from then on saving and loading changes nothing. */
  lemma LoadedRecordIsStable(r: RunRecord)
    requires Gated(r)
    ensures Gated(Filled(r)) && Load(RowOf(Filled(r))) == Some(Filled(r))
  {
    assert GateInput(Filled(r)) == GateInput(r);
    SaveLoadRoundTrip(Filled(r));
  }

  /** The record `r` with the verdict that classification gives it. */
  function Judged(r: RunRecord): RunRecord {
    r.(authority := Classify(GateInput(r)))
  }

  lemma JudgedIdentity(r: RunRecord)
    ensures GateInput(Judged(r)) == Reclassified(GateInput(r), Classify(GateInput(r)))
  {}

  /** Two passes of classification always produce a record that the store accepts. */
  lemma TwiceJudgedIsGated(r: RunRecord)
    ensures Gated(Judged(Judged(r)))
  {
    var once := Judged(r);
    var twice := Judged(once);
    JudgedIdentity(r);
    JudgedIdentity(once);
    SecondPassIsFixed(GateInput(r));
    ClassificationConsistent(GateInput(once));
    if Classify(GateInput(r)).eligibility == Eligible {
      EligibleIsFixed(GateInput(r));
    } else {
      SecondPass(GateInput(r));
    }
  }
}
