/** The identity of a canonical run, read from its manifest and result artifacts. */
module ReplayIdentity {
  import opened Base
  import opened Numbers
  import opened ReplayEvents
  import opened ReplayProjector

  datatype Common = Common(runId: string, sweepId: string, cellId: string, planFingerprint: string,
                           matrixOccurrenceIndex: Num, scenarioId: string, category: string, skillId: string,
                           modelId: string, providerId: string, executionMode: ExecutionMode, simulated: bool,
                           dryRun: bool, startedAt: string)

  datatype Manifest = Manifest(schemaVersion: string, artifactKind: string, common: Common, timestamp: string)

  datatype ResultArtifact = ResultArtifact(schemaVersion: string, artifactKind: string, common: Common,
                                           completedAt: string, status: ExecutionStatus, terminationReason: string,
                                           totalDurationMs: Num, totalTurns: Num, totalTokens: Num,
                                           benchmarkCohort: Cohort, eligibilityStatus: EligibilityStatus,
                                           eligibilityReasons: seq<string>, evaluationStatus: EvaluationStatus,
                                           costAmountUSD: Num, timestamp: string)

  predicate CommonOk(c: Common) {
    && Nonblank(c.runId) && Nonblank(c.sweepId) && Nonblank(c.cellId) && Nonblank(c.planFingerprint)
    && Nonblank(c.scenarioId)
    && Nonblank(c.skillId) && Nonblank(c.modelId) && Nonblank(c.providerId) && Nonblank(c.category)
    && Count(c.matrixOccurrenceIndex) && Nonblank(c.startedAt)
  }

  /** `validateManifest` */
  predicate ManifestOk(m: Manifest) {
    m.schemaVersion == "1.0.0" && m.artifactKind == "manifest" && CommonOk(m.common) &&
      m.timestamp == m.common.startedAt
  }

  /** `validateResult` */
  predicate ResultOk(r: ResultArtifact) {
    && r.schemaVersion == "2.0.0" && r.artifactKind == "result" && CommonOk(r.common) && Nonblank(r.completedAt)
    && Nonblank(r.terminationReason) && StatusOf(r.terminationReason) == r.status
    && FiniteNonnegative(r.totalDurationMs) && Count(r.totalTurns) && Count(r.totalTokens)
    && FiniteNonnegative(r.costAmountUSD)
    && r.timestamp == r.completedAt
  }

  predicate CommonExpected(e: Identity, c: Common) {
    && Meets(e.runId, c.runId) && Meets(e.sweepId, c.sweepId) && Meets(e.cellId, c.cellId)
    && Meets(e.planFingerprint, c.planFingerprint)
    && Meets(e.matrixOccurrenceIndex, c.matrixOccurrenceIndex) && Meets(e.scenarioId, c.scenarioId)
    && Meets(e.category, c.category)
    && Meets(e.skillId, c.skillId) && Meets(e.modelId, c.modelId) && Meets(e.providerId, c.providerId)
    && Meets(e.executionMode, c.executionMode) && Meets(e.simulated, c.simulated) && Meets(e.dryRun, c.dryRun)
    && Meets(e.startedAt, c.startedAt)
  }

  predicate ResultExpected(e: Identity, r: ResultArtifact) {
    && Meets(e.completedAt, r.completedAt) && Meets(e.status, r.status)
    && Meets(e.terminationReason, r.terminationReason)
    && Meets(e.durationMs, r.totalDurationMs) && Meets(e.totalTurns, r.totalTurns)
    && Meets(e.totalTokens, r.totalTokens)
    && Meets(e.benchmarkCohort, r.benchmarkCohort) && Meets(e.eligibilityStatus, r.eligibilityStatus)
    && Meets(e.eligibilityReasons, r.eligibilityReasons) && Meets(e.evaluationStatus, r.evaluationStatus)
    && Meets(e.totalCostUSD, r.costAmountUSD)
  }

  /** `parseReplayArtifactIdentity`; `None` where it throws. */
  function ParseArtifactIdentity(m: Manifest, r: ResultArtifact, expected: Identity): Option<Identity> {
    if !ManifestOk(m) || !ResultOk(r) || m.common != r.common || !CommonExpected(expected, m.common) ||
       !ResultExpected(expected, r) then None
    else
      var c := m.common;
      Some(Identity(
        Some(CanonicalRun), Some(c.runId), Some(c.sweepId), Some(c.cellId), Some(c.planFingerprint),
        Some(c.matrixOccurrenceIndex), Some(c.scenarioId), Some(c.category), Some(c.skillId), Some(c.modelId),
        Some(c.providerId), Some(c.executionMode), Some(c.simulated), Some(c.dryRun), Some(c.startedAt),
        Some(r.completedAt), Some(r.status), Some(r.terminationReason), Some(r.totalDurationMs), Some(r.costAmountUSD),
        Some(r.totalTurns), Some(r.totalTokens), Some(r.benchmarkCohort), Some(r.eligibilityStatus),
        Some(r.eligibilityReasons), Some(r.evaluationStatus)))
  }

  /** What an exported canonical session can be read back from. */
  predicate CanonicalIdentity(id: Identity) {
    && id.sourceKind == Some(CanonicalRun) && id.skillId.Some?
    && id.sweepId.Some? && Nonblank(id.sweepId.value) && id.cellId.Some? && Nonblank(id.cellId.value)
    && id.planFingerprint.Some? && Nonblank(id.planFingerprint.value)
    && id.benchmarkCohort.Some? && id.eligibilityStatus.Some? && id.eligibilityReasons.Some?
    && id.evaluationStatus.Some?
    && id.providerId.Some? && Nonblank(id.providerId.value) && id.executionMode.Some? && id.simulated.Some?
    && id.startedAt.Some? && Nonblank(id.startedAt.value) && id.completedAt.Some? && Nonblank(id.completedAt.value)
    && id.totalTokens.Some? && Count(id.totalTokens.value)
  }

  lemma ParsedIdentityCanonical(m: Manifest, r: ResultArtifact, expected: Identity)
    requires ParseArtifactIdentity(m, r, expected).Some?
    ensures CanonicalIdentity(ParseArtifactIdentity(m, r, expected).value)
    ensures ParseArtifactIdentity(m, r, expected).value.eligibilityReasons == Some(r.eligibilityReasons)
  {
  }

  // ----- what an identity is read from

  /** The expectation is silent, or it is what is known. */
  predicate AtMost<T(==)>(expected: Option<T>, known: Option<T>) {
    expected == None || expected == known
  }

  /** Whatever `expected` names, `id` has; the origin is not compared. */
  predicate Within(expected: Identity, id: Identity) {
    RunWithin(expected, id) && OutcomeWithin(expected, id)
  }

  predicate RunWithin(expected: Identity, id: Identity) {
    && AtMost(expected.runId, id.runId) && AtMost(expected.sweepId, id.sweepId) && AtMost(expected.cellId, id.cellId)
    && AtMost(expected.planFingerprint, id.planFingerprint)
    && AtMost(expected.matrixOccurrenceIndex, id.matrixOccurrenceIndex) && AtMost(expected.scenarioId, id.scenarioId)
    && AtMost(expected.category, id.category) && AtMost(expected.skillId, id.skillId)
    && AtMost(expected.modelId, id.modelId) && AtMost(expected.providerId, id.providerId)
    && AtMost(expected.executionMode, id.executionMode) && AtMost(expected.simulated, id.simulated)
    && AtMost(expected.dryRun, id.dryRun) && AtMost(expected.startedAt, id.startedAt)
  }

  predicate OutcomeWithin(expected: Identity, id: Identity) {
    && AtMost(expected.completedAt, id.completedAt) && AtMost(expected.status, id.status)
    && AtMost(expected.terminationReason, id.terminationReason) && AtMost(expected.durationMs, id.durationMs)
    && AtMost(expected.totalCostUSD, id.totalCostUSD) && AtMost(expected.totalTurns, id.totalTurns)
    && AtMost(expected.totalTokens, id.totalTokens) && AtMost(expected.benchmarkCohort, id.benchmarkCohort)
    && AtMost(expected.eligibilityStatus, id.eligibilityStatus)
    && AtMost(expected.eligibilityReasons, id.eligibilityReasons)
    && AtMost(expected.evaluationStatus, id.evaluationStatus)
  }

  /** An expectation only filters: the identity is the one read without any, if that is within the expectation. */
  lemma ExpectationFilters(m: Manifest, r: ResultArtifact, expected: Identity)
    ensures
      var read := ParseArtifactIdentity(m, r, NO_IDENTITY);
      ParseArtifactIdentity(m, r, expected) == if read.Some? && Within(expected, read.value) then read else None
  {
    NothingExpected(m.common, r);
    if ParseArtifactIdentity(m, r, NO_IDENTITY).Some? {
      var read := ParseArtifactIdentity(m, r, NO_IDENTITY).value;
      assert CommonExpected(expected, m.common) <==> RunWithin(expected, read);
      assert ResultExpected(expected, r) <==> OutcomeWithin(expected, read);
    }
  }

  lemma NothingExpected(c: Common, r: ResultArtifact)
    ensures CommonExpected(NO_IDENTITY, c) && ResultExpected(NO_IDENTITY, r)
  {}

  /** The identity repeats the manifest, and the outcome of the result. */
  lemma ParsedShows(m: Manifest, r: ResultArtifact, expected: Identity)
    requires ParseArtifactIdentity(m, r, expected).Some?
    ensures
      var id := ParseArtifactIdentity(m, r, expected).value;
      && id.sourceKind == Some(CanonicalRun)
      && m.common == Common(id.runId.value, id.sweepId.value, id.cellId.value, id.planFingerprint.value,
                            id.matrixOccurrenceIndex.value, id.scenarioId.value, id.category.value, id.skillId.value,
                            id.modelId.value, id.providerId.value, id.executionMode.value, id.simulated.value,
                            id.dryRun.value, id.startedAt.value)
      && r.common == m.common && id.completedAt == Some(r.completedAt) && id.status == Some(r.status)
      && id.terminationReason == Some(r.terminationReason) && id.durationMs == Some(r.totalDurationMs)
      && id.totalCostUSD == Some(r.costAmountUSD) && id.totalTurns == Some(r.totalTurns)
      && id.totalTokens == Some(r.totalTokens) && id.benchmarkCohort == Some(r.benchmarkCohort)
      && id.eligibilityStatus == Some(r.eligibilityStatus) && id.eligibilityReasons == Some(r.eligibilityReasons)
      && id.evaluationStatus == Some(r.evaluationStatus)
  {}

  /** The names of a run that both artifacts give. */
  function NamesOf(c: Common): seq<string> {
    [c.runId, c.sweepId, c.cellId, c.planFingerprint, c.scenarioId, c.category, c.skillId, c.modelId, c.providerId,
     c.startedAt]
  }

  lemma NamesSaid(c: Common)
    ensures CommonOk(c) <==> (forall i :: 0 <= i < |NamesOf(c)| ==> Nonblank(NamesOf(c)[i])) &&
                             Count(c.matrixOccurrenceIndex)
  {
    var names := NamesOf(c);
    if forall i :: 0 <= i < |names| ==> Nonblank(names[i]) {
      assert Nonblank(names[0]) && Nonblank(names[1]) && Nonblank(names[2]) && Nonblank(names[3]);
      assert Nonblank(names[4]) && Nonblank(names[5]) && Nonblank(names[6]) && Nonblank(names[7]);
      assert Nonblank(names[8]) && Nonblank(names[9]);
    }
  }

  /**
   * Two artifacts give an identity exactly when they are of the right kinds and versions, name one and the same run
   * throughout, date themselves by its start and its end, and the result has sound numbers and the status of its
   * reason.
   */
  lemma ArtifactsAccepted(m: Manifest, r: ResultArtifact)
    ensures
      ParseArtifactIdentity(m, r, NO_IDENTITY).Some? <==>
      && m.schemaVersion == "1.0.0" && m.artifactKind == "manifest" && m.timestamp == m.common.startedAt
      && r.schemaVersion == "2.0.0" && r.artifactKind == "result" && r.timestamp == r.completedAt
      && m.common == r.common && (forall i :: 0 <= i < |NamesOf(m.common)| ==> Nonblank(NamesOf(m.common)[i]))
      && Nonblank(r.completedAt) && Nonblank(r.terminationReason)
      && (r.status == Completed <==> r.terminationReason == "success")
      && (r.status == TimedOut <==> r.terminationReason == "timeout")
      && (r.status == Aborted <==> r.terminationReason == "aborted")
      && FiniteNonnegative(r.totalDurationMs) && FiniteNonnegative(r.costAmountUSD)
      && Count(m.common.matrixOccurrenceIndex) && Count(r.totalTurns) && Count(r.totalTokens)
  {
    NamesSaid(m.common);
  }

  /** The fields a direct replay may expect. */
  predicate OnlyDirectKeys(id: Identity) {
    && id.sweepId.None? && id.cellId.None? && id.planFingerprint.None? && id.matrixOccurrenceIndex.None?
    && id.category.None?
    && id.providerId.None? && id.executionMode.None? && id.simulated.None? && id.dryRun.None? && id.startedAt.None?
    && id.completedAt.None?
    && id.totalTokens.None? && id.benchmarkCohort.None? && id.eligibilityStatus.None? && id.eligibilityReasons.None?
    && id.evaluationStatus.None?
  }

  /** `requireDirectReplayExpectation`; `None` where it throws. */
  function DirectExpectation(identity: Option<Identity>): Option<Identity> {
    if identity.None? then Some(NO_IDENTITY.(sourceKind := Some(Direct)))
    else if !OnlyDirectKeys(identity.value) || identity.value.sourceKind == Some(CanonicalRun) then None
    else Some(identity.value.(sourceKind := Some(Direct)))
  }
}
