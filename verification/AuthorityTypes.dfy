/** The entities of benchmark authority: reasons, evidence, evaluation outcome, cost, and the verdict. */
module AuthorityTypes {
  import opened Base
  import opened Numbers

  datatype Reason =
    | FakeExecution | SimulatedExecution | DryRun | ExecutionIncomplete | ExecutionFailed | ExecutionTimedOut
    | ExecutionAborted | SetupFailedReason | PersistenceFailedReason | CleanupFailedReason
    | EvaluationNotRequested | EvaluationMissing | NoRequiredChecks | NoExecutedChecks | RequiredChecksIncomplete
    | ArtifactIntegrityUnverified | ArtifactIntegrityInvalid | EvaluatorIdentityMissing | EvidenceDigestMissing
    | EvidenceIdentityMismatch | ScoreInvalid | PassInconsistent | EvidenceInvalid

  /** `benchmarkReasonOrder` */
  const REASON_ORDER: seq<Reason> := [
    FakeExecution, SimulatedExecution, DryRun, ExecutionIncomplete, ExecutionFailed, ExecutionTimedOut,
    ExecutionAborted, SetupFailedReason, PersistenceFailedReason, CleanupFailedReason,
    EvaluationNotRequested, EvaluationMissing, NoRequiredChecks, NoExecutedChecks, RequiredChecksIncomplete,
    ArtifactIntegrityUnverified, ArtifactIntegrityInvalid, EvaluatorIdentityMissing, EvidenceDigestMissing,
    EvidenceIdentityMismatch, ScoreInvalid, PassInconsistent, EvidenceInvalid]

  datatype Identity = Identity(runId: string, scenarioId: string, skillId: string, modelId: string,
                               providerId: string, workspaceFingerprint: string)

  datatype EvidenceStatus = Unavailable | Collecting | Complete | EvidenceBroken

  datatype Integrity = Unverified | Verified | IntegrityBroken

  datatype Evidence = Evidence(status: EvidenceStatus, declared: Num, executed: Num, passed: Num, integrity: Integrity,
                               evaluatorId: Option<string>, evaluatorVersion: Option<string>,
                               evidenceDigest: Option<string>, identity: Option<Identity>)

  datatype OutcomeStatus = NotRequested | NotEvaluated | InvalidOutcome

  datatype Evaluation =
    | Unevaluated(status: OutcomeStatus, reasons: seq<Reason>)
    | Evaluated(compositeScore: Num, evaluationPassed: bool, passScoreThreshold: Num,
                requireAllDeterministicPass: bool, evaluatedAt: string)

  /** The status an evaluation outcome has in a row or a replay. */
  datatype EvaluationStatus = NotRequestedStatus | NotEvaluatedStatus | EvaluatedStatus | InvalidStatus

  datatype Cost =
    | SimulatedZero(amountUSD: Num)
    | UnverifiedCost(amountUSD: Num)
    | VerifiedCost(amountUSD: Num, pricingIdentity: string, usageDigest: string)

  datatype ExecutionMode = Fake | Live

  datatype Lifecycle = CompletedRun | FailedRun | TimedOutRun | AbortedRun | OtherLifecycle(text: string)

  datatype Termination =
    | Success | Timeout | Aborted | SetupFailed | PersistenceFailed | CleanupFailed | OtherTermination(text: string)

  datatype Cohort = EligibleCohort | ValidationCohort | OperationalCohort

  datatype EligibilityStatus = Eligible | Ineligible | UnknownEligibility

  /** A `BenchmarkAuthority` as found at run time: any combination of fields, consistent or not. */
  datatype Authority = Authority(cohort: Cohort, eligibility: EligibilityStatus, eligibilityReasons: seq<Reason>,
                                 evidence: Evidence, evaluation: Evaluation, cost: Cost,
                                 compositeScore: Option<Num>, passedBenchmark: Option<bool>, actualCostUSD: Option<Num>)

  datatype AuthorityInput = AuthorityInput(mode: ExecutionMode, simulated: bool, dryRun: bool, lifecycle: Lifecycle,
                                           termination: Option<Termination>, expectedIdentity: Identity,
                                           evidence: Evidence, evaluation: Evaluation, cost: Cost)

  /** `nonempty(value)` */
  predicate NonblankOption(text: Option<string>) {
    text.Some? && Nonblank(text.value)
  }

  predicate ValidIdentity(id: Identity) {
    && Nonblank(id.runId) && Nonblank(id.scenarioId) && Nonblank(id.skillId)
    && Nonblank(id.modelId) && Nonblank(id.providerId) && Nonblank(id.workspaceFingerprint)
  }

  predicate ValidIdentityOption(id: Option<Identity>) {
    id.Some? && ValidIdentity(id.value)
  }
}
