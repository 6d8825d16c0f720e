/** `classifyBenchmarkAuthority` and `assertBenchmarkAuthority`. */
module BenchmarkAuthority {
  import opened Base
  import opened Numbers
  import opened AuthorityTypes

  // ----- ordered reasons

  function Filter(order: seq<Reason>, present: set<Reason>): (r: seq<Reason>)
    ensures forall x :: x in r <==> x in order && x in present
  {
    if order == [] then []
    else (if order[0] in present then [order[0]] else []) + Filter(order[1..], present)
  }

  /** `sortBenchmarkReasons` */
  function SortReasons(present: set<Reason>): (r: seq<Reason>)
    ensures forall x :: x in r <==> x in present
  {
    assert forall x: Reason :: x in REASON_ORDER by {
      forall x: Reason ensures x in REASON_ORDER { ReasonListed(x); }
    }
    Filter(REASON_ORDER, present)
  }

  function Rank(x: Reason): (k: nat)
    ensures k < |REASON_ORDER| && REASON_ORDER[k] == x
  {
    match x
    case FakeExecution => 0 case SimulatedExecution => 1 case DryRun => 2 case ExecutionIncomplete => 3
    case ExecutionFailed => 4 case ExecutionTimedOut => 5 case ExecutionAborted => 6 case SetupFailedReason => 7
    case PersistenceFailedReason => 8 case CleanupFailedReason => 9 case EvaluationNotRequested => 10
    case EvaluationMissing => 11 case NoRequiredChecks => 12 case NoExecutedChecks => 13
    case RequiredChecksIncomplete => 14 case ArtifactIntegrityUnverified => 15 case ArtifactIntegrityInvalid => 16
    case EvaluatorIdentityMissing => 17 case EvidenceDigestMissing => 18 case EvidenceIdentityMismatch => 19
    case ScoreInvalid => 20 case PassInconsistent => 21 case EvidenceInvalid => 22
  }

  lemma ReasonListed(x: Reason)
    ensures x in REASON_ORDER
  {
    assert REASON_ORDER[Rank(x)] == x;
  }

  function Elements(r: seq<Reason>): set<Reason> {
    set x | x in r
  }

  /** Sorting depends on the set of reasons only, so a sorted list sorts to itself. */
  lemma SortReasonsFixed(present: set<Reason>)
    ensures SortReasons(Elements(SortReasons(present))) == SortReasons(present)
  {
    assert Elements(SortReasons(present)) == present;
  }

  // ----- tests on parts

  predicate IsValidationExecution(input: AuthorityInput) {
    input.mode == Fake || input.simulated || input.dryRun
  }

  predicate IsSuccessfulLifecycle(input: AuthorityInput) {
    input.lifecycle == CompletedRun && input.termination == Some(Success)
  }

  predicate ValidCounts(e: Evidence) {
    && IsInteger(e.declared) && IsInteger(e.executed) && IsInteger(e.passed)
    && e.declared.v >= 0.0 && e.executed.v >= 0.0 && e.passed.v >= 0.0
    && e.passed.v <= e.executed.v && e.executed.v <= e.declared.v
  }

  predicate ValidComplete(e: Evidence) {
    && ValidCounts(e)
    && e.declared.v > 0.0
    && e.executed == e.declared
    && e.integrity == Verified
    && NonblankOption(e.evaluatorId) && NonblankOption(e.evaluatorVersion) && NonblankOption(e.evidenceDigest)
    && ValidIdentityOption(e.identity)
  }

  predicate ExpectedPass(score: Num, threshold: Num, requireAll: bool, e: Evidence) {
    Le(threshold, score) && (!requireAll || Eq(e.passed, e.declared))
  }

  // ----- why a run is not eligible

  /** The lifecycle reason, at most one. */
  function LifecycleReason(input: AuthorityInput): Option<Reason> {
    if input.lifecycle == TimedOutRun || input.termination == Some(Timeout) then Some(ExecutionTimedOut)
    else if input.lifecycle == AbortedRun || input.termination == Some(Aborted) then Some(ExecutionAborted)
    else if input.termination == Some(SetupFailed) then Some(SetupFailedReason)
    else if input.termination == Some(PersistenceFailed) then Some(PersistenceFailedReason)
    else if input.termination == Some(CleanupFailed) then Some(CleanupFailedReason)
    else if input.lifecycle == FailedRun then Some(ExecutionFailed)
    else if !IsSuccessfulLifecycle(input) then Some(ExecutionIncomplete)
    else None
  }

  predicate CountsIncomplete(e: Evidence) {
    || !IsInteger(e.passed) || Lt(e.passed, ZERO)
    || Lt(e.declared, e.executed) || Lt(e.executed, e.passed)
    || !Eq(e.executed, e.declared)
  }

  predicate CostContradicted(input: AuthorityInput) {
    || !FiniteNonnegative(input.cost.amountUSD)
    || (input.cost.SimulatedZero? && !Eq(input.cost.amountUSD, ZERO))
    || (!IsValidationExecution(input) && input.cost.SimulatedZero?)
    || (input.cost.VerifiedCost? && (!Nonblank(input.cost.pricingIdentity) || !Nonblank(input.cost.usageDigest)))
  }

  predicate HasStatus(e: Evaluation, status: OutcomeStatus) {
    e.Unevaluated? && e.status == status
  }

  predicate EvidenceContradicted(input: AuthorityInput) {
    || HasStatus(input.evaluation, InvalidOutcome)
    || input.evidence.status == EvidenceBroken
    || (input.evaluation.Evaluated? && (input.evidence.status != Complete || !Nonblank(input.evaluation.evaluatedAt)))
  }

  /** For each reason, exactly when it is given. */
  predicate Holds(input: AuthorityInput, reason: Reason) {
    var e := input.evidence;
    match reason
    case FakeExecution => input.mode == Fake
    case SimulatedExecution => input.simulated
    case DryRun => input.dryRun
    case EvaluationNotRequested => HasStatus(input.evaluation, NotRequested)
    case EvaluationMissing => HasStatus(input.evaluation, NotEvaluated)
    case NoRequiredChecks => !IntegerAtLeast(e.declared, 1.0)
    case NoExecutedChecks => !IntegerAtLeast(e.executed, 1.0)
    case RequiredChecksIncomplete => CountsIncomplete(e)
    case ArtifactIntegrityUnverified => e.integrity == Unverified
    case ArtifactIntegrityInvalid => e.integrity == IntegrityBroken
    case EvaluatorIdentityMissing => !NonblankOption(e.evaluatorId) || !NonblankOption(e.evaluatorVersion)
    case EvidenceDigestMissing => !NonblankOption(e.evidenceDigest)
    case EvidenceIdentityMismatch =>
      e.status == Complete && !(ValidIdentityOption(e.identity) && e.identity.value == input.expectedIdentity)
    case ScoreInvalid =>
      input.evaluation.Evaluated? &&
      !(FiniteRange(input.evaluation.compositeScore, 0.0, 100.0) &&
        FiniteRange(input.evaluation.passScoreThreshold, 0.0, 100.0))
    case PassInconsistent =>
      input.evaluation.Evaluated? &&
      input.evaluation.evaluationPassed != ExpectedPass(input.evaluation.compositeScore,
                                                        input.evaluation.passScoreThreshold,
                                                        input.evaluation.requireAllDeterministicPass, e)
    case EvidenceInvalid => EvidenceContradicted(input) || CostContradicted(input)
    case _ => LifecycleReason(input) == Some(reason)
  }

  function ReasonSet(input: AuthorityInput): set<Reason> {
    set r: Reason | Holds(input, r)
  }

  function Reasons(input: AuthorityInput): (r: seq<Reason>)
    ensures forall x :: x in r <==> Holds(input, x)
  {
    SortReasons(ReasonSet(input))
  }

  // ----- the code that collects the reasons

  method AddLifecycleReason(input: AuthorityInput, given: set<Reason>) returns (reasons: set<Reason>)
    ensures reasons == given + (if LifecycleReason(input).Some? then {LifecycleReason(input).value} else {})
  {
    reasons := given;
    if input.lifecycle == TimedOutRun || input.termination == Some(Timeout) {
      reasons := reasons + {ExecutionTimedOut};
    } else if input.lifecycle == AbortedRun || input.termination == Some(Aborted) {
      reasons := reasons + {ExecutionAborted};
    } else if input.termination == Some(SetupFailed) {
      reasons := reasons + {SetupFailedReason};
    } else if input.termination == Some(PersistenceFailed) {
      reasons := reasons + {PersistenceFailedReason};
    } else if input.termination == Some(CleanupFailed) {
      reasons := reasons + {CleanupFailedReason};
    } else if input.lifecycle == FailedRun {
      reasons := reasons + {ExecutionFailed};
    } else if !IsSuccessfulLifecycle(input) {
      reasons := reasons + {ExecutionIncomplete};
    }
  }

  /** The reasons given for the outcome status and the check counts. */
  predicate AddedByCounts(input: AuthorityInput, r: Reason) {
    match r
    case EvaluationNotRequested | EvaluationMissing | NoRequiredChecks | NoExecutedChecks | RequiredChecksIncomplete =>
      Holds(input, r)
    case EvidenceInvalid => HasStatus(input.evaluation, InvalidOutcome)
    case _ => false
  }

  method AddCountReasons(input: AuthorityInput, given: set<Reason>) returns (reasons: set<Reason>)
    ensures forall r :: r in reasons <==> r in given || AddedByCounts(input, r)
  {
    var evidence := input.evidence;
    reasons := given;
    if HasStatus(input.evaluation, NotRequested) { reasons := reasons + {EvaluationNotRequested}; }
    else if HasStatus(input.evaluation, NotEvaluated) { reasons := reasons + {EvaluationMissing}; }
    else if HasStatus(input.evaluation, InvalidOutcome) { reasons := reasons + {EvidenceInvalid}; }
    if !IntegerAtLeast(evidence.declared, 1.0) { reasons := reasons + {NoRequiredChecks}; }
    if !IntegerAtLeast(evidence.executed, 1.0) { reasons := reasons + {NoExecutedChecks}; }
    if CountsIncomplete(evidence) { reasons := reasons + {RequiredChecksIncomplete}; }
  }

  /** The reasons given for integrity, evaluator, digest and identity. */
  predicate AddedByProvenance(input: AuthorityInput, r: Reason) {
    match r
    case ArtifactIntegrityUnverified | ArtifactIntegrityInvalid | EvaluatorIdentityMissing | EvidenceDigestMissing
       | EvidenceIdentityMismatch => Holds(input, r)
    case EvidenceInvalid => input.evidence.status == EvidenceBroken ||
      (input.evaluation.Evaluated? && input.evidence.status != Complete)
    case _ => false
  }

  method AddProvenanceReasons(input: AuthorityInput, given: set<Reason>) returns (reasons: set<Reason>)
    ensures forall r :: r in reasons <==> r in given || AddedByProvenance(input, r)
  {
    var evidence := input.evidence;
    reasons := given;
    if evidence.integrity == Unverified { reasons := reasons + {ArtifactIntegrityUnverified}; }
    else if evidence.integrity == IntegrityBroken { reasons := reasons + {ArtifactIntegrityInvalid}; }
    if !NonblankOption(evidence.evaluatorId) || !NonblankOption(evidence.evaluatorVersion) {
      reasons := reasons + {EvaluatorIdentityMissing};
    }
    if !NonblankOption(evidence.evidenceDigest) { reasons := reasons + {EvidenceDigestMissing}; }
    if evidence.status == EvidenceBroken { reasons := reasons + {EvidenceInvalid}; }
    if input.evaluation.Evaluated? && evidence.status != Complete { reasons := reasons + {EvidenceInvalid}; }
    if evidence.status == Complete &&
       (!ValidIdentityOption(evidence.identity) || evidence.identity.value != input.expectedIdentity)
    {
      reasons := reasons + {EvidenceIdentityMismatch};
    }
  }

  /** The reasons given for the score and the pass flag. */
  predicate AddedByScore(input: AuthorityInput, r: Reason) {
    match r
    case ScoreInvalid | PassInconsistent => Holds(input, r)
    case EvidenceInvalid => input.evaluation.Evaluated? && !Nonblank(input.evaluation.evaluatedAt)
    case _ => false
  }

  method AddScoreReasons(input: AuthorityInput, given: set<Reason>) returns (reasons: set<Reason>)
    ensures forall r :: r in reasons <==> r in given || AddedByScore(input, r)
  {
    reasons := given;
    if input.evaluation.Evaluated? {
      var evaluation := input.evaluation;
      if !FiniteRange(evaluation.compositeScore, 0.0, 100.0) ||
         !FiniteRange(evaluation.passScoreThreshold, 0.0, 100.0)
      {
        reasons := reasons + {ScoreInvalid};
      }
      if !Nonblank(evaluation.evaluatedAt) { reasons := reasons + {EvidenceInvalid}; }
      var expectedPass := ExpectedPass(evaluation.compositeScore, evaluation.passScoreThreshold,
                                       evaluation.requireAllDeterministicPass, input.evidence);
      if evaluation.evaluationPassed != expectedPass { reasons := reasons + {PassInconsistent}; }
    }
  }

  /** The cost tests at the end of `collectReasons`. */
  method AddCostReasons(input: AuthorityInput, before: set<Reason>) returns (reasons: set<Reason>)
    ensures reasons == before + if CostContradicted(input) then {EvidenceInvalid} else {}
  {
    reasons := before;
    if !FiniteNonnegative(input.cost.amountUSD) { reasons := reasons + {EvidenceInvalid}; }
    if input.cost.SimulatedZero? && !Eq(input.cost.amountUSD, ZERO) { reasons := reasons + {EvidenceInvalid}; }
    if !IsValidationExecution(input) && input.cost.SimulatedZero? { reasons := reasons + {EvidenceInvalid}; }
    if input.cost.VerifiedCost? && (!Nonblank(input.cost.pricingIdentity) || !Nonblank(input.cost.usageDigest)) {
      reasons := reasons + {EvidenceInvalid};
    }
  }

  /** `collectReasons`: a set filled test by test holds exactly the reasons that hold, in the fixed order. */
  method CollectReasons(input: AuthorityInput) returns (sorted: seq<Reason>)
    ensures sorted == Reasons(input)
  {
    var reasons: set<Reason> := {};
    if input.mode == Fake { reasons := reasons + {FakeExecution}; }
    if input.simulated { reasons := reasons + {SimulatedExecution}; }
    if input.dryRun { reasons := reasons + {DryRun}; }
    reasons := AddLifecycleReason(input, reasons);
    reasons := AddCountReasons(input, reasons);
    reasons := AddProvenanceReasons(input, reasons);
    reasons := AddScoreReasons(input, reasons);
    reasons := AddCostReasons(input, reasons);
    forall r: Reason
      ensures r in reasons <==> Holds(input, r)
    {}
    assert reasons == ReasonSet(input);
    sorted := SortReasons(reasons);
  }

  // ----- classification

  function NormalizeEvidence(e: Evidence): Evidence {
    if ValidCounts(e) && (e.status == Complete ==> ValidComplete(e)) then e
    else
      var declared := if IntegerAtLeast(e.declared, 0.0) then e.declared else ZERO;
      var executed := if IntegerAtLeast(e.executed, 0.0) then MinNum(e.executed, declared) else ZERO;
      var passed := if IntegerAtLeast(e.passed, 0.0) then MinNum(e.passed, executed) else ZERO;
      e.(status := EvidenceBroken, declared := declared, executed := executed, passed := passed)
  }

  function NormalizeCost(input: AuthorityInput): Cost {
    if IsValidationExecution(input) then SimulatedZero(ZERO)
    else if FiniteNonnegative(input.cost.amountUSD) then UnverifiedCost(input.cost.amountUSD)
    else UnverifiedCost(ZERO)
  }

  function DemotedStatus(e: Evaluation): OutcomeStatus {
    if e.Evaluated? then InvalidOutcome else e.status
  }

  /** `classifyBenchmarkAuthority` */
  function Classify(input: AuthorityInput): Authority {
    var reasons := Reasons(input);
    if reasons == [] && input.evidence.status == Complete && input.evaluation.Evaluated? then
      Authority(EligibleCohort, Eligible, [], input.evidence, input.evaluation, input.cost,
                Some(input.evaluation.compositeScore), Some(input.evaluation.evaluationPassed),
                if input.cost.VerifiedCost? then Some(input.cost.amountUSD) else None)
    else
      var validation := IsValidationExecution(input) && IsSuccessfulLifecycle(input);
      Authority(if validation then ValidationCohort else OperationalCohort, Ineligible, reasons,
                NormalizeEvidence(input.evidence), Unevaluated(DemotedStatus(input.evaluation), reasons),
                NormalizeCost(input), None, None, None)
  }

  // ----- the consistency check

  predicate EligibleConsistent(a: Authority) {
    && a.cohort == EligibleCohort
    && a.evidence.status == Complete
    && a.evaluation.Evaluated?
    && a.compositeScore.Some? && Eq(a.compositeScore.value, a.evaluation.compositeScore)
    && a.passedBenchmark == Some(a.evaluation.evaluationPassed)
    && a.eligibilityReasons == []
    && ValidComplete(a.evidence)
    && FiniteRange(a.evaluation.compositeScore, 0.0, 100.0)
    && FiniteRange(a.evaluation.passScoreThreshold, 0.0, 100.0)
    && Nonblank(a.evaluation.evaluatedAt)
    && a.evaluation.evaluationPassed == ExpectedPass(a.evaluation.compositeScore, a.evaluation.passScoreThreshold,
                                                     a.evaluation.requireAllDeterministicPass, a.evidence)
    && !a.cost.SimulatedZero?
    && FiniteNonnegative(a.cost.amountUSD)
    && (a.actualCostUSD.Some? ==> FiniteNonnegative(a.actualCostUSD.value))
    && (a.cost.VerifiedCost? ==> a.actualCostUSD == Some(a.cost.amountUSD))
    && (!a.cost.VerifiedCost? ==> a.actualCostUSD == None)
  }

  predicate DiagnosticConsistent(a: Authority) {
    && a.cohort != EligibleCohort
    && a.evaluation.Unevaluated?
    && !a.cost.VerifiedCost?
    && a.compositeScore == None && a.passedBenchmark == None && a.actualCostUSD == None
    && a.eligibilityReasons != []
    && a.evaluation.reasons == a.eligibilityReasons
    && ValidCounts(a.evidence)
    && (a.evidence.status == Complete ==> ValidComplete(a.evidence))
    && FiniteNonnegative(a.cost.amountUSD)
    && (a.cost.SimulatedZero? ==> Eq(a.cost.amountUSD, ZERO))
    && a.eligibilityReasons == SortReasons(Elements(a.eligibilityReasons))
  }

  /** `assertBenchmarkAuthority` does not throw. */
  predicate Consistent(a: Authority) {
    if a.eligibility == Eligible then EligibleConsistent(a) else DiagnosticConsistent(a)
  }

  // ----- theorems

  lemma NoReasons(input: AuthorityInput)
    ensures Reasons(input) == [] <==> forall r :: !Holds(input, r)
  {
    if Reasons(input) == [] {
      forall r ensures !Holds(input, r) { assert r !in Reasons(input); }
    } else {
      assert Holds(input, Reasons(input)[0]);
    }
  }

  /** What an eligible run has to show, in one condition over the input. */
  predicate Deserving(input: AuthorityInput) {
    && !IsValidationExecution(input) && IsSuccessfulLifecycle(input)
    && input.evidence.status == Complete && ValidComplete(input.evidence)
    && input.evidence.identity.value == input.expectedIdentity
    && input.evaluation.Evaluated? && Nonblank(input.evaluation.evaluatedAt)
    && FiniteRange(input.evaluation.compositeScore, 0.0, 100.0)
    && FiniteRange(input.evaluation.passScoreThreshold, 0.0, 100.0)
    && input.evaluation.evaluationPassed
       == ExpectedPass(input.evaluation.compositeScore, input.evaluation.passScoreThreshold,
                                                         input.evaluation.requireAllDeterministicPass, input.evidence)
    && !CostContradicted(input)
  }

  /** Evidence that gives no reason is complete and valid. */
  lemma SoundEvidence(input: AuthorityInput)
    requires !Holds(input, NoRequiredChecks) && !Holds(input, NoExecutedChecks)
    requires !Holds(input, RequiredChecksIncomplete)
    requires !Holds(input, ArtifactIntegrityUnverified) && !Holds(input, ArtifactIntegrityInvalid)
    requires !Holds(input, EvaluatorIdentityMissing) && !Holds(input, EvidenceDigestMissing)
    requires input.evidence.status == Complete && !Holds(input, EvidenceIdentityMismatch)
    ensures ValidComplete(input.evidence) && input.evidence.identity.value == input.expectedIdentity
  {}

  lemma SoundRun(input: AuthorityInput)
    requires !Holds(input, FakeExecution) && !Holds(input, SimulatedExecution) && !Holds(input, DryRun)
    requires LifecycleReason(input).None?
    ensures !IsValidationExecution(input) && IsSuccessfulLifecycle(input)
  {}

  lemma SoundOutcome(input: AuthorityInput)
    requires !Holds(input, EvaluationNotRequested) && !Holds(input, EvaluationMissing) && !Holds(input, EvidenceInvalid)
    ensures input.evaluation.Evaluated? && Nonblank(input.evaluation.evaluatedAt) && input.evidence.status == Complete
    ensures !CostContradicted(input)
  {}

  lemma NoReasonsDeserving(input: AuthorityInput)
    requires forall r :: !Holds(input, r)
    ensures Deserving(input)
  {
    if LifecycleReason(input).Some? {
      assert !Holds(input, LifecycleReason(input).value);
    } else {
      SoundRun(input);
      SoundOutcome(input);
      SoundEvidence(input);
      assert !Holds(input, ScoreInvalid) && !Holds(input, PassInconsistent);
    }
  }

  lemma DeservingNoReason(input: AuthorityInput, r: Reason)
    requires Deserving(input)
    ensures !Holds(input, r)
  {}

  lemma DeservingHasNoReasons(input: AuthorityInput)
    ensures Deserving(input) <==> Reasons(input) == []
  {
    NoReasons(input);
    if Deserving(input) {
      forall r ensures !Holds(input, r) { DeservingNoReason(input, r); }
    } else if Reasons(input) == [] {
      NoReasonsDeserving(input);
    }
  }

  /** The lifecycle reasons, gravest first. */
  function Gravity(r: Reason): Option<nat> {
    match r
    case ExecutionTimedOut => Some(0) case ExecutionAborted => Some(1) case SetupFailedReason => Some(2)
    case PersistenceFailedReason => Some(3) case CleanupFailedReason => Some(4) case ExecutionFailed => Some(5)
    case ExecutionIncomplete => Some(6)
    case _ => None
  }

  /** What has to have happened for each of them, whatever else did. */
  predicate Happened(input: AuthorityInput, r: Reason)
    ensures Happened(input, r) ==> Gravity(r).Some?
  {
    match r
    case ExecutionTimedOut => input.lifecycle == TimedOutRun || input.termination == Some(Timeout)
    case ExecutionAborted => input.lifecycle == AbortedRun || input.termination == Some(Aborted)
    case SetupFailedReason => input.termination == Some(SetupFailed)
    case PersistenceFailedReason => input.termination == Some(PersistenceFailed)
    case CleanupFailedReason => input.termination == Some(CleanupFailed)
    case ExecutionFailed => input.lifecycle == FailedRun
    case ExecutionIncomplete => !(input.lifecycle == CompletedRun && input.termination == Some(Success))
    case _ => false
  }

  /** The run has `r` behind it, and nothing graver. */
  ghost predicate Gravest(input: AuthorityInput, r: Reason) {
    Happened(input, r) && forall q :: Happened(input, q) ==> Gravity(r).value <= Gravity(q).value
  }

  lemma LifecycleReasonGravest(input: AuthorityInput, r: Reason)
    requires LifecycleReason(input) == Some(r)
    ensures Gravest(input, r)
  {}

  lemma LifecycleReasonListed(input: AuthorityInput, r: Reason)
    requires Gravity(r).Some?
    ensures r in Reasons(input) <==> LifecycleReason(input) == Some(r)
  {}

  /** A run is given at most one lifecycle reason: the gravest that happened. */
  lemma OneLifecycleReason(input: AuthorityInput, r: Reason)
    requires Gravity(r).Some?
    ensures r in Reasons(input) <==> Gravest(input, r)
  {
    LifecycleReasonListed(input, r);
    if LifecycleReason(input).Some? {
      LifecycleReasonGravest(input, LifecycleReason(input).value);
    }
  }

  lemma NothingHappened(input: AuthorityInput, r: Reason)
    requires IsSuccessfulLifecycle(input)
    ensures !Happened(input, r)
  {}

  /** A run is given a lifecycle reason exactly when it did not complete successfully. */
  lemma LifecycleReasonUnlessSuccessful(input: AuthorityInput)
    ensures (exists r :: Gravity(r).Some? && r in Reasons(input)) <==> !IsSuccessfulLifecycle(input)
  {
    if IsSuccessfulLifecycle(input) {
      forall r | Gravity(r).Some?
        ensures r !in Reasons(input)
      {
        OneLifecycleReason(input, r);
        NothingHappened(input, r);
      }
    } else {
      var r := LifecycleReason(input).value;
      LifecycleReasonGravest(input, r);
      OneLifecycleReason(input, r);
    }
  }

  /** Eligibility is granted exactly to deserving inputs; the second and third tests of the code add nothing. */
  lemma EligibleExactly(input: AuthorityInput)
    ensures Classify(input).eligibility == Eligible <==> Deserving(input)
  {
    DeservingHasNoReasons(input);
  }

  /** A refused run belongs to the validation cohort exactly when it was a rehearsal that completed successfully. */
  lemma RefusedCohort(input: AuthorityInput)
    requires !Deserving(input)
    ensures Classify(input).cohort in {ValidationCohort, OperationalCohort}
    ensures Classify(input).cohort == ValidationCohort <==>
            (input.mode == Fake || input.simulated || input.dryRun) &&
            input.lifecycle == CompletedRun && input.termination == Some(Success)
  {
    DeservingHasNoReasons(input);
  }

  lemma NormalizedEvidenceValid(e: Evidence)
    ensures ValidCounts(NormalizeEvidence(e))
    ensures NormalizeEvidence(e).status == Complete ==> ValidComplete(NormalizeEvidence(e))
    ensures NormalizeEvidence(NormalizeEvidence(e)) == NormalizeEvidence(e)
  {}

  /** Every classification passes the consistency check, whatever the input. */
  lemma ClassificationConsistent(input: AuthorityInput)
    ensures Consistent(Classify(input))
    ensures Classify(input).eligibility != Eligible ==> Classify(input).eligibilityReasons != []
  {
    DeservingHasNoReasons(input);
    NormalizedEvidenceValid(input.evidence);
    SortReasonsFixed(ReasonSet(input));
  }

  /** The input of a second classification: the same run, now carrying the verdict `a`. */
  function Reclassified(input: AuthorityInput, a: Authority): AuthorityInput {
    input.(evidence := a.evidence, evaluation := a.evaluation, cost := a.cost)
  }

  /** An eligible verdict is confirmed at once. */
  lemma EligibleIsFixed(input: AuthorityInput)
    requires Classify(input).eligibility == Eligible
    ensures Classify(Reclassified(input, Classify(input))) == Classify(input)
  {}

  lemma SameReasons(input: AuthorityInput, other: AuthorityInput)
    requires forall r :: Holds(input, r) <==> Holds(other, r)
    ensures Reasons(input) == Reasons(other)
  {
    assert ReasonSet(input) == ReasonSet(other);
  }

  lemma ReasonIgnoresRecordedReasons(input: AuthorityInput, status: OutcomeStatus, reasons: seq<Reason>,
                                     reasons': seq<Reason>, r: Reason)
    ensures Holds(input.(evaluation := Unevaluated(status, reasons)), r) <==>
            Holds(input.(evaluation := Unevaluated(status, reasons')), r)
  {}

  /** Reasons do not look at the reasons recorded in an evaluation. */
  lemma ReasonsIgnoreRecordedReasons(input: AuthorityInput, status: OutcomeStatus, reasons: seq<Reason>,
                                     reasons': seq<Reason>)
    ensures Reasons(input.(evaluation := Unevaluated(status, reasons)))
            == Reasons(input.(evaluation := Unevaluated(status, reasons')))
  {
    var one, other := input.(evaluation := Unevaluated(status, reasons)),
                      input.(evaluation := Unevaluated(status, reasons'));
    forall r
      ensures Holds(one, r) <==> Holds(other, r)
    {
      ReasonIgnoresRecordedReasons(input, status, reasons, reasons', r);
    }
    SameReasons(one, other);
  }

  /** A verdict carried into a second classification changes nothing but, possibly, the reasons. */
  lemma SecondPass(input: AuthorityInput)
    requires Classify(input).eligibility != Eligible
    ensures var a := Classify(input); var b := Classify(Reclassified(input, a));
      && b == a.(eligibilityReasons := b.eligibilityReasons,
                 evaluation := Unevaluated(a.evaluation.status, b.eligibilityReasons))
      && b.eligibilityReasons == Reasons(Reclassified(input, a))
  {
    var a := Classify(input);
    NormalizedEvidenceValid(input.evidence);
    EligibleExactly(Reclassified(input, a));
  }

  /** Classifying a verdict reaches a fixed point: the second verdict is confirmed by every later pass. */
  lemma SecondPassIsFixed(input: AuthorityInput)
    ensures var b := Classify(Reclassified(input, Classify(input)));
      Classify(Reclassified(input, b)) == b
  {
    var a := Classify(input);
    if a.eligibility == Eligible {
      EligibleIsFixed(input);
    } else {
      var again := Reclassified(input, a);
      var b := Classify(again);
      SecondPass(input);
      SecondPass(again);
      assert Reclassified(again, b) == Reclassified(input, b);
      ReasonsIgnoreRecordedReasons(again, a.evaluation.status, a.evaluation.reasons, b.evaluation.reasons);
    }
  }

  /** The verdict itself records a contradiction: it refuses an evaluation, or its evidence is marked broken. */
  predicate RecordsContradiction(input: AuthorityInput) {
    input.evaluation.Evaluated? || HasStatus(input.evaluation, InvalidOutcome) ||
      NormalizeEvidence(input.evidence).status == EvidenceBroken
  }

  /** What the second pass will look at when the first refuses the run. */
  function Refused(input: AuthorityInput, reasons: seq<Reason>): AuthorityInput {
    input.(evidence := NormalizeEvidence(input.evidence),
           evaluation := Unevaluated(DemotedStatus(input.evaluation), reasons), cost := NormalizeCost(input))
  }

  /**
   * No reason is gained or lost when the verdict replaces the evidence, the evaluation and the cost: contradiction is a
   * reason exactly when the verdict records one, no score reason is hidden by the demotion, no identity mismatch by the
   * broken evidence, and clipping the counts changes neither of the two count reasons.
   */
  predicate ReasonsSettled(input: AuthorityInput) {
    var e := input.evidence;
    && (Holds(input, EvidenceInvalid) <==> RecordsContradiction(input))
    && !Holds(input, ScoreInvalid) && !Holds(input, PassInconsistent)
    && (NormalizeEvidence(e).status == EvidenceBroken ==> !Holds(input, EvidenceIdentityMismatch))
    && (IntegerAtLeast(e.executed, 1.0) ==> IntegerAtLeast(e.declared, 1.0))
    && (CountsIncomplete(e) ==> CountsIncomplete(NormalizeEvidence(e)))
  }

  /** Evidence that normalization marks as broken, over its raw counts and statuses. */
  predicate BrokenEvidence(e: Evidence) {
    e.status == EvidenceBroken || !ValidCounts(e) || (e.status == Complete && !ValidComplete(e))
  }

  /**
   * Is a contradiction reported exactly when the verdict will record one? An evaluation is refused as contradictory.
   */
  predicate ContradictionSettled(input: AuthorityInput) {
    var e := input.evidence;
    match input.evaluation
    case Evaluated(_, _, _, _, evaluatedAt) => e.status != Complete || !Nonblank(evaluatedAt) || CostContradicted(input)
    case Unevaluated(status, _) =>
      status == InvalidOutcome || e.status == EvidenceBroken || (CostContradicted(input) <==> BrokenEvidence(e))
  }

  /** Is the score sound, so that demoting the evaluation hides no reason? */
  predicate ScoreSettled(input: AuthorityInput) {
    var v := input.evaluation;
    v.Evaluated? ==>
      && FiniteRange(v.compositeScore, 0.0, 100.0) && FiniteRange(v.passScoreThreshold, 0.0, 100.0)
      && v.evaluationPassed == ExpectedPass(v.compositeScore, v.passScoreThreshold, v.requireAllDeterministicPass,
                                            input.evidence)
  }

  /**
   * Do the counts give the same reasons after clipping? Nothing executed without a declaration, no excess clipped to
   * equality.
   */
  predicate CountsSettled(e: Evidence) {
    && (IntegerAtLeast(e.executed, 1.0) ==> IntegerAtLeast(e.declared, 1.0))
    && (CountsIncomplete(e) ==>
          IntegerAtLeast(e.declared, 1.0) && !(IntegerAtLeast(e.executed, 1.0) && Le(e.declared, e.executed)))
  }

  /** The inputs whose refusal a second pass confirms, over their raw counts, statuses and scores. */
  predicate Settled(input: AuthorityInput) {
    var e := input.evidence;
    && ContradictionSettled(input)
    && ScoreSettled(input)
    && (e.status == Complete && !ValidComplete(e) ==>
        ValidIdentityOption(e.identity) && e.identity.value == input.expectedIdentity)
    && CountsSettled(e)
  }

  lemma BrokenEvidenceIs(e: Evidence)
    ensures NormalizeEvidence(e).status == EvidenceBroken <==> BrokenEvidence(e)
  {}

  lemma CountsSettledIs(e: Evidence)
    ensures CountsSettled(e) <==> (IntegerAtLeast(e.executed, 1.0) ==> IntegerAtLeast(e.declared, 1.0)) &&
                                  (CountsIncomplete(e) ==> CountsIncomplete(NormalizeEvidence(e)))
  {}

  /** The raw tests say that no reason is gained or lost. */
  lemma SettledIs(input: AuthorityInput)
    ensures Settled(input) <==> ReasonsSettled(input)
  {
    BrokenEvidenceIs(input.evidence);
    CountsSettledIs(input.evidence);
    assert (Holds(input, EvidenceInvalid) <==> RecordsContradiction(input)) <==> ContradictionSettled(input);
    assert ScoreSettled(input) <==> !Holds(input, ScoreInvalid) && !Holds(input, PassInconsistent);
  }

  predicate Touched(r: Reason) {
    r in {EvidenceInvalid, ScoreInvalid, PassInconsistent, EvidenceIdentityMismatch, NoExecutedChecks,
          RequiredChecksIncomplete}
  }

  lemma UntouchedReason(input: AuthorityInput, reasons: seq<Reason>, r: Reason)
    requires !Touched(r)
    ensures Holds(Refused(input, reasons), r) <==> Holds(input, r)
  {}

  lemma NormalizedCostSound(input: AuthorityInput, reasons: seq<Reason>)
    ensures !CostContradicted(Refused(input, reasons))
  {}

  lemma TouchedVerdictReasons(input: AuthorityInput, reasons: seq<Reason>)
    ensures Holds(Refused(input, reasons), EvidenceInvalid) <==> RecordsContradiction(input)
    ensures !Holds(Refused(input, reasons), ScoreInvalid) && !Holds(Refused(input, reasons), PassInconsistent)
  {
    NormalizedCostSound(input, reasons);
  }

  lemma TouchedIdentityReason(input: AuthorityInput, reasons: seq<Reason>)
    ensures (Holds(Refused(input, reasons), EvidenceIdentityMismatch) <==> Holds(input, EvidenceIdentityMismatch))
            <==> (NormalizeEvidence(input.evidence).status == EvidenceBroken ==>
                  !Holds(input, EvidenceIdentityMismatch))
  {}

  lemma ExecutedKept(e: Evidence)
    ensures (IntegerAtLeast(NormalizeEvidence(e).executed, 1.0) <==> IntegerAtLeast(e.executed, 1.0))
            <==> (IntegerAtLeast(e.executed, 1.0) ==> IntegerAtLeast(e.declared, 1.0))
  {}

  /** Clipping never makes complete counts incomplete. */
  lemma CompleteKept(e: Evidence)
    requires !CountsIncomplete(e)
    ensures !CountsIncomplete(NormalizeEvidence(e))
  {}

  lemma SettledKeepsReasons(input: AuthorityInput, reasons: seq<Reason>)
    requires ReasonsSettled(input)
    ensures Reasons(Refused(input, reasons)) == Reasons(input)
  {
    TouchedVerdictReasons(input, reasons);
    TouchedIdentityReason(input, reasons);
    ExecutedKept(input.evidence);
    if !CountsIncomplete(input.evidence) {
      CompleteKept(input.evidence);
    }
    forall r
      ensures Holds(Refused(input, reasons), r) <==> Holds(input, r)
    {
      if !Touched(r) {
        UntouchedReason(input, reasons, r);
      }
    }
    SameReasons(Refused(input, reasons), input);
  }

  lemma UnsettledChangesReasons(input: AuthorityInput, reasons: seq<Reason>) returns (r: Reason)
    requires !ReasonsSettled(input)
    ensures Holds(Refused(input, reasons), r) != Holds(input, r)
  {
    TouchedVerdictReasons(input, reasons);
    TouchedIdentityReason(input, reasons);
    ExecutedKept(input.evidence);
    r := if Holds(input, EvidenceInvalid) != RecordsContradiction(input) then EvidenceInvalid
         else if Holds(input, ScoreInvalid) then ScoreInvalid
         else if Holds(input, PassInconsistent) then PassInconsistent
         else if Holds(input, EvidenceIdentityMismatch) && NormalizeEvidence(input.evidence).status == EvidenceBroken
           then EvidenceIdentityMismatch
         else if IntegerAtLeast(input.evidence.executed, 1.0) && !IntegerAtLeast(input.evidence.declared, 1.0)
           then NoExecutedChecks
         else RequiredChecksIncomplete;
  }

  /** One pass of classification is a fixed point exactly for deserving and settled inputs. */
  lemma FirstPassFixedExactly(input: AuthorityInput)
    ensures Classify(Reclassified(input, Classify(input))) == Classify(input) <==>
            Deserving(input) || Settled(input)
  {
    var a := Classify(input);
    EligibleExactly(input);
    SettledIs(input);
    if a.eligibility == Eligible {
      EligibleIsFixed(input);
    } else {
      SecondPass(input);
      assert Reclassified(input, a) == Refused(input, Reasons(input));
      if ReasonsSettled(input) {
        SettledKeepsReasons(input, Reasons(input));
      } else {
        var r := UnsettledChangesReasons(input, Reasons(input));
        assert r in Reasons(input) <==> r !in Reasons(Reclassified(input, a));
      }
    }
  }

  /**
   * A refused run whose evaluation is sound is judged differently the second time: its demoted evaluation becomes a
   * reason.
   */
  lemma SoundEvaluationMisses(input: AuthorityInput, r: Reason)
    requires input.evaluation.Evaluated? && !Holds(input, EvidenceInvalid) && Holds(input, r)
    ensures Classify(Reclassified(input, Classify(input))) != Classify(input)
  {
    if Deserving(input) {
      DeservingNoReason(input, r);
    }
    assert !ContradictionSettled(input);
    FirstPassFixedExactly(input);
  }

  function FakeRun(id: Identity): AuthorityInput {
    AuthorityInput(Fake, true, false, CompletedRun, Some(Success), id,
                   Evidence(Complete, Fin(1.0), Fin(1.0), Fin(1.0), Verified, Some("e"), Some("1"), Some("d"),
                            Some(id)),
                   Evaluated(Fin(90.0), true, Fin(50.0), false, "t"), SimulatedZero(ZERO))
  }

  /** A fake run with a sound evaluation is such a run. */
  lemma FirstPassCanMiss(id: Identity)
    ensures Classify(Reclassified(FakeRun(id), Classify(FakeRun(id)))) != Classify(FakeRun(id))
  {
    assert Nonblank("t") by {
      assert !IsSpace("t"[0]);
    }
    SoundEvaluationMisses(FakeRun(id), FakeExecution);
  }
}
