/** What a verdict says, over the fields of the run that it judges. */
module AuthorityTheorems {
  import opened Base
  import opened Numbers
  import opened AuthorityTypes
  import opened BenchmarkAuthority

  // ----- eligibility

  /** A genuine run that completed successfully. */
  predicate Genuine(input: AuthorityInput) {
    && input.mode == Live && !input.simulated && !input.dryRun
    && input.lifecycle == CompletedRun && input.termination == Some(Success)
  }

  /** All of at least one declared check were executed, and the evidence of it is verified and identified. */
  predicate Proven(e: Evidence, expected: Identity) {
    && e.status == Complete && e.integrity == Verified && e.identity == Some(expected) && ValidIdentity(expected)
    && IsInteger(e.declared) && IsInteger(e.executed) && IsInteger(e.passed)
    && e.declared.v >= 1.0 && e.executed.v == e.declared.v && 0.0 <= e.passed.v <= e.declared.v
    && NonblankOption(e.evaluatorId) && NonblankOption(e.evaluatorVersion) && NonblankOption(e.evidenceDigest)
  }

  /** Score and threshold are percentages, and the pass flag is the one that follows from them. */
  predicate Judged(v: Evaluation, e: Evidence) {
    && v.Evaluated? && Nonblank(v.evaluatedAt) && v.compositeScore.Fin? && v.passScoreThreshold.Fin?
    && 0.0 <= v.compositeScore.v <= 100.0 && 0.0 <= v.passScoreThreshold.v <= 100.0
    && (v.evaluationPassed <==> v.compositeScore.v >= v.passScoreThreshold.v &&
                                (v.requireAllDeterministicPass ==> e.passed == e.declared))
  }

  /** The cost is an amount, and a verified one shows where it comes from. */
  predicate Costed(cost: Cost) {
    && !cost.SimulatedZero? && cost.amountUSD.Fin? && cost.amountUSD.v >= 0.0
    && (cost.VerifiedCost? ==> Nonblank(cost.pricingIdentity) && Nonblank(cost.usageDigest))
  }

  lemma GenuineCost(input: AuthorityInput)
    requires Genuine(input)
    ensures CostContradicted(input) <==> !Costed(input.cost)
  {}

  lemma ProvenEvidence(e: Evidence, expected: Identity)
    ensures Proven(e, expected) <==>
            e.status == Complete && ValidComplete(e) && e.identity.value == expected
  {}

  lemma JudgedEvaluation(input: AuthorityInput)
    requires ValidCounts(input.evidence) && input.evaluation.Evaluated?
    ensures
      var v := input.evaluation;
      Judged(v, input.evidence) <==>
      Nonblank(v.evaluatedAt) && FiniteRange(v.compositeScore, 0.0, 100.0) &&
      FiniteRange(v.passScoreThreshold, 0.0, 100.0) &&
      v.evaluationPassed == ExpectedPass(v.compositeScore, v.passScoreThreshold, v.requireAllDeterministicPass,
                                         input.evidence)
  {}

  /**
   * A run is eligible exactly when it is genuine and successful, its evidence proves all checks executed, its
   * evaluation follows from its score, and its cost is sound; the verdict then repeats them.
   */
  lemma EligibleMeans(input: AuthorityInput)
    ensures
      var a := Classify(input);
      && (a.eligibility == Eligible <==>
          Genuine(input) && Proven(input.evidence, input.expectedIdentity) &&
          Judged(input.evaluation, input.evidence) && Costed(input.cost))
      && (a.eligibility == Eligible ==>
            && a.cohort == EligibleCohort && a.eligibilityReasons == []
            && a.evidence == input.evidence && a.evaluation == input.evaluation && a.cost == input.cost
            && a.compositeScore == Some(input.evaluation.compositeScore)
            && a.passedBenchmark == Some(input.evaluation.evaluationPassed)
            && a.actualCostUSD == if input.cost.VerifiedCost? then Some(input.cost.amountUSD) else None)
  {
    EligibleExactly(input);
    ProvenEvidence(input.evidence, input.expectedIdentity);
    if Genuine(input) {
      GenuineCost(input);
    }
    if Proven(input.evidence, input.expectedIdentity) && input.evaluation.Evaluated? {
      JudgedEvaluation(input);
    }
  }

  // ----- a refusal

  /** The reasons that a rehearsal, an outcome, or a check count gives. */
  predicate RunReasons(reasons: seq<Reason>, input: AuthorityInput) {
    var e := input.evidence;
    && (FakeExecution in reasons <==> input.mode == Fake) && (SimulatedExecution in reasons <==> input.simulated)
    && (DryRun in reasons <==> input.dryRun)
    && (EvaluationNotRequested in reasons <==> input.evaluation.Unevaluated? && input.evaluation.status == NotRequested)
    && (EvaluationMissing in reasons <==> input.evaluation.Unevaluated? && input.evaluation.status == NotEvaluated)
    && (NoRequiredChecks in reasons <==> !(IsInteger(e.declared) && e.declared.v >= 1.0))
    && (NoExecutedChecks in reasons <==> !(IsInteger(e.executed) && e.executed.v >= 1.0))
  }

  /** The reasons that the artifacts give. */
  predicate ArtifactReasons(reasons: seq<Reason>, e: Evidence) {
    && (ArtifactIntegrityUnverified in reasons <==> e.integrity == Unverified)
    && (ArtifactIntegrityInvalid in reasons <==> e.integrity == IntegrityBroken)
  }

  /** The reasons that the origin of the evidence gives. */
  predicate OriginReasons(reasons: seq<Reason>, e: Evidence) {
    && (EvaluatorIdentityMissing in reasons <==> !(NonblankOption(e.evaluatorId) && NonblankOption(e.evaluatorVersion)))
    && (EvidenceDigestMissing in reasons <==> !NonblankOption(e.evidenceDigest))
  }

  predicate IdentityReason(reasons: seq<Reason>, e: Evidence, expected: Identity) {
    EvidenceIdentityMismatch in reasons <==>
    e.status == Complete && !(e.identity == Some(expected) && ValidIdentity(expected))
  }

  /** Of finite numbers of checks not all were declared, executed and counted. */
  predicate CountReason(reasons: seq<Reason>, e: Evidence) {
    e.declared.Fin? && e.executed.Fin? ==>
      (RequiredChecksIncomplete in reasons <==>
       !(IsInteger(e.passed) && 0.0 <= e.passed.v <= e.executed.v == e.declared.v))
  }

  /** The score or the threshold is no percentage. */
  predicate ScoreReason(reasons: seq<Reason>, v: Evaluation) {
    ScoreInvalid in reasons <==>
    v.Evaluated? && !(v.compositeScore.Fin? && v.passScoreThreshold.Fin? &&
                      0.0 <= v.compositeScore.v <= 100.0 && 0.0 <= v.passScoreThreshold.v <= 100.0)
  }

  /** The pass flag is not the one that follows from finite scores. */
  predicate PassReason(reasons: seq<Reason>, v: Evaluation, e: Evidence) {
    && (v.Unevaluated? ==> PassInconsistent !in reasons)
    && (v.Evaluated? && v.compositeScore.Fin? && v.passScoreThreshold.Fin? && e.declared.Fin? ==>
          (PassInconsistent in reasons <==>
           v.evaluationPassed != (v.compositeScore.v >= v.passScoreThreshold.v &&
                                  (v.requireAllDeterministicPass ==> e.passed == e.declared))))
  }

  lemma ReasonIs(input: AuthorityInput, r: Reason)
    ensures r in Classify(input).eligibilityReasons <==> Holds(input, r)
  {}

  lemma RunReasonsAre(input: AuthorityInput)
    ensures RunReasons(Classify(input).eligibilityReasons, input)
  {
    ReasonIs(input, FakeExecution);
    ReasonIs(input, SimulatedExecution);
    ReasonIs(input, DryRun);
    ReasonIs(input, EvaluationNotRequested);
    ReasonIs(input, EvaluationMissing);
    ReasonIs(input, NoRequiredChecks);
    ReasonIs(input, NoExecutedChecks);
  }

  lemma ArtifactReasonsAre(input: AuthorityInput)
    ensures ArtifactReasons(Classify(input).eligibilityReasons, input.evidence)
  {
    ReasonIs(input, ArtifactIntegrityUnverified);
    ReasonIs(input, ArtifactIntegrityInvalid);
  }

  lemma OriginReasonsAre(input: AuthorityInput)
    ensures OriginReasons(Classify(input).eligibilityReasons, input.evidence)
  {
    ReasonIs(input, EvaluatorIdentityMissing);
    ReasonIs(input, EvidenceDigestMissing);
  }

  lemma IdentityReasonIs(input: AuthorityInput)
    ensures IdentityReason(Classify(input).eligibilityReasons, input.evidence, input.expectedIdentity)
  {
    ReasonIs(input, EvidenceIdentityMismatch);
  }

  lemma CountReasonIs(input: AuthorityInput)
    ensures CountReason(Classify(input).eligibilityReasons, input.evidence)
  {
    ReasonIs(input, RequiredChecksIncomplete);
  }

  lemma ScoreReasonIs(input: AuthorityInput)
    ensures ScoreReason(Classify(input).eligibilityReasons, input.evaluation)
  {
    ReasonIs(input, ScoreInvalid);
  }

  lemma PassReasonIs(input: AuthorityInput)
    ensures PassReason(Classify(input).eligibilityReasons, input.evaluation, input.evidence)
  {
    ReasonIs(input, PassInconsistent);
  }

  /** The places of reasons in the fixed order. */
  function Places(reasons: seq<Reason>): (places: seq<nat>)
    ensures |places| == |reasons|
  {
    if reasons == [] then [] else [Rank(reasons[0])] + Places(reasons[1..])
  }

  predicate Increasing(places: seq<nat>, from: nat) {
    && (forall i :: 0 <= i < |places| ==> places[i] >= from)
    && forall i, j :: 0 <= i < j < |places| ==> places[i] < places[j]
  }

  lemma IncreasingCons(place: nat, rest: seq<nat>)
    requires Increasing(rest, place + 1)
    ensures Increasing([place] + rest, place) && Increasing(rest, place)
  {}

  lemma {:induction false} FilterIncreasing(order: seq<Reason>, present: set<Reason>, from: nat)
    requires forall k :: 0 <= k < |order| ==> Rank(order[k]) == from + k
    ensures Increasing(Places(Filter(order, present)), from)
  {
    if order != [] {
      var rest := Filter(order[1..], present);
      FilterIncreasing(order[1..], present, from + 1);
      IncreasingCons(from, Places(rest));
      assert Rank(order[0]) == from && ([order[0]] + rest)[1..] == rest && [] + rest == rest;
    }
  }

  lemma OrderRanked(k: nat)
    requires k < |REASON_ORDER|
    ensures Rank(REASON_ORDER[k]) == k
  {}

  /** Each reason of a verdict is given exactly for its own fault, and they come in the fixed order. */
  lemma RefusalNames(input: AuthorityInput)
    ensures
      var reasons := Classify(input).eligibilityReasons;
      && RunReasons(reasons, input) && ArtifactReasons(reasons, input.evidence)
      && OriginReasons(reasons, input.evidence)
      && IdentityReason(reasons, input.evidence, input.expectedIdentity) && CountReason(reasons, input.evidence)
      && ScoreReason(reasons, input.evaluation) && PassReason(reasons, input.evaluation, input.evidence)
      && Increasing(Places(reasons), 0)
  {
    RunReasonsAre(input);
    ArtifactReasonsAre(input);
    OriginReasonsAre(input);
    IdentityReasonIs(input);
    CountReasonIs(input);
    ScoreReasonIs(input);
    PassReasonIs(input);
    OrderKept(input);
  }

  lemma OrderKept(input: AuthorityInput)
    ensures Increasing(Places(Classify(input).eligibilityReasons), 0)
  {
    forall k | 0 <= k < |REASON_ORDER| ensures Rank(REASON_ORDER[k]) == k { OrderRanked(k); }
    FilterIncreasing(REASON_ORDER, ReasonSet(input), 0);
  }

  /** A cost the verdict reports for a refused run. */
  predicate CostReported(cost: Cost, input: AuthorityInput) {
    if input.mode == Fake || input.simulated || input.dryRun then cost == SimulatedZero(ZERO)
    else cost == UnverifiedCost(if input.cost.amountUSD.Fin? && input.cost.amountUSD.v >= 0.0
                                then input.cost.amountUSD else ZERO)
  }

  /** A count cut down to a nonnegative integer that is no larger than its bound. */
  predicate CutDown(count: Num, before: Num, bound: Num) {
    if !(IsInteger(before) && before.v >= 0.0) then count == ZERO
    else count.Fin? && bound.Fin? && count.v == if before.v <= bound.v then before.v else bound.v
  }

  /** Evidence kept as it is, or kept with its counts cut down and called invalid. */
  predicate EvidenceReported(after: Evidence, before: Evidence) {
    && after.integrity == before.integrity && after.evaluatorId == before.evaluatorId
    && after.evaluatorVersion == before.evaluatorVersion && after.evidenceDigest == before.evidenceDigest
    && after.identity == before.identity
    && if ValidCounts(before) && (before.status == Complete ==> ValidComplete(before)) then after == before
       else after.status == EvidenceBroken && CutDown(after.declared, before.declared, before.declared) &&
            CutDown(after.executed, before.executed, after.declared) &&
              CutDown(after.passed, before.passed, after.executed)
  }

  /** A refused verdict has no score, keeps what it can of evidence and cost, and calls an evaluation invalid. */
  lemma RefusalKeeps(input: AuthorityInput)
    requires Classify(input).eligibility != Eligible
    ensures
      var a := Classify(input);
      && a.eligibility == Ineligible && a.compositeScore == None && a.passedBenchmark == None && a.actualCostUSD == None
      && CostReported(a.cost, input) && EvidenceReported(a.evidence, input.evidence) && a.evaluation.Unevaluated?
      && a.evaluation.reasons == a.eligibilityReasons
      && a.evaluation.status == if input.evaluation.Evaluated? then InvalidOutcome else input.evaluation.status
  {
    EvidenceKept(input.evidence);
  }

  lemma EvidenceKept(e: Evidence)
    ensures EvidenceReported(NormalizeEvidence(e), e)
  {}
}
