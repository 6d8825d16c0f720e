/** The composite evaluation, the evidence contract made from it, and the gate that reads the contract. */
module Evidence {
  import opened Base
  import opened Numbers
  import opened AuthorityTypes
  import opened BenchmarkAuthority
  import opened Scoring

  // ----- the composite evaluation

  datatype Config = Config(deterministicWeight: Num, semanticWeight: Num, passScoreThreshold: Num,
                           requireAllDeterministicPass: bool)

  datatype Verdict =
    | NoVerdict(status: OutcomeStatus, reasons: seq<Reason>)
    | Verdict(passed: bool, compositeScore: Num, config: Config, evaluatedAt: string)

  datatype Composite = Composite(scenarioId: string, runId: string, skillIds: seq<string>, modelId: string,
                                 deterministic: Option<DeterministicSummary>, judgeScore: Option<Num>, verdict: Verdict)

  datatype CompositeParams = CompositeParams(scenarioId: string, runId: string, skillIds: seq<string>, modelId: string,
                                             deterministic: Option<DeterministicSummary>, judgeScore: Option<Num>)

  predicate GoodWeights(c: Config) {
    FiniteNonnegative(c.deterministicWeight) && FiniteNonnegative(c.semanticWeight) &&
    c.deterministicWeight.v + c.semanticWeight.v > 0.0
  }

  /** `validateInputs` */
  function InputReason(summary: DeterministicSummary, judgeScore: Option<Num>, c: Config,
                       digest: Digest): Option<Reason>
    requires summary.DetEvaluated?
  {
    if !GoodWeights(c) then Some(EvidenceInvalid)
    else if !FiniteRange(c.passScoreThreshold, 0.0, 100.0) then Some(ScoreInvalid)
    else if SummaryReason(summary, digest).Some? then SummaryReason(summary, digest)
    else if judgeScore.Some? && !FiniteRange(judgeScore.value, 0.0, 100.0) then Some(ScoreInvalid)
    else None
  }

  function Mean(a: real, v: real, b: real, w: real): real
    requires v + w > 0.0
  {
    (a * v + b * w) / (v + w)
  }

  function WeightedMean(a: real, b: real, c: Config): real
    requires GoodWeights(c)
  {
    Mean(a, c.deterministicWeight.v, b, c.semanticWeight.v)
  }

  /** `calculateCompositeScore`, on a validated deterministic score */
  function CompositeScore(score: real, judgeScore: Option<real>, c: Config): real
    requires GoodWeights(c)
  {
    RoundCents(if judgeScore.Some? then WeightedMean(score, judgeScore.value, c) else score)
  }

  function ScoreValue(judgeScore: Option<Num>): Option<real>
    requires judgeScore.Some? ==> judgeScore.value.Fin?
  {
    if judgeScore.Some? then Some(judgeScore.value.v) else None
  }

  /** `CompositeEvaluator.evaluate`; `now` is the clock's time stamp. */
  function EvaluateComposite(p: CompositeParams, c: Config, digest: Digest, now: string): Composite {
    Composite(p.scenarioId, p.runId, p.skillIds, p.modelId, p.deterministic, p.judgeScore, VerdictOn(p, c, digest, now))
  }

  function VerdictOn(p: CompositeParams, c: Config, digest: Digest, now: string): Verdict {
    match p.deterministic
    case None => NoVerdict(NotEvaluated, [if p.judgeScore.None? then EvaluationMissing else NoRequiredChecks])
    case Some(DetUnevaluated(status, reasons)) => NoVerdict(status, reasons)
    case Some(DetEvaluated(detPassed, _, _, score, _, _)) =>
      var reason := InputReason(p.deterministic.value, p.judgeScore, c, digest);
      if reason.Some? then NoVerdict(InvalidOutcome, [reason.value])
      else
        var compositeScore := CompositeScore(score.v, ScoreValue(p.judgeScore), c);
        Verdict(compositeScore >= c.passScoreThreshold.v && (!c.requireAllDeterministicPass || detPassed),
                Fin(compositeScore), c, now)
  }

  // ----- the evidence contract

  datatype EvidenceInput = EvidenceInput(
    expectedIdentity: Identity, observedIdentity: Option<Identity>, evaluatorId: Option<string>,
    evaluatorVersion: Option<string>, workspaceFingerprint: Option<string>, evidenceDigest: Option<string>,
    artifactIntegrity: Integrity, deterministic: Option<DeterministicSummary>, composite: Option<Composite>)

  /** What the evidence digest covers. */
  datatype Bundle = Bundle(expectedIdentity: Identity, observedIdentity: Identity, evaluatorId: string,
                           evaluatorVersion: string, workspaceFingerprint: string, deterministic: DeterministicSummary,
                           composite: Composite)

  type BundleDigest = Bundle -> string

  datatype Contract = Contract(evidence: AuthorityTypes.Evidence, evaluation: Evaluation)

  predicate HasSummary(input: EvidenceInput) {
    input.deterministic.Some? && input.deterministic.value.DetEvaluated?
  }

  predicate HasVerdict(input: EvidenceInput) {
    input.composite.Some? && input.composite.value.verdict.Verdict?
  }

  predicate SafeCount(n: Num) {
    IntegerAtLeast(n, 0.0)
  }

  function KeepNonblank(text: Option<string>): Option<string> {
    if NonblankOption(text) then text else None
  }

  /** The counts and claims that every contract repeats. */
  function BaseEvidence(input: EvidenceInput, status: EvidenceStatus): AuthorityTypes.Evidence {
    var declared := if HasSummary(input) && SafeCount(input.deterministic.value.totalChecksCount)
                    then input.deterministic.value.totalChecksCount else ZERO;
    var executed := if HasSummary(input) then MinNum(FromCount(|input.deterministic.value.checkResults|), declared)
                    else ZERO;
    var passed := if HasSummary(input) && SafeCount(input.deterministic.value.passedChecksCount)
                  then MinNum(input.deterministic.value.passedChecksCount, executed) else ZERO;
    AuthorityTypes.Evidence(status, declared, executed, passed, input.artifactIntegrity,
                            KeepNonblank(input.evaluatorId), KeepNonblank(input.evaluatorVersion),
                            KeepNonblank(input.evidenceDigest), if ValidIdentityOption(input.observedIdentity)
                              then input.observedIdentity else None)
  }

  /** The formula that the contract recomputes a judged score by, before rounding. */
  function RecomputedMean(score: real, judgeScore: real, c: Config): real
    requires GoodWeights(c)
  {
    (score * c.deterministicWeight.v + judgeScore * c.semanticWeight.v) /
    (c.deterministicWeight.v + c.semanticWeight.v)
  }

  /** `validComposite`: the independent re-check of a composite against its deterministic summary. */
  predicate ValidComposite(v: Verdict, judgeScore: Option<Num>, s: DeterministicSummary)
    requires v.Verdict? && s.DetEvaluated? && s.score.Fin?
  {
    && GoodWeights(v.config)
    && FiniteRange(v.config.passScoreThreshold, 0.0, 100.0)
    && FiniteRange(v.compositeScore, 0.0, 100.0)
    && Nonblank(v.evaluatedAt)
    && (judgeScore.Some? ==> FiniteRange(judgeScore.value, 0.0, 100.0))
    && var expectedScore := if judgeScore.None? then s.score.v
       else RoundCents(RecomputedMean(s.score.v, judgeScore.value.v, v.config));
       && v.compositeScore.v == expectedScore
       && v.passed == (expectedScore >= v.config.passScoreThreshold.v &&
                       (!v.config.requireAllDeterministicPass || s.passed))
  }

  predicate SubjectMatches(c: Composite, id: Identity) {
    c.scenarioId == id.scenarioId && c.runId == id.runId && c.modelId == id.modelId && c.skillIds == [id.skillId]
  }

  /** `validateEvidenceBundle` */
  function BundleReason(input: EvidenceInput, digest: Digest): Option<Reason>
    requires HasSummary(input) && HasVerdict(input)
  {
    var s, c := input.deterministic.value, input.composite.value;
    if !ValidIdentity(input.expectedIdentity) then Some(EvidenceIdentityMismatch)
    else if SummaryReason(s, digest).Some? then SummaryReason(s, digest)
    else if !SubjectMatches(c, input.expectedIdentity) then Some(EvidenceIdentityMismatch)
    else if c.deterministic != Some(s) then Some(EvidenceInvalid)
    else if input.observedIdentity.Some? &&
            (!ValidIdentity(input.observedIdentity.value) || input.observedIdentity.value != input.expectedIdentity)
    then Some(EvidenceIdentityMismatch)
    else if NonblankOption(input.workspaceFingerprint) &&
            (input.workspaceFingerprint.value != input.expectedIdentity.workspaceFingerprint ||
             input.observedIdentity.None? ||
               input.workspaceFingerprint.value != input.observedIdentity.value.workspaceFingerprint)
    then Some(EvidenceIdentityMismatch)
    else if !ValidComposite(c.verdict, c.judgeScore, s) then Some(EvidenceInvalid)
    else None
  }

  predicate BundleComplete(input: EvidenceInput) {
    && input.artifactIntegrity == Verified
    && NonblankOption(input.evaluatorId) && NonblankOption(input.evaluatorVersion)
    && NonblankOption(input.evidenceDigest)
    && ValidIdentityOption(input.observedIdentity) && NonblankOption(input.workspaceFingerprint)
  }

  function BundleOf(input: EvidenceInput): Bundle
    requires HasSummary(input) && HasVerdict(input) && BundleComplete(input)
  {
    Bundle(input.expectedIdentity, input.observedIdentity.value, input.evaluatorId.value, input.evaluatorVersion.value,
           input.workspaceFingerprint.value, input.deterministic.value, input.composite.value)
  }

  function InvalidContract(input: EvidenceInput, reasons: seq<Reason>): Contract {
    Contract(BaseEvidence(input, EvidenceBroken), Unevaluated(InvalidOutcome, reasons))
  }

  predicate DetHas(input: EvidenceInput, status: OutcomeStatus) {
    input.deterministic.Some? && input.deterministic.value.DetUnevaluated? && input.deterministic.value.status == status
  }

  predicate CompHas(input: EvidenceInput, status: OutcomeStatus) {
    input.composite.Some? && input.composite.value.verdict.NoVerdict? && input.composite.value.verdict.status == status
  }

  /** `createEvaluationEvidence` */
  function CreateEvaluationEvidence(input: EvidenceInput, digest: Digest, bundleDigest: BundleDigest): Contract {
    if DetHas(input, InvalidOutcome) || CompHas(input, InvalidOutcome) then
      InvalidContract(input, if CompHas(input, InvalidOutcome) then input.composite.value.verdict.reasons
                             else input.deterministic.value.reasons)
    else if !HasSummary(input) || !HasVerdict(input) then
      Contract(BaseEvidence(input, Unavailable),
               Unevaluated(NotEvaluated,
                           if CompHas(input, NotEvaluated) then input.composite.value.verdict.reasons
                           else if DetHas(input, NotEvaluated) then input.deterministic.value.reasons
                           else [EvaluationMissing]))
    else
      var reason := BundleReason(input, digest);
      if reason.Some? then InvalidContract(input, [reason.value])
      else if !BundleComplete(input) then
        Contract(BaseEvidence(input, Collecting), Unevaluated(NotEvaluated, [EvaluationMissing]))
      else if input.evidenceDigest.value != bundleDigest(BundleOf(input)) then InvalidContract(input, [EvidenceInvalid])
      else
        var v := input.composite.value.verdict;
        Contract(BaseEvidence(input, Complete),
                 Evaluated(v.compositeScore, v.passed, v.config.passScoreThreshold,
                           v.config.requireAllDeterministicPass, v.evaluatedAt))
  }

  // ----- theorems

  lemma MeanInRange(a: real, v: real, b: real, w: real)
    requires v >= 0.0 && w >= 0.0 && v + w > 0.0 && 0.0 <= a <= 100.0 && 0.0 <= b <= 100.0
    ensures 0.0 <= Mean(a, v, b, w) <= 100.0
  {
    Scaled(a, v);
    Scaled(b, w);
    SumInRange(a * v, v, b * w, w);
  }

  lemma SumInRange(x: real, v: real, y: real, w: real)
    requires 0.0 <= x <= 100.0 * v && 0.0 <= y <= 100.0 * w && v + w > 0.0
    ensures 0.0 <= (x + y) / (v + w) <= 100.0
  {
    QuotientInRange(x + y, v + w);
  }

  lemma WeightedMeanInRange(a: real, b: real, c: Config)
    requires GoodWeights(c) && 0.0 <= a <= 100.0 && 0.0 <= b <= 100.0
    ensures 0.0 <= WeightedMean(a, b, c) <= 100.0
  {
    MeanInRange(a, c.deterministicWeight.v, b, c.semanticWeight.v);
  }

  lemma Scaled(a: real, w: real)
    requires 0.0 <= a <= 100.0 && w >= 0.0
    ensures 0.0 <= a * w <= 100.0 * w
  {}

  lemma QuotientInRange(part: real, whole: real)
    requires whole > 0.0 && 0.0 <= part <= 100.0 * whole
    ensures 0.0 <= part / whole <= 100.0
  {
    assert part / whole * whole == part;
  }

  /** A summary that stands carries a score with two decimals, so rounding it once more changes nothing. */
  lemma StandingScoreRounded(s: DeterministicSummary, digest: Digest)
    requires s.DetEvaluated? && SummaryReason(s, digest) == None
    ensures 0.0 <= s.score.v <= 100.0 && RoundCents(s.score.v) == s.score.v
  {
    var results := s.checkResults;
    WeightTotalPositive(results);
    RoundCentsIdempotent(Round(WeightedTotal(results) / WeightTotal(results) * 10000.0));
  }

  lemma JudgedScoreInRange(a: real, b: real, c: Config)
    requires GoodWeights(c) && 0.0 <= a <= 100.0 && 0.0 <= b <= 100.0
    ensures 0.0 <= CompositeScore(a, Some(b), c) <= 100.0
  {
    WeightedMeanInRange(a, b, c);
    RoundCentsInRange(WeightedMean(a, b, c));
  }

  /** The producer's formula is the one of the re-check. */
  lemma ExpectedScore(a: real, b: real, c: Config)
    requires GoodWeights(c)
    ensures CompositeScore(a, Some(b), c) == RoundCents(RecomputedMean(a, b, c))
  {
    SameMean(a, b, c);
  }

  lemma SameMean(a: real, b: real, c: Config)
    requires GoodWeights(c)
    ensures WeightedMean(a, b, c) == RecomputedMean(a, b, c)
  {}

  lemma JudgedVerdictValid(v: Verdict, s: DeterministicSummary, b: real)
    requires v.Verdict? && s.DetEvaluated? && s.score.Fin? && 0.0 <= s.score.v <= 100.0 && 0.0 <= b <= 100.0
    requires GoodWeights(v.config) && FiniteRange(v.config.passScoreThreshold, 0.0, 100.0) && Nonblank(v.evaluatedAt)
    requires v.compositeScore == Fin(CompositeScore(s.score.v, Some(b), v.config))
    requires v.passed == (v.compositeScore.v >= v.config.passScoreThreshold.v &&
                          (!v.config.requireAllDeterministicPass || s.passed))
    ensures ValidComposite(v, Some(Fin(b)), s)
  {
    JudgedScoreInRange(s.score.v, b, v.config);
    ExpectedScore(s.score.v, b, v.config);
  }

  /** Every evaluated composite satisfies the independent re-check. */
  lemma EvaluatedCompositeValid(p: CompositeParams, c: Config, digest: Digest, now: string)
    requires Nonblank(now) && VerdictOn(p, c, digest, now).Verdict?
    ensures SummaryReason(p.deterministic.value, digest) == None
    ensures ValidComposite(VerdictOn(p, c, digest, now), p.judgeScore, p.deterministic.value)
  {
    var s := p.deterministic.value;
    StandingScoreRounded(s, digest);
    if p.judgeScore.Some? {
      JudgedVerdictValid(VerdictOn(p, c, digest, now), s, p.judgeScore.value.v);
    }
  }

  /** The run that a contract is presented for. */
  function RunWith(input: EvidenceInput, c: Contract, cost: Cost): AuthorityInput {
    AuthorityInput(Live, false, false, CompletedRun, Some(Success), input.expectedIdentity, c.evidence, c.evaluation,
                   cost)
  }

  lemma StandingCounts(input: EvidenceInput, digest: Digest)
    requires HasSummary(input) && SummaryReason(input.deterministic.value, digest) == None
    ensures var s := input.deterministic.value; var e := BaseEvidence(input, Complete);
      && ValidCounts(e) && e.declared == e.executed == s.totalChecksCount && e.declared.v > 0.0
      && e.passed == s.passedChecksCount && (s.passed <==> Eq(e.passed, e.declared))
  {}

  lemma EvaluatedContract(input: EvidenceInput, digest: Digest, bundleDigest: BundleDigest)
    requires CreateEvaluationEvidence(input, digest, bundleDigest).evaluation.Evaluated?
    ensures HasSummary(input) && HasVerdict(input) && BundleReason(input, digest) == None && BundleComplete(input)
    ensures CreateEvaluationEvidence(input, digest, bundleDigest).evidence == BaseEvidence(input, Complete)
  {}

  /**
   * For a live, genuine, successful run with acceptable cost the gate opens exactly when the contract is evaluated,
   * and the verdict's score and pass flag are those of the composite.
   */
  lemma EvidenceGateExact(input: EvidenceInput, digest: Digest, bundleDigest: BundleDigest, cost: Cost)
    requires !CostContradicted(RunWith(input, CreateEvaluationEvidence(input, digest, bundleDigest), cost))
    ensures var c := CreateEvaluationEvidence(input, digest, bundleDigest);
      var a := Classify(RunWith(input, c, cost));
      && (a.eligibility == Eligible <==> c.evaluation.Evaluated?)
      && (a.eligibility == Eligible ==>
            && HasVerdict(input)
            && a.compositeScore == Some(input.composite.value.verdict.compositeScore)
            && a.passedBenchmark == Some(input.composite.value.verdict.passed))
  {
    var c := CreateEvaluationEvidence(input, digest, bundleDigest);
    EligibleExactly(RunWith(input, c, cost));
    if c.evaluation.Evaluated? {
      EvaluatedContract(input, digest, bundleDigest);
      StandingCounts(input, digest);
    }
  }

  /** The parameters of a composite evaluation of `summary` for the run `id`. */
  function ParamsFor(id: Identity, summary: DeterministicSummary, judgeScore: Option<Num>): CompositeParams {
    CompositeParams(id.scenarioId, id.runId, [id.skillId], id.modelId, Some(summary), judgeScore)
  }

  /** A bundle as the pipeline assembles it: identities agree, nothing is missing, the digest is the bundle's own. */
  predicate Assembled(input: EvidenceInput, bundleDigest: BundleDigest) {
    && ValidIdentity(input.expectedIdentity)
    && input.observedIdentity == Some(input.expectedIdentity)
    && input.workspaceFingerprint == Some(input.expectedIdentity.workspaceFingerprint)
    && BundleComplete(input)
    && HasSummary(input) && HasVerdict(input)
    && input.evidenceDigest.value == bundleDigest(BundleOf(input))
  }

  /**
   * The stages agree end to end: checks that were scored, evaluated by the composite evaluator and assembled into a
   * bundle, pass every re-check on the way, and the live successful run becomes eligible with the composite's score.
   */
  lemma PipelineReachesEligibility(checks: seq<Check>, outcomes: seq<CheckOutcome>, judgeScore: Option<Num>,
                                   config: Config, now: string, input: EvidenceInput, digest: Digest,
                                   bundleDigest: BundleDigest, cost: Cost)
    requires |checks| == |outcomes| && ProperDigest(digest) && Nonblank(now)
    requires input.deterministic == Some(ExecuteChecks(checks, outcomes, digest))
    requires input.composite ==
             Some(EvaluateComposite(ParamsFor(input.expectedIdentity, input.deterministic.value, judgeScore), config,
                                    digest, now))
    requires Assembled(input, bundleDigest)
    requires !CostContradicted(RunWith(input, CreateEvaluationEvidence(input, digest, bundleDigest), cost))
    ensures var c := CreateEvaluationEvidence(input, digest, bundleDigest); var v := input.composite.value.verdict;
      var a := Classify(RunWith(input, c, cost));
      && c.evidence.status == Complete
      && a.eligibility == Eligible && a.compositeScore == Some(v.compositeScore) && a.passedBenchmark == Some(v.passed)
  {
    ExecutedSummaryStands(checks, outcomes, digest);
    EvaluatedCompositeValid(ParamsFor(input.expectedIdentity, input.deterministic.value, judgeScore), config, digest,
                            now);
    assert BundleReason(input, digest) == None;
    EvidenceGateExact(input, digest, bundleDigest, cost);
  }
}
