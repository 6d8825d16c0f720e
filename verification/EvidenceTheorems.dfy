/** When checks, composites and contracts are evaluated, and what a refusal says, over their inputs. */
module EvidenceTheorems {
  import opened Base
  import opened Numbers
  import opened AuthorityTypes
  import opened Scoring
  import opened Evidence

  // ----- executing checks

  /** The checks are named apart and weighted. */
  predicate Declared(checks: seq<Check>) {
    && (forall i :: 0 <= i < |checks| ==> Nonblank(checks[i].id) && checks[i].weight.Fin? && checks[i].weight.v > 0.0)
    && (forall i, j :: 0 <= i < j < |checks| ==> checks[i].id != checks[j].id)
  }

  /** A score that a validator supplies is a share. */
  predicate Shares(outcomes: seq<CheckOutcome>) {
    forall i :: 0 <= i < |outcomes| && outcomes[i].customScore.Some? ==>
      outcomes[i].customScore.value.Fin? && 0.0 <= outcomes[i].customScore.value.v <= 1.0
  }

  lemma DeclaredGood(checks: seq<Check>)
    ensures Declared(checks) <==> GoodDeclarations(checks)
  {
    if Declared(checks) {
      assert forall i :: 0 <= i < |checks| ==> GoodDeclaration(checks[i]);
    }
  }

  lemma ResultShares(check: Check, outcome: CheckOutcome)
    requires check.weight.Fin?
    ensures GoodResult(ResultOf(check, outcome)) <==>
            (outcome.customScore.Some? ==>
             outcome.customScore.value.Fin? && 0.0 <= outcome.customScore.value.v <= 1.0)
  {}

  lemma ReasonsShare(checks: seq<Check>, outcomes: seq<CheckOutcome>)
    requires |checks| == |outcomes| > 0 && Declared(checks)
    ensures ResultReasons(checks, ResultsOf(checks, outcomes)) == if Shares(outcomes) then [] else [ScoreInvalid]
  {
    var results := ResultsOf(checks, outcomes);
    forall i | 0 <= i < |checks| ensures GoodResult(results[i]) <==> Shares([outcomes[i]]) {
      ResultShares(checks[i], outcomes[i]);
      assert [outcomes[i]][0] == outcomes[i];
    }
    assert forall i :: 0 <= i < |checks| ==> outcomes[i] == [outcomes[i]][0];
    if Shares(outcomes) {
      assert forall i :: 0 <= i < |checks| ==> Shares([outcomes[i]]);
    } else {
      var i :| 0 <= i < |outcomes| && outcomes[i].customScore.Some? &&
               !(outcomes[i].customScore.value.Fin? && 0.0 <= outcomes[i].customScore.value.v <= 1.0);
      assert [outcomes[i]][0] == outcomes[i];
      assert !Shares([outcomes[i]]) && !GoodResult(results[i]);
    }
  }

  /** Checks are scored exactly when there are some, well declared, and every supplied score is a share. */
  lemma {:induction false} ExecutedExactly(checks: seq<Check>, outcomes: seq<CheckOutcome>, digest: Digest)
    requires |checks| == |outcomes|
    ensures ExecuteChecks(checks, outcomes, digest).DetEvaluated? <==>
            checks != [] && Declared(checks) && Shares(outcomes)
    ensures checks == [] ==> ExecuteChecks(checks, outcomes, digest) == DetUnevaluated(NotEvaluated, [NoRequiredChecks])
    ensures checks != [] && !Declared(checks) ==>
            ExecuteChecks(checks, outcomes, digest) == DetUnevaluated(InvalidOutcome, [EvidenceInvalid])
    ensures checks != [] && Declared(checks) && !Shares(outcomes) ==>
            ExecuteChecks(checks, outcomes, digest) == DetUnevaluated(InvalidOutcome, [ScoreInvalid])
  {
    DeclaredGood(checks);
    if checks != [] && Declared(checks) {
      ReasonsShare(checks, outcomes);
    }
  }

  // ----- a summary stands exactly when it can be executed again

  function ChecksOf(results: seq<CheckResult>): (checks: seq<Check>)
    ensures |checks| == |results|
    ensures forall i :: 0 <= i < |results| ==> checks[i] == Check(results[i].checkId, results[i].weight)
  {
    seq(|results|, i requires 0 <= i < |results| => Check(results[i].checkId, results[i].weight))
  }

  function OutcomesOf(results: seq<CheckResult>): (outcomes: seq<CheckOutcome>)
    ensures |outcomes| == |results|
    ensures forall i :: 0 <= i < |results| ==> outcomes[i] == CheckOutcome(results[i].passed, Some(results[i].score))
  {
    seq(|results|, i requires 0 <= i < |results| => CheckOutcome(results[i].passed, Some(results[i].score)))
  }

  /** What executing the recorded checks with their recorded scores gives. */
  function Reexecuted(s: DeterministicSummary, digest: Digest): DeterministicSummary
    requires s.DetEvaluated?
  {
    ExecuteChecks(ChecksOf(s.checkResults), OutcomesOf(s.checkResults), digest)
  }

  lemma GoodEntriesReproduced(results: seq<CheckResult>)
    requires GoodEntries(results)
    ensures Declared(ChecksOf(results)) && Shares(OutcomesOf(results))
    ensures ResultsOf(ChecksOf(results), OutcomesOf(results)) == results
  {
    forall i | 0 <= i < |results|
      ensures ResultsOf(ChecksOf(results), OutcomesOf(results))[i] == results[i]
      ensures Nonblank(results[i].checkId) && results[i].weight.Fin? && results[i].weight.v > 0.0
    {
      assert GoodEntry(results[i]);
    }
  }

  /** A summary stands exactly when executing the checks that it records gives the summary itself. */
  lemma {:induction false} StandsExactly(s: DeterministicSummary, digest: Digest)
    requires s.DetEvaluated? && ProperDigest(digest)
    ensures SummaryReason(s, digest) == None <==> Reexecuted(s, digest) == s
  {
    if Reexecuted(s, digest) == s {
      ExecutedSummaryStands(ChecksOf(s.checkResults), OutcomesOf(s.checkResults), digest);
    }
    if SummaryReason(s, digest) == None {
      StandingReproduced(s, digest);
    }
  }

  lemma {:induction false} StandingReproduced(s: DeterministicSummary, digest: Digest)
    requires s.DetEvaluated? && SummaryReason(s, digest) == None
    ensures Reexecuted(s, digest) == s
  {
    var checks, outcomes := ChecksOf(s.checkResults), OutcomesOf(s.checkResults);
    GoodEntriesReproduced(s.checkResults);
    ExecutedExactly(checks, outcomes, digest);
    WeightTotalPositive(s.checkResults);
    SameWeights(checks, outcomes);
  }

  /** Changing one field of a standing summary is found, and named. */
  lemma {:induction false} TamperedNamed(s: DeterministicSummary, digest: Digest, score: Num, evidenceDigest: string)
    requires s.DetEvaluated? && SummaryReason(s, digest) == None
    ensures SummaryReason(s.(passed := !s.passed), digest) == Some(PassInconsistent)
    ensures score != s.score ==> SummaryReason(s.(score := score), digest) == Some(ScoreInvalid)
    ensures evidenceDigest != s.evidenceDigest ==>
            SummaryReason(s.(evidenceDigest := evidenceDigest), digest) == Some(EvidenceInvalid)
    ensures s.passedChecksCount != ZERO ==>
            SummaryReason(s.(passedChecksCount := ZERO), digest) == Some(PassInconsistent)
  {}

  // ----- the composite

  /** The configuration can weigh the two scores: finite weights, not negative and not both zero. */
  predicate Weighs(c: Config) {
    && c.deterministicWeight.Fin? && c.semanticWeight.Fin?
    && c.deterministicWeight.v >= 0.0 && c.semanticWeight.v >= 0.0
    && !(c.deterministicWeight.v == 0.0 && c.semanticWeight.v == 0.0)
  }

  predicate Usable(c: Config) {
    Weighs(c) && c.passScoreThreshold.Fin? && 0.0 <= c.passScoreThreshold.v <= 100.0
  }

  predicate JudgeInRange(judgeScore: Option<Num>) {
    judgeScore.Some? ==> judgeScore.value.Fin? && 0.0 <= judgeScore.value.v <= 100.0
  }

  /**
   * A composite is evaluated exactly on a standing summary, under a usable configuration, with a judge score in range
   * if any. Without a summary, or with an unevaluated one, it says why there is none; else the composite is invalid.
   */
  lemma {:induction false} VerdictExactly(p: CompositeParams, c: Config, digest: Digest, now: string)
    ensures VerdictOn(p, c, digest, now).Verdict? <==>
            p.deterministic.Some? && p.deterministic.value.DetEvaluated? &&
            SummaryReason(p.deterministic.value, digest) == None && Usable(c) && JudgeInRange(p.judgeScore)
    ensures p.deterministic == None ==>
            VerdictOn(p, c, digest, now)
            == NoVerdict(NotEvaluated, if p.judgeScore == None then [EvaluationMissing] else [NoRequiredChecks])
    ensures p.deterministic.Some? && p.deterministic.value.DetUnevaluated? ==>
            VerdictOn(p, c, digest, now)
            == NoVerdict(p.deterministic.value.status, p.deterministic.value.reasons)
    ensures p.deterministic.Some? && p.deterministic.value.DetEvaluated? && VerdictOn(p, c, digest, now).NoVerdict? ==>
            VerdictOn(p, c, digest, now).status == InvalidOutcome
    ensures VerdictOn(p, c, digest, now).Verdict? ==> VerdictOn(p, c, digest, now).evaluatedAt == now
  {}

  /**
   * What is wrong with an invalid composite: its weights, else its threshold, else its summary, else its judge score.
   */
  lemma {:induction false} InvalidCompositeNamed(p: CompositeParams, c: Config, digest: Digest, now: string)
    requires p.deterministic.Some? && p.deterministic.value.DetEvaluated? && VerdictOn(p, c, digest, now).NoVerdict?
    ensures
      var reasons, fault := VerdictOn(p, c, digest, now).reasons, SummaryReason(p.deterministic.value, digest);
      && (!Weighs(c) ==> reasons == [EvidenceInvalid])
      && (Weighs(c) && !Usable(c) ==> reasons == [ScoreInvalid])
      && (Usable(c) && fault.Some? ==> reasons == [fault.value])
      && (Usable(c) && fault == None ==> reasons == [ScoreInvalid] && !JudgeInRange(p.judgeScore))
  {}

  /** The composite is filed under its run, and keeps what it was made from. */
  lemma CompositeKeeps(p: CompositeParams, c: Config, digest: Digest, now: string)
    ensures
      var composite := EvaluateComposite(p, c, digest, now);
      && composite.scenarioId == p.scenarioId && composite.runId == p.runId && composite.skillIds == p.skillIds
      && composite.modelId == p.modelId && composite.deterministic == p.deterministic
      && composite.judgeScore == p.judgeScore
  {}

  // ----- the contract

  /** A part of the bundle was found invalid. */
  predicate PartInvalid(input: EvidenceInput) {
    || (input.deterministic.Some? && input.deterministic.value.DetUnevaluated? &&
        input.deterministic.value.status == InvalidOutcome)
    || (input.composite.Some? && input.composite.value.verdict.NoVerdict? &&
        input.composite.value.verdict.status == InvalidOutcome)
  }

  /** Both parts of the bundle are there and evaluated. */
  predicate PartsEvaluated(input: EvidenceInput) {
    && input.deterministic.Some? && input.deterministic.value.DetEvaluated?
    && input.composite.Some? && input.composite.value.verdict.Verdict?
  }

  /** The parts belong together: one run, one summary that stands, and a composite that passes its re-check. */
  predicate PartsAgree(input: EvidenceInput, digest: Digest)
    requires PartsEvaluated(input)
  {
    var s, c, id := input.deterministic.value, input.composite.value, input.expectedIdentity;
    && SummaryReason(s, digest) == None && c.deterministic == Some(s) && ValidComposite(c.verdict, c.judgeScore, s)
    && ValidIdentity(id) && c.scenarioId == id.scenarioId && c.runId == id.runId && c.modelId == id.modelId
    && c.skillIds == [id.skillId] && (input.observedIdentity.Some? ==> input.observedIdentity.value == id)
  }

  /**
   * Nothing is missing: the artifacts are verified, and evaluator, digest, observed identity and workspace are given.
   */
  predicate NothingMissing(input: EvidenceInput) {
    && input.artifactIntegrity == Verified && input.observedIdentity == Some(input.expectedIdentity)
    && input.evaluatorId.Some? && Nonblank(input.evaluatorId.value)
    && input.evaluatorVersion.Some? && Nonblank(input.evaluatorVersion.value)
    && input.evidenceDigest.Some? && Nonblank(input.evidenceDigest.value)
    && input.workspaceFingerprint == Some(input.expectedIdentity.workspaceFingerprint)
  }

  lemma {:induction false} AgreedBundle(input: EvidenceInput, digest: Digest)
    requires PartsEvaluated(input)
    ensures BundleReason(input, digest) == None && BundleComplete(input) <==>
            PartsAgree(input, digest) && NothingMissing(input)
  {}

  /**
   * A contract is evaluated exactly when both parts are, they agree, nothing is missing, and the digest presented is
   * the digest of the bundle; it then repeats the composite's verdict, and the evidence is complete.
   */
  lemma {:induction false} ContractExactly(input: EvidenceInput, digest: Digest, bundleDigest: BundleDigest)
    ensures
      var contract := CreateEvaluationEvidence(input, digest, bundleDigest);
      && (contract.evaluation.Evaluated? <==>
          PartsEvaluated(input) && PartsAgree(input, digest) && NothingMissing(input) &&
          input.evidenceDigest
          == Some(bundleDigest(Bundle(input.expectedIdentity, input.expectedIdentity, input.evaluatorId.value,
                                      input.evaluatorVersion.value, input.expectedIdentity.workspaceFingerprint,
                                      input.deterministic.value, input.composite.value))))
      && (contract.evaluation.Evaluated? <==> contract.evidence.status == Complete)
      && (contract.evaluation.Evaluated? ==>
            var v := input.composite.value.verdict;
            contract.evaluation == Evaluated(v.compositeScore, v.passed, v.config.passScoreThreshold,
                                             v.config.requireAllDeterministicPass, v.evaluatedAt))
  {
    if PartsEvaluated(input) {
      AgreedBundle(input, digest);
    }
  }

  /**
   * An invalid part makes the contract invalid and gives it its reasons, the composite's first; a missing part leaves
   * it unevaluated with the reasons of whichever part says why, again the composite's first.
   */
  lemma {:induction false} ContractRefuses(input: EvidenceInput, digest: Digest, bundleDigest: BundleDigest)
    ensures
      var contract := CreateEvaluationEvidence(input, digest, bundleDigest);
      var composite, summary := input.composite, input.deterministic;
      && (PartInvalid(input) ==>
            && contract.evidence.status == EvidenceBroken && contract.evaluation.Unevaluated?
            && contract.evaluation.status == InvalidOutcome
            && if composite.Some? && composite.value.verdict.NoVerdict? &&
                  composite.value.verdict.status == InvalidOutcome
               then contract.evaluation.reasons == composite.value.verdict.reasons
               else contract.evaluation.reasons == summary.value.reasons)
      && (!PartInvalid(input) && !PartsEvaluated(input) ==>
            && contract.evidence.status == Unavailable && contract.evaluation.Unevaluated?
            && contract.evaluation.status == NotEvaluated
            && contract.evaluation.reasons
               == if composite.Some? && composite.value.verdict.NoVerdict? &&
                     composite.value.verdict.status == NotEvaluated
                  then composite.value.verdict.reasons
                  else if summary.Some? && summary.value.DetUnevaluated? && summary.value.status == NotEvaluated
                  then summary.value.reasons
                  else [EvaluationMissing])
      && (PartsEvaluated(input) && contract.evaluation.Unevaluated? ==>
            (contract.evidence.status == Collecting && contract.evaluation.reasons == [EvaluationMissing]) ||
            (contract.evidence.status == EvidenceBroken && contract.evaluation.status == InvalidOutcome))
  {}
}
