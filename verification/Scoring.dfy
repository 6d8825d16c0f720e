/** From executed checks to a deterministic summary, and from the summary to a composite score. */
module Scoring {
  import opened Base
  import opened Numbers
  import opened AuthorityTypes

  datatype Check = Check(id: string, weight: Num)

  /** What executing one check yields: its verdict, and the score a custom validator may supply. */
  datatype CheckOutcome = CheckOutcome(passed: bool, customScore: Option<Num>)

  datatype CheckResult = CheckResult(checkId: string, passed: bool, score: Num, weight: Num, weightedScore: Num)

  /** The digest of check results: any function of the results that never yields blank text. */
  type Digest = seq<CheckResult> -> string

  ghost predicate ProperDigest(digest: Digest) {
    forall results :: Nonblank(digest(results))
  }

  datatype DeterministicSummary =
    | DetUnevaluated(status: OutcomeStatus, reasons: seq<Reason>)
    | DetEvaluated(passed: bool, passedChecksCount: Num, totalChecksCount: Num, score: Num,
                   checkResults: seq<CheckResult>, evidenceDigest: string)

  // ----- executing checks

  /** `executeCheck`, given what the check did. */
  function ResultOf(check: Check, outcome: CheckOutcome): CheckResult {
    var score := if outcome.customScore.Some? then outcome.customScore.value
                 else if outcome.passed then Fin(1.0) else ZERO;
    CheckResult(check.id, outcome.passed, score, check.weight, Times(score, check.weight))
  }

  function ResultsOf(checks: seq<Check>, outcomes: seq<CheckOutcome>): (results: seq<CheckResult>)
    requires |checks| == |outcomes|
    ensures |results| == |checks|
    ensures forall i :: 0 <= i < |checks| ==> results[i] == ResultOf(checks[i], outcomes[i])
  {
    seq(|checks|, i requires 0 <= i < |checks| => ResultOf(checks[i], outcomes[i]))
  }

  /** `reduce((sum, result) => sum + result.weightedScore, 0)`, on finite numbers. */
  function WeightedTotal(results: seq<CheckResult>): real
    requires forall i :: 0 <= i < |results| ==> results[i].weightedScore.Fin?
  {
    if results == [] then 0.0 else WeightedTotal(results[..|results| - 1]) + results[|results| - 1].weightedScore.v
  }

  function WeightTotal(results: seq<CheckResult>): real
    requires forall i :: 0 <= i < |results| ==> results[i].weight.Fin?
  {
    if results == [] then 0.0 else WeightTotal(results[..|results| - 1]) + results[|results| - 1].weight.v
  }

  function CheckWeights(checks: seq<Check>): real
    requires forall i :: 0 <= i < |checks| ==> checks[i].weight.Fin?
  {
    if checks == [] then 0.0 else CheckWeights(checks[..|checks| - 1]) + checks[|checks| - 1].weight.v
  }

  function PassedCount(results: seq<CheckResult>): (n: nat)
    ensures n <= |results|
  {
    if results == [] then 0
    else PassedCount(results[..|results| - 1]) + if results[|results| - 1].passed then 1 else 0
  }

  /** `Math.round(x * 10000) / 100`: a share as a percentage with two decimals. */
  function Percent(share: real): real {
    Round(share * 10000.0) as real / 100.0
  }

  predicate GoodDeclaration(check: Check) {
    Nonblank(check.id) && check.weight.Fin? && check.weight.v > 0.0
  }

  /** `validateDeclarations` returns no reason. */
  predicate GoodDeclarations(checks: seq<Check>) {
    && (forall i :: 0 <= i < |checks| ==> GoodDeclaration(checks[i]))
    && (forall i, j :: 0 <= i < j < |checks| ==> checks[i].id != checks[j].id)
  }

  method ValidateDeclarations(checks: seq<Check>) returns (reasons: seq<Reason>)
    ensures reasons == if GoodDeclarations(checks) then [] else [EvidenceInvalid]
  {
    var identifiers: set<string> := {};
    for n := 0 to |checks|
      invariant forall id :: id in identifiers <==> exists i :: 0 <= i < n && checks[i].id == id
      invariant GoodDeclarations(checks[..n])
    {
      var check := checks[n];
      assert checks[..n + 1] == checks[..n] + [check];
      if !GoodDeclaration(check) || check.id in identifiers {
        return [EvidenceInvalid];
      }
      identifiers := identifiers + {check.id};
    }
    assert checks[..|checks|] == checks;
    return [];
  }

  predicate GoodResult(result: CheckResult) {
    FiniteRange(result.score, 0.0, 1.0) && result.weightedScore.Fin?
  }

  /** `validateResults` */
  function ResultReasons(checks: seq<Check>, results: seq<CheckResult>): seq<Reason> {
    if |results| == 0 then [NoExecutedChecks]
    else if |results| != |checks| then [RequiredChecksIncomplete]
    else if exists i :: 0 <= i < |results| && !GoodResult(results[i]) then [ScoreInvalid]
    else []
  }

  /** `executeChecks`, given what each check did. */
  function ExecuteChecks(checks: seq<Check>, outcomes: seq<CheckOutcome>, digest: Digest): DeterministicSummary
    requires |checks| == |outcomes|
  {
    if |checks| == 0 then DetUnevaluated(NotEvaluated, [NoRequiredChecks])
    else if !GoodDeclarations(checks) then DetUnevaluated(InvalidOutcome, [EvidenceInvalid])
    else
      var results := ResultsOf(checks, outcomes);
      var reasons := ResultReasons(checks, results);
      if reasons != [] then DetUnevaluated(InvalidOutcome, reasons)
      else
        var passed := PassedCount(results);
        var total := CheckWeights(checks);
        DetEvaluated(passed == |checks|, FromCount(passed), FromCount(|checks|),
                     if total == 0.0 then NaN else Fin(Percent(WeightedTotal(results) / total)), results,
                     digest(results))
  }

  // ----- the re-check of a summary

  predicate GoodEntry(result: CheckResult) {
    && Nonblank(result.checkId)
    && FiniteRange(result.score, 0.0, 1.0)
    && result.weight.Fin? && result.weight.v > 0.0
    && result.weightedScore == Times(result.score, result.weight)
  }

  predicate GoodEntries(results: seq<CheckResult>) {
    && (forall i :: 0 <= i < |results| ==> GoodEntry(results[i]))
    && (forall i, j :: 0 <= i < j < |results| ==> results[i].checkId != results[j].checkId)
  }

  predicate GoodHeader(s: DeterministicSummary, digest: Digest)
    requires s.DetEvaluated?
  {
    && IsInteger(s.totalChecksCount) && s.totalChecksCount.v >= 1.0
    && IsInteger(s.passedChecksCount) && 0.0 <= s.passedChecksCount.v <= s.totalChecksCount.v
    && FromCount(|s.checkResults|) == s.totalChecksCount
    && Nonblank(s.evidenceDigest) && s.evidenceDigest == digest(s.checkResults)
  }

  /** The score that follows from good entries. */
  function ScoreOf(results: seq<CheckResult>): real
    requires GoodEntries(results) && |results| > 0
  {
    WeightTotalPositive(results);
    Percent(WeightedTotal(results) / WeightTotal(results))
  }

  /** No entry scores more than its weight. */
  predicate Bounded(result: CheckResult) {
    && result.weight.Fin? && result.weight.v > 0.0
    && result.weightedScore.Fin? && 0.0 <= result.weightedScore.v <= result.weight.v
  }

  lemma GoodEntryBounded(result: CheckResult)
    requires GoodEntry(result)
    ensures Bounded(result)
  {
    ScoredWeight(result.score.v, result.weight.v);
  }

  lemma ScoredWeight(score: real, weight: real)
    requires 0.0 <= score <= 1.0 && weight > 0.0
    ensures 0.0 <= score * weight <= weight
  {}

  lemma {:induction false} BoundedTotals(results: seq<CheckResult>)
    requires forall i :: 0 <= i < |results| ==>
             results[i].weight.Fin? && results[i].weightedScore.Fin? && Bounded(results[i])
    ensures WeightTotal(results) >= 0.0 && (|results| > 0 ==> WeightTotal(results) > 0.0)
    ensures 0.0 <= WeightedTotal(results) <= WeightTotal(results)
  {
    if results != [] {
      BoundedTotals(results[..|results| - 1]);
    }
  }

  lemma WeightTotalPositive(results: seq<CheckResult>)
    requires GoodEntries(results)
    ensures forall i :: 0 <= i < |results| ==> Bounded(results[i])
    ensures WeightTotal(results) >= 0.0 && (|results| > 0 ==> WeightTotal(results) > 0.0)
    ensures 0.0 <= WeightedTotal(results) <= WeightTotal(results)
  {
    forall i | 0 <= i < |results| ensures Bounded(results[i]) { GoodEntryBounded(results[i]); }
    BoundedTotals(results);
  }

  /** `validateEvaluatedDeterministicSummary`, reason by reason; `None` when the summary stands. */
  function SummaryReason(s: DeterministicSummary, digest: Digest): Option<Reason>
    requires s.DetEvaluated?
  {
    if !FiniteRange(s.score, 0.0, 100.0) then Some(ScoreInvalid)
    else if !GoodHeader(s, digest) || !GoodEntries(s.checkResults) then Some(EvidenceInvalid)
    else
      var passed := FromCount(PassedCount(s.checkResults));
      if s.passedChecksCount != passed || s.passed != (passed == s.totalChecksCount) then Some(PassInconsistent)
      else if s.score == Fin(ScoreOf(s.checkResults)) then None else Some(ScoreInvalid)
  }

  method ValidateEvaluatedSummary(s: DeterministicSummary, digest: Digest) returns (reason: Option<Reason>)
    requires s.DetEvaluated?
    ensures reason == SummaryReason(s, digest)
  {
    if !FiniteRange(s.score, 0.0, 100.0) {
      return Some(ScoreInvalid);
    }
    if !GoodHeader(s, digest) {
      return Some(EvidenceInvalid);
    }
    var identifiers: set<string> := {};
    var weightedScore, totalWeight := 0.0, 0.0;
    var results := s.checkResults;
    for n := 0 to |results|
      invariant forall id :: id in identifiers <==> exists i :: 0 <= i < n && results[i].checkId == id
      invariant GoodEntries(results[..n])
      invariant weightedScore == WeightedTotal(results[..n]) && totalWeight == WeightTotal(results[..n])
    {
      var result := results[n];
      assert results[..n + 1][..n] == results[..n];
      if !GoodEntry(result) || result.checkId in identifiers {
        return Some(EvidenceInvalid);
      }
      identifiers := identifiers + {result.checkId};
      weightedScore := weightedScore + result.weightedScore.v;
      totalWeight := totalWeight + result.weight.v;
    }
    assert results[..|results|] == results;
    WeightTotalPositive(results);
    var passedCount := FromCount(PassedCount(results));
    if s.passedChecksCount != passedCount || s.passed != (passedCount == s.totalChecksCount) {
      return Some(PassInconsistent);
    }
    var expectedScore := Percent(weightedScore / totalWeight);
    return if s.score == Fin(expectedScore) then None else Some(ScoreInvalid);
  }

  // ----- producer and validator of summaries agree

  lemma {:induction false} SameWeights(checks: seq<Check>, outcomes: seq<CheckOutcome>)
    requires |checks| == |outcomes| && forall i :: 0 <= i < |checks| ==> checks[i].weight.Fin?
    ensures WeightTotal(ResultsOf(checks, outcomes)) == CheckWeights(checks)
  {
    if checks != [] {
      var n := |checks| - 1;
      SameWeights(checks[..n], outcomes[..n]);
      assert ResultsOf(checks, outcomes)[..n] == ResultsOf(checks[..n], outcomes[..n]);
    }
  }

  lemma DivideInRange(part: real, whole: real)
    requires 0.0 <= part <= whole && whole > 0.0
    ensures 0.0 <= part / whole <= 1.0
  {}

  lemma PercentInRange(share: real)
    requires 0.0 <= share <= 1.0
    ensures 0.0 <= Percent(share) <= 100.0
  {
    RoundInRange(share * 10000.0, 0, 10000);
  }

  /** A summary that `executeChecks` calls evaluated passes its re-check. */
  lemma ExecutedSummaryStands(checks: seq<Check>, outcomes: seq<CheckOutcome>, digest: Digest)
    requires |checks| == |outcomes| && ProperDigest(digest)
    requires ExecuteChecks(checks, outcomes, digest).DetEvaluated?
    ensures SummaryReason(ExecuteChecks(checks, outcomes, digest), digest) == None
  {
    var s := ExecuteChecks(checks, outcomes, digest);
    var results := ResultsOf(checks, outcomes);
    assert s.checkResults == results;
    forall i | 0 <= i < |results|
      ensures GoodEntry(results[i])
    {
      assert GoodDeclaration(checks[i]) && GoodResult(results[i]);
    }
    forall i, j | 0 <= i < j < |results|
      ensures results[i].checkId != results[j].checkId
    {
      assert checks[i].id != checks[j].id;
    }
    WeightTotalPositive(results);
    SameWeights(checks, outcomes);
    DivideInRange(WeightedTotal(results), WeightTotal(results));
    PercentInRange(WeightedTotal(results) / WeightTotal(results));
  }
}
