/** What the scores are: the share of passed weight, and the weighted mean of two scores, each within half a cent. */
module ScoreTheorems {
  import opened Base
  import opened Numbers
  import opened AuthorityTypes
  import opened Scoring
  import opened Evidence

  // ----- the deterministic score

  /** What a check scores of its weight: a validator's own share, else all or nothing. */
  function Points(check: Check, outcome: CheckOutcome): real
    requires check.weight.Fin?
  {
    match outcome.customScore
    case Some(custom) => if custom.Fin? then custom.v * check.weight.v else 0.0
    case None => if outcome.passed then check.weight.v else 0.0
  }

  function ScoredWeight(checks: seq<Check>, outcomes: seq<CheckOutcome>): real
    requires |checks| == |outcomes| && forall i :: 0 <= i < |checks| ==> checks[i].weight.Fin?
  {
    if checks == [] then 0.0
    else
      var n := |checks| - 1;
      ScoredWeight(checks[..n], outcomes[..n]) + Points(checks[n], outcomes[n])
  }

  function DeclaredWeight(checks: seq<Check>): real
    requires forall i :: 0 <= i < |checks| ==> checks[i].weight.Fin?
  {
    if checks == [] then 0.0 else DeclaredWeight(checks[..|checks| - 1]) + checks[|checks| - 1].weight.v
  }

  function Passes(outcomes: seq<CheckOutcome>): nat {
    if outcomes == [] then 0 else Passes(outcomes[..|outcomes| - 1]) + if outcomes[|outcomes| - 1].passed then 1 else 0
  }

  predicate FiniteChecks(checks: seq<Check>, outcomes: seq<CheckOutcome>) {
    && |checks| == |outcomes| && (forall i :: 0 <= i < |checks| ==> checks[i].weight.Fin?)
    && forall i :: 0 <= i < |outcomes| && outcomes[i].customScore.Some? ==> outcomes[i].customScore.value.Fin?
  }

  lemma FrontResults(checks: seq<Check>, outcomes: seq<CheckOutcome>)
    requires |checks| == |outcomes| > 0
    ensures var n := |checks| - 1; ResultsOf(checks, outcomes)[..n] == ResultsOf(checks[..n], outcomes[..n])
  {}

  lemma PointsAre(check: Check, outcome: CheckOutcome)
    requires check.weight.Fin? && (outcome.customScore.Some? ==> outcome.customScore.value.Fin?)
    ensures ResultOf(check, outcome).weightedScore == Fin(Points(check, outcome))
  {}

  lemma FiniteResults(checks: seq<Check>, outcomes: seq<CheckOutcome>)
    requires FiniteChecks(checks, outcomes)
    ensures forall i :: 0 <= i < |checks| ==> ResultsOf(checks, outcomes)[i].weightedScore.Fin?
  {
    forall i | 0 <= i < |checks| ensures ResultsOf(checks, outcomes)[i].weightedScore.Fin? {
      PointsAre(checks[i], outcomes[i]);
    }
  }

  lemma {:induction false} WeightedTotalIs(checks: seq<Check>, outcomes: seq<CheckOutcome>)
    requires FiniteChecks(checks, outcomes)
    requires forall i :: 0 <= i < |checks| ==> ResultsOf(checks, outcomes)[i].weightedScore.Fin?
    ensures WeightedTotal(ResultsOf(checks, outcomes)) == ScoredWeight(checks, outcomes)
  {
    if checks != [] {
      var n := |checks| - 1;
      FrontResults(checks, outcomes);
      FiniteResults(checks[..n], outcomes[..n]);
      WeightedTotalIs(checks[..n], outcomes[..n]);
      PointsAre(checks[n], outcomes[n]);
    }
  }

  lemma {:induction false} CheckWeightsAre(checks: seq<Check>)
    requires forall i :: 0 <= i < |checks| ==> checks[i].weight.Fin?
    ensures CheckWeights(checks) == DeclaredWeight(checks)
  {
    if checks != [] {
      CheckWeightsAre(checks[..|checks| - 1]);
    }
  }

  lemma {:induction false} PassedCountIs(checks: seq<Check>, outcomes: seq<CheckOutcome>)
    requires |checks| == |outcomes|
    ensures PassedCount(ResultsOf(checks, outcomes)) == Passes(outcomes)
  {
    if checks != [] {
      FrontResults(checks, outcomes);
      PassedCountIs(checks[..|checks| - 1], outcomes[..|checks| - 1]);
    }
  }

  lemma {:induction false} PassesAll(outcomes: seq<CheckOutcome>)
    ensures Passes(outcomes) <= |outcomes|
    ensures Passes(outcomes) == |outcomes| <==> forall i :: 0 <= i < |outcomes| ==> outcomes[i].passed
  {
    if outcomes != [] {
      PassesAll(outcomes[..|outcomes| - 1]);
    }
  }

  lemma SharePercent(part: real, whole: real, x: real)
    requires whole > 0.0 && x * whole == 100.0 * part
    ensures part / whole * 10000.0 == x * 100.0
  {
    assert part / whole * whole == part;
    assert (part / whole * 100.0 - x) * whole == 0.0;
  }

  lemma PercentNear(share: real, x: real)
    requires share * 10000.0 == x * 100.0
    ensures ToCents(Percent(share), x)
  {
    RoundNear(share * 10000.0);
    CentsNear(x, Round(share * 10000.0));
  }

  lemma {:induction false} EvaluatedChecks(checks: seq<Check>, outcomes: seq<CheckOutcome>, digest: Digest)
    requires |checks| == |outcomes| && ExecuteChecks(checks, outcomes, digest).DetEvaluated?
    ensures FiniteChecks(checks, outcomes) && |checks| > 0
    ensures forall i :: 0 <= i < |checks| ==> checks[i].weight.v > 0.0
  {
    forall i | 0 <= i < |checks|
      ensures checks[i].weight.Fin? && checks[i].weight.v > 0.0
      ensures outcomes[i].customScore.Some? ==> outcomes[i].customScore.value.Fin?
    {
      assert GoodDeclaration(checks[i]);
      assert GoodResult(ResultsOf(checks, outcomes)[i]);
    }
  }

  lemma {:induction false} DeclaredWeightPositive(checks: seq<Check>)
    requires forall i :: 0 <= i < |checks| ==> checks[i].weight.Fin? && checks[i].weight.v > 0.0
    ensures DeclaredWeight(checks) >= 0.0 && (|checks| > 0 ==> DeclaredWeight(checks) > 0.0)
  {
    if checks != [] {
      DeclaredWeightPositive(checks[..|checks| - 1]);
    }
  }

  lemma ShareNear(part: real, whole: real, x: real)
    requires whole > 0.0 && x * whole == 100.0 * part
    ensures ToCents(Percent(part / whole), x)
  {
    SharePercent(part, whole, x);
    PercentNear(part / whole, x);
  }

  lemma {:induction false} EvaluatedScore(checks: seq<Check>, outcomes: seq<CheckOutcome>, digest: Digest)
    requires |checks| == |outcomes| && ExecuteChecks(checks, outcomes, digest).DetEvaluated?
    requires FiniteChecks(checks, outcomes) && DeclaredWeight(checks) > 0.0
    ensures ExecuteChecks(checks, outcomes, digest).score
            == Fin(Percent(ScoredWeight(checks, outcomes) / DeclaredWeight(checks)))
  {
    FiniteResults(checks, outcomes);
    WeightedTotalIs(checks, outcomes);
    CheckWeightsAre(checks);
  }

  /** The score of an evaluated summary is the scored share of the declared weight, in percent. */
  lemma {:induction false} DeterministicScoreIs(checks: seq<Check>, outcomes: seq<CheckOutcome>, digest: Digest,
                                                x: real)
    requires |checks| == |outcomes| && ExecuteChecks(checks, outcomes, digest).DetEvaluated?
    requires FiniteChecks(checks, outcomes) && x * DeclaredWeight(checks) == 100.0 * ScoredWeight(checks, outcomes)
    ensures ExecuteChecks(checks, outcomes, digest).score.Fin?
    ensures ToCents(ExecuteChecks(checks, outcomes, digest).score.v, x)
  {
    EvaluatedChecks(checks, outcomes, digest);
    DeclaredWeightPositive(checks);
    EvaluatedScore(checks, outcomes, digest);
    ShareNear(ScoredWeight(checks, outcomes), DeclaredWeight(checks), x);
  }

  /** An evaluated summary counts its checks and those that passed, and passes exactly when all of them did. */
  lemma {:induction false} DeterministicCounts(checks: seq<Check>, outcomes: seq<CheckOutcome>, digest: Digest)
    requires |checks| == |outcomes| && ExecuteChecks(checks, outcomes, digest).DetEvaluated?
    ensures
      var s := ExecuteChecks(checks, outcomes, digest);
      && s.passedChecksCount == Fin(Passes(outcomes) as real) && s.totalChecksCount == Fin(|checks| as real)
      && (s.passed <==> forall i :: 0 <= i < |outcomes| ==> outcomes[i].passed)
  {
    PassedCountIs(checks, outcomes);
    PassesAll(outcomes);
  }

  // ----- the composite score

  /** A composite was evaluated with a judge, on finite scores and good weights. */
  predicate Judged(p: CompositeParams, c: Config, digest: Digest, now: string) {
    VerdictOn(p, c, digest, now).Verdict? && p.judgeScore.Some?
  }

  lemma JudgedParts(p: CompositeParams, c: Config, digest: Digest, now: string)
    requires Judged(p, c, digest, now)
    ensures c.deterministicWeight.Fin? && c.semanticWeight.Fin? && c.passScoreThreshold.Fin?
    ensures 0.0 <= c.deterministicWeight.v && 0.0 <= c.semanticWeight.v
    ensures c.deterministicWeight.v + c.semanticWeight.v > 0.0
    ensures p.deterministic.Some? && p.deterministic.value.DetEvaluated? && p.deterministic.value.score.Fin?
    ensures p.judgeScore.value.Fin? && VerdictOn(p, c, digest, now).compositeScore.Fin?
  {}

  lemma QuotientIs(sum: real, whole: real, x: real)
    requires whole > 0.0 && x * whole == sum
    ensures sum / whole == x
  {
    assert (sum / whole - x) * whole == 0.0;
  }

  lemma MeanBalances(a: real, v: real, b: real, w: real, x: real)
    requires v + w > 0.0 && x * (v + w) == a * v + b * w
    ensures ToCents(RoundCents(Mean(a, v, b, w)), x)
  {
    QuotientIs(a * v + b * w, v + w, x);
    RoundCentsNear(x);
  }

  lemma JudgedScore(p: CompositeParams, c: Config, digest: Digest, now: string, a: real, v: real, b: real, w: real)
    requires Judged(p, c, digest, now) && v + w > 0.0
    requires c.deterministicWeight == Fin(v) && c.semanticWeight == Fin(w) && p.judgeScore == Some(Fin(b))
    requires p.deterministic.value.DetEvaluated? && p.deterministic.value.score == Fin(a)
    ensures VerdictOn(p, c, digest, now).compositeScore == Fin(RoundCents(Mean(a, v, b, w)))
  {}

  /** The composite score is, to two decimals, the `x` that the two weighted scores balance at. */
  lemma CompositeScoreIs(p: CompositeParams, c: Config, digest: Digest, now: string,
                         a: real, v: real, b: real, w: real, x: real)
    requires Judged(p, c, digest, now) && c.deterministicWeight == Fin(v) && c.semanticWeight == Fin(w)
    requires p.deterministic.value.DetEvaluated? && p.deterministic.value.score == Fin(a)
    requires p.judgeScore == Some(Fin(b))
    requires x * (v + w) == a * v + b * w
    ensures VerdictOn(p, c, digest, now).compositeScore.Fin?
    ensures ToCents(VerdictOn(p, c, digest, now).compositeScore.v, x)
  {
    JudgedParts(p, c, digest, now);
    JudgedScore(p, c, digest, now, a, v, b, w);
    MeanBalances(a, v, b, w, x);
  }

  lemma OneWeight(a: real, v: real, b: real, w: real)
    requires v + w > 0.0
    ensures w == 0.0 ==> Mean(a, v, b, w) == a
    ensures v == 0.0 ==> Mean(a, v, b, w) == b
  {
    if w == 0.0 {
      QuotientIs(a * v + b * w, v + w, a);
    }
    if v == 0.0 {
      QuotientIs(a * v + b * w, v + w, b);
    }
  }

  /** A weight of zero leaves the other score, to two decimals. */
  lemma OneScoreOnly(p: CompositeParams, c: Config, digest: Digest, now: string, a: real, v: real, b: real, w: real)
    requires Judged(p, c, digest, now) && c.deterministicWeight == Fin(v) && c.semanticWeight == Fin(w)
    requires p.deterministic.value.DetEvaluated? && p.deterministic.value.score == Fin(a)
    requires p.judgeScore == Some(Fin(b))
    ensures w == 0.0 ==> VerdictOn(p, c, digest, now).compositeScore == Fin(a)
    ensures v == 0.0 ==>
            VerdictOn(p, c, digest, now).compositeScore.Fin? &&
              ToCents(VerdictOn(p, c, digest, now).compositeScore.v, b)
  {
    JudgedParts(p, c, digest, now);
    JudgedScore(p, c, digest, now, a, v, b, w);
    OneWeight(a, v, b, w);
    StandingScoreRounded(p.deterministic.value, digest);
    RoundCentsNear(b);
  }

  /** Without a judge the composite score is the deterministic one. */
  lemma UnjudgedScore(p: CompositeParams, c: Config, digest: Digest, now: string)
    requires VerdictOn(p, c, digest, now).Verdict? && p.judgeScore == None
    ensures p.deterministic.value.DetEvaluated?
    ensures VerdictOn(p, c, digest, now).compositeScore == p.deterministic.value.score
  {
    StandingScoreRounded(p.deterministic.value, digest);
  }

  lemma WeightedMonotone(a: real, a': real, w: real)
    requires a <= a' && w >= 0.0
    ensures a * w <= a' * w
  {}

  lemma QuotientMonotone(part: real, part': real, whole: real)
    requires part <= part' && whole > 0.0
    ensures part / whole <= part' / whole
  {}

  lemma MeanMonotone(a: real, a': real, v: real, b: real, b': real, w: real)
    requires a <= a' && b <= b' && v >= 0.0 && w >= 0.0 && v + w > 0.0
    ensures RoundCents(Mean(a, v, b, w)) <= RoundCents(Mean(a', v, b', w))
  {
    WeightedMonotone(a, a', v);
    WeightedMonotone(b, b', w);
    QuotientMonotone(a * v + b * w, a' * v + b' * w, v + w);
    RoundCentsMonotone(Mean(a, v, b, w), Mean(a', v, b', w));
  }

  /** With the same configuration, no lower scores give no lower composite. */
  lemma CompositeMonotone(p: CompositeParams, q: CompositeParams, c: Config, digest: Digest, now: string,
                          a: real, a': real, b: real, b': real)
    requires Judged(p, c, digest, now) && Judged(q, c, digest, now) && a <= a' && b <= b'
    requires p.deterministic.value.DetEvaluated? && p.deterministic.value.score == Fin(a)
    requires p.judgeScore == Some(Fin(b))
    requires q.deterministic.value.DetEvaluated? && q.deterministic.value.score == Fin(a')
    requires q.judgeScore == Some(Fin(b'))
    ensures VerdictOn(p, c, digest, now).compositeScore.Fin? && VerdictOn(q, c, digest, now).compositeScore.Fin?
    ensures VerdictOn(p, c, digest, now).compositeScore.v <= VerdictOn(q, c, digest, now).compositeScore.v
  {
    JudgedParts(p, c, digest, now);
    var v, w := c.deterministicWeight.v, c.semanticWeight.v;
    JudgedScore(p, c, digest, now, a, v, b, w);
    JudgedScore(q, c, digest, now, a', v, b', w);
    MeanMonotone(a, a', v, b, b', w);
  }

  /** An evaluated composite passes exactly when it reaches the threshold and, where asked for, every check passed. */
  lemma CompositePasses(p: CompositeParams, c: Config, digest: Digest, now: string)
    requires VerdictOn(p, c, digest, now).Verdict?
    ensures p.deterministic.Some? && p.deterministic.value.DetEvaluated?
    ensures
      var v := VerdictOn(p, c, digest, now);
      && v.compositeScore.Fin? && c.passScoreThreshold.Fin? && v.config == c
      && (v.passed <==> v.compositeScore.v >= c.passScoreThreshold.v &&
                        (c.requireAllDeterministicPass ==>
                         p.deterministic.value.passedChecksCount == p.deterministic.value.totalChecksCount))
  {}
}
