/** `OptimizerEngine`: the frontier with its ranks and counters, and the recommendation drawn from it. */
module OptimizerEngine {
  import opened Base
  import opened Sorting
  import opened Pareto
  import Numbers

  datatype Point = Point(candidate: Candidate, isParetoOptimal: bool, dominanceScore: int, efficiencyScore: real,
                         costRank: nat, latencyRank: nat, qualityRank: nat)

  datatype Target = Cost | Latency | Throughput | Quality | Balanced

  datatype Recommendation = Recommendation(recommendedModel: string, recommendedProvider: string,
                                           fallbackModel: Option<string>, fallbackProvider: Option<string>,
                                           target: Target, frontierPoint: Point)

  datatype Report = Report(scenarioId: string, target: Target, constraints: Constraint, candidatesEvaluated: nat,
                           paretoFrontier: seq<Point>, recommendation: Recommendation,
                           fallbackChain: seq<Recommendation>, timestamp: int)

  function CandidateKey(c: Candidate): string {
    c.providerId + ":" + c.modelId
  }

  const ByCost := (a: Candidate, b: Candidate) => a.cost <= b.cost
  const ByLatency := (a: Candidate, b: Candidate) => a.latency <= b.latency
  const ByQuality := (a: Candidate, b: Candidate) => b.quality <= a.quality

  /** `r` is the last place, counted from one, that the sorted list gives to a key. */
  predicate IsRank(sorted: seq<Candidate>, key: string, r: nat) {
    && 1 <= r <= |sorted| && CandidateKey(sorted[r - 1]) == key
    && forall j :: r <= j < |sorted| ==> CandidateKey(sorted[j]) != key
  }

  /** `sorted.forEach((c, idx) => ranks.set(key(c), idx + 1))` */
  method Ranks(sorted: seq<Candidate>) returns (ranks: map<string, nat>)
    ensures forall c :: c in sorted ==> CandidateKey(c) in ranks
    ensures forall key :: key in ranks ==> IsRank(sorted, key, ranks[key])
  {
    ranks := map[];
    for idx := 0 to |sorted|
      invariant forall c :: c in sorted[..idx] ==> CandidateKey(c) in ranks
      invariant forall key :: key in ranks ==> IsRank(sorted[..idx], key, ranks[key])
    {
      assert sorted[..idx + 1] == sorted[..idx] + [sorted[idx]];
      ranks := ranks[CandidateKey(sorted[idx]) := idx + 1];
    }
    assert sorted[..|sorted|] == sorted;
  }

  /** `efficiencyScore`, before it is rounded */
  function Unrounded(costRank: nat, latencyRank: nat, qualityRank: nat, n: nat): real
    requires n > 0
  {
    var normCost, normLat, normQual := costRank as real / n as real, latencyRank as real / n as real,
                                       (n - qualityRank + 1) as real / n as real;
    (normQual * 2.0) / (normCost + normLat + 0.0001)
  }

  function Efficiency(costRank: nat, latencyRank: nat, qualityRank: nat, n: nat): real
    requires n > 0
  {
    Numbers.RoundCents(Unrounded(costRank, latencyRank, qualityRank, n))
  }

  /** What the frontier says about the valid candidate `i`. */
  ghost predicate Describes(p: Point, valid: seq<Candidate>, i: nat)
    requires i < |valid|
  {
    && p.candidate == valid[i]
    && (p.isParetoOptimal <==> Optimal(valid, i))
    && p.dominanceScore == Beats(valid, valid[i], |valid|) - BeatenBy(valid, valid[i], |valid|)
    && IsRank(Sort(valid, ByCost), CandidateKey(valid[i]), p.costRank)
    && IsRank(Sort(valid, ByLatency), CandidateKey(valid[i]), p.latencyRank)
    && IsRank(Sort(valid, ByQuality), CandidateKey(valid[i]), p.qualityRank)
    && p.efficiencyScore == Efficiency(p.costRank, p.latencyRank, p.qualityRank, |valid|)
  }

  /** The inner loop over the other candidates; skipping the candidate itself changes no count. */
  method CountDominance(valid: seq<Candidate>, i: nat) returns (dominanceCount: nat, dominatedByCount: nat)
    requires i < |valid|
    ensures dominanceCount == Beats(valid, valid[i], |valid|) && dominatedByCount == BeatenBy(valid, valid[i], |valid|)
  {
    dominanceCount, dominatedByCount := 0, 0;
    for j := 0 to |valid|
      invariant dominanceCount == Beats(valid, valid[i], j) && dominatedByCount == BeatenBy(valid, valid[i], j)
    {
      if j == i {
        continue;
      }
      if Dominates(valid[i], valid[j]) {
        dominanceCount := dominanceCount + 1;
      }
      if Dominates(valid[j], valid[i]) {
        dominatedByCount := dominatedByCount + 1;
      }
    }
  }

  lemma OrdersTotal()
    ensures TotalPreorder(ByCost) && TotalPreorder(ByLatency) && TotalPreorder(ByQuality)
  {
  }

  lemma SortKeeps(valid: seq<Candidate>, le: (Candidate, Candidate) -> bool)
    requires TotalPreorder(le)
    ensures forall c :: c in valid ==> c in Sort(valid, le)
  {
    SortCorrect(valid, le);
    forall c | c in valid ensures c in Sort(valid, le) {
      assert c in multiset(valid);
    }
  }

  /** One turn of the `valid.map` of `computeParetoFrontier`. */
  method PointOf(valid: seq<Candidate>, i: nat, costRanks: map<string, nat>, latencyRanks: map<string, nat>,
                 qualityRanks: map<string, nat>)
    returns (p: Point)
    requires i < |valid| && CandidateKey(valid[i]) in costRanks && CandidateKey(valid[i]) in latencyRanks
    requires CandidateKey(valid[i]) in qualityRanks
    requires IsRank(Sort(valid, ByCost), CandidateKey(valid[i]), costRanks[CandidateKey(valid[i])])
    requires IsRank(Sort(valid, ByLatency), CandidateKey(valid[i]), latencyRanks[CandidateKey(valid[i])])
    requires IsRank(Sort(valid, ByQuality), CandidateKey(valid[i]), qualityRanks[CandidateKey(valid[i])])
    ensures Describes(p, valid, i)
  {
    var key := CandidateKey(valid[i]);
    var dominanceCount, dominatedByCount := CountDominance(valid, i);
    UnbeatenIsOptimal(valid, valid[i], |valid|);
    var cRank, lRank, qRank := costRanks[key], latencyRanks[key], qualityRanks[key];
    var score := (dominanceCount as int) - (dominatedByCount as int);
    p := Point(valid[i], dominatedByCount == 0, score,
               Efficiency(cRank, lRank, qRank, |valid|), cRank, lRank, qRank);
  }

  /** The rank maps are total on the valid candidates and name the last place of each key. */
  ghost predicate RanksOf(ranks: map<string, nat>, valid: seq<Candidate>, le: (Candidate, Candidate) -> bool) {
    forall i :: 0 <= i < |valid| ==>
      CandidateKey(valid[i]) in ranks && IsRank(Sort(valid, le), CandidateKey(valid[i]), ranks[CandidateKey(valid[i])])
  }

  method RankAll(valid: seq<Candidate>, le: (Candidate, Candidate) -> bool) returns (ranks: map<string, nat>)
    requires TotalPreorder(le)
    ensures RanksOf(ranks, valid, le)
  {
    SortKeeps(valid, le);
    ranks := Ranks(Sort(valid, le));
    forall i | 0 <= i < |valid|
      ensures CandidateKey(valid[i]) in ranks
      ensures IsRank(Sort(valid, le), CandidateKey(valid[i]), ranks[CandidateKey(valid[i])])
    {
      assert valid[i] in valid;
    }
  }

  ghost predicate DescribesAll(frontier: seq<Point>, valid: seq<Candidate>)
    requires |frontier| <= |valid|
  {
    forall i :: 0 <= i < |frontier| ==> Describes(frontier[i], valid, i)
  }

  /** `computeParetoFrontier` */
  method ComputeParetoFrontier(candidates: seq<Candidate>, constraints: Constraint) returns (frontier: seq<Point>)
    ensures |frontier| == |Valid(candidates, constraints)|
    ensures DescribesAll(frontier, Valid(candidates, constraints))
  {
    var valid := Valid(candidates, constraints);
    frontier := [];
    if |valid| == 0 {
      return;
    }
    OrdersTotal();
    var costRanks := RankAll(valid, ByCost);
    var latencyRanks := RankAll(valid, ByLatency);
    var qualityRanks := RankAll(valid, ByQuality);
    for i := 0 to |valid|
      invariant |frontier| == i && DescribesAll(frontier, valid)
    {
      var point := PointOf(valid, i, costRanks, latencyRanks, qualityRanks);
      frontier := frontier + [point];
    }
  }

  // ----- the recommendation

  function OptimalPoints(frontier: seq<Point>): seq<Point> {
    if frontier == [] then []
    else
      var last := frontier[|frontier| - 1];
      OptimalPoints(frontier[..|frontier| - 1]) + if last.isParetoOptimal then [last] else []
  }

  lemma {:induction false} OptimalPointsAre(frontier: seq<Point>, p: Point)
    ensures p in OptimalPoints(frontier) <==> p in frontier && p.isParetoOptimal
  {
    if frontier != [] {
      var n := |frontier| - 1;
      OptimalPointsAre(frontier[..n], p);
      assert frontier == frontier[..n] + [frontier[n]];
    }
  }

  /** The comparator of a target, as an order: `a` comes no later than `b`. */
  function ByTarget(target: Target): (Point, Point) -> bool {
    match target
    case Cost => (a: Point, b: Point) => a.candidate.cost <= b.candidate.cost
    case Latency => (a: Point, b: Point) => a.candidate.latency <= b.candidate.latency
    case Throughput => (a: Point, b: Point) => b.candidate.tps <= a.candidate.tps
    case Quality => (a: Point, b: Point) => b.candidate.quality <= a.candidate.quality
    case Balanced => (a: Point, b: Point) => b.efficiencyScore <= a.efficiencyScore
  }

  lemma ByTargetTotal(target: Target)
    ensures TotalPreorder(ByTarget(target))
  {
  }

  function Recommend(ranked: seq<Point>, i: nat, target: Target): Recommendation
    requires i < |ranked|
  {
    var next := if i + 1 < |ranked| then Some(ranked[i + 1]) else None;
    Recommendation(ranked[i].candidate.modelId, ranked[i].candidate.providerId,
                   if next.Some? then Some(next.value.candidate.modelId) else None,
                   if next.Some? then Some(next.value.candidate.providerId) else None, target, ranked[i])
  }

  /**
   * The report draws on the frontier: its recommendations are the optimal points in the order of the target, each
   * falling back on the next.
   */
  ghost predicate Reports(r: Report, candidates: seq<Candidate>, constraints: Constraint, target: Target) {
    var valid := Valid(candidates, constraints);
    var ranked := Sort(OptimalPoints(r.paretoFrontier), ByTarget(target));
    && |r.paretoFrontier| == |valid| && DescribesAll(r.paretoFrontier, valid)
    && r.candidatesEvaluated == |candidates| && r.target == target && r.constraints == constraints
    && |ranked| > 0 && r.recommendation == Recommend(ranked, 0, target)
    && |r.fallbackChain| == |ranked| - 1
    && forall i :: 0 <= i < |r.fallbackChain| ==> r.fallbackChain[i] == Recommend(ranked, i + 1, target)
  }

  lemma SomeOptimal(frontier: seq<Point>, valid: seq<Candidate>)
    requires |frontier| == |valid| > 0 && DescribesAll(frontier, valid)
    ensures |OptimalPoints(frontier)| > 0
  {
    var f := FrontierCovers(valid, 0);
    assert Describes(frontier[f], valid, f);
    OptimalPointsAre(frontier, frontier[f]);
  }

  class Engine {
    var optimizationHistory: seq<Report>

    constructor ()
      ensures optimizationHistory == []
    {
      optimizationHistory := [];
    }

    /**
     * `optimizeScenario`: an error exactly when no candidate meets the constraints, otherwise a report, also kept in
     * the history.
     */
    method OptimizeScenario(scenarioId: string, candidates: seq<Candidate>, target: Target, constraints: Constraint,
                            now: int)
      returns (report: Option<Report>)
      modifies this
      ensures report.None? <==> Valid(candidates, constraints) == []
      ensures report.None? ==> optimizationHistory == old(optimizationHistory)
      ensures report.Some? ==> Reports(report.value, candidates, constraints, target)
      ensures report.Some? ==> report.value.scenarioId == scenarioId
      ensures report.Some? ==> optimizationHistory == old(optimizationHistory) + [report.value]
    {
      var frontier := ComputeParetoFrontier(candidates, constraints);
      if |frontier| == 0 {
        return None;
      }
      SomeOptimal(frontier, Valid(candidates, constraints));
      var optimalPoints := OptimalPoints(frontier);
      var ranked := Sort(if |optimalPoints| > 0 then optimalPoints else frontier, ByTarget(target));
      var chain: seq<Recommendation> := [];
      for i := 1 to |ranked|
        invariant |chain| == i - 1
        invariant forall h :: 0 <= h < |chain| ==> chain[h] == Recommend(ranked, h + 1, target)
      {
        chain := chain + [Recommend(ranked, i, target)];
      }
      var made := Report(scenarioId, target, constraints, |candidates|, frontier, Recommend(ranked, 0, target), chain,
                         now);
      optimizationHistory := optimizationHistory + [made];
      return Some(made);
    }
  }

  // ----- what the report promises

  /** The recommended point is on the frontier, and comes no later than any other optimal point. */
  lemma RecommendationIsFirst(r: Report, candidates: seq<Candidate>, constraints: Constraint, target: Target)
    requires Reports(r, candidates, constraints, target)
    ensures r.recommendation.frontierPoint in r.paretoFrontier && r.recommendation.frontierPoint.isParetoOptimal
    ensures forall p :: p in r.paretoFrontier && p.isParetoOptimal ==>
            ByTarget(target)(r.recommendation.frontierPoint, p)
  {
    var pool := OptimalPoints(r.paretoFrontier);
    var le := ByTarget(target);
    ByTargetTotal(target);
    SortCorrect(pool, le);
    var ranked := Sort(pool, le);
    assert ranked[0] in multiset(pool);
    OptimalPointsAre(r.paretoFrontier, ranked[0]);
    forall p | p in r.paretoFrontier && p.isParetoOptimal ensures le(ranked[0], p) {
      OptimalPointsAre(r.paretoFrontier, p);
      assert p in multiset(ranked);
      var j :| 0 <= j < |ranked| && ranked[j] == p;
      assert le(ranked[0], ranked[0]);
    }
  }

  /** `a` is at least as good as `b` for a target other than `balanced`. */
  predicate AsGood(a: Candidate, b: Candidate, target: Target) {
    match target
    case Cost => a.cost <= b.cost
    case Latency => a.latency <= b.latency
    case Throughput => b.tps <= a.tps
    case Quality => b.quality <= a.quality
    case Balanced => true
  }

  /**
   * For cost, latency, throughput and quality the recommendation is optimal over all valid candidates, not only over
   * the frontier.
   */
  lemma RecommendationOptimal(r: Report, candidates: seq<Candidate>, constraints: Constraint, target: Target,
                              c: Candidate)
    requires Reports(r, candidates, constraints, target) && c in candidates && Satisfies(c, constraints)
    ensures AsGood(r.recommendation.frontierPoint.candidate, c, target)
  {
    var valid := Valid(candidates, constraints);
    ValidAre(candidates, constraints, c);
    var i :| 0 <= i < |valid| && valid[i] == c;
    var f := FrontierCovers(valid, i);
    var p := r.paretoFrontier[f];
    assert Describes(p, valid, f);
    RecommendationIsFirst(r, candidates, constraints, target);
    assert ByTarget(target)(r.recommendation.frontierPoint, p);
  }

  function ScoreSum(frontier: seq<Point>): int {
    if frontier == [] then 0 else ScoreSum(frontier[..|frontier| - 1]) + frontier[|frontier| - 1].dominanceScore
  }

  lemma {:induction false} ScoreSumIs(frontier: seq<Point>, valid: seq<Candidate>, m: nat)
    requires |frontier| == |valid| && DescribesAll(frontier, valid) && m <= |valid|
    ensures ScoreSum(frontier[..m]) == Wins(valid, m, |valid|) - Losses(valid, m, |valid|)
  {
    if m > 0 {
      ScoreSumIs(frontier, valid, m - 1);
      assert frontier[..m][..m - 1] == frontier[..m - 1];
      assert Describes(frontier[m - 1], valid, m - 1);
    }
  }

  /** Dominance scores sum to zero. */
  lemma DominanceConserved(frontier: seq<Point>, valid: seq<Candidate>)
    requires |frontier| == |valid| && DescribesAll(frontier, valid)
    ensures ScoreSum(frontier) == 0
  {
    ScoreSumIs(frontier, valid, |valid|);
    assert frontier[..|valid|] == frontier;
    WinsAreLosses(valid, |valid|, |valid|);
  }

  /** A rank finds its candidate: the sorted list holds it at that place. */
  predicate RankFinds(sorted: seq<Candidate>, r: nat, c: Candidate) {
    1 <= r <= |sorted| && sorted[r - 1] == c
  }

  /** Every rank given to a valid candidate is that candidate's own place. */
  ghost predicate RanksFind(valid: seq<Candidate>, le: (Candidate, Candidate) -> bool) {
    forall i, r :: 0 <= i < |valid| && IsRank(Sort(valid, le), CandidateKey(valid[i]), r) ==>
      RankFinds(Sort(valid, le), r, valid[i])
  }

  /** Candidates that share a key are the same candidate. */
  predicate KeysIdentify(valid: seq<Candidate>) {
    forall i, j :: 0 <= i < |valid| && 0 <= j < |valid| && CandidateKey(valid[i]) == CandidateKey(valid[j]) ==>
      valid[i] == valid[j]
  }

  lemma {:induction false} RankExists(sorted: seq<Candidate>, c: Candidate) returns (r: nat)
    requires c in sorted
    ensures IsRank(sorted, CandidateKey(c), r)
  {
    var n := |sorted| - 1;
    if CandidateKey(sorted[n]) == CandidateKey(c) {
      r := n + 1;
    } else {
      assert sorted == sorted[..n] + [sorted[n]];
      r := RankExists(sorted[..n], c);
    }
  }

  lemma IdentifyingKeysFind(valid: seq<Candidate>, le: (Candidate, Candidate) -> bool, i: nat, r: nat)
    requires TotalPreorder(le) && KeysIdentify(valid) && i < |valid|
    requires IsRank(Sort(valid, le), CandidateKey(valid[i]), r)
    ensures RankFinds(Sort(valid, le), r, valid[i])
  {
    SortCorrect(valid, le);
    var c := Sort(valid, le)[r - 1];
    assert c in multiset(valid);
    var j :| 0 <= j < |valid| && valid[j] == c;
  }

  /** Each rank is its candidate's own place in the sorted list exactly when equal keys mean equal candidates. */
  lemma RanksFindExactly(valid: seq<Candidate>, le: (Candidate, Candidate) -> bool)
    requires TotalPreorder(le)
    ensures RanksFind(valid, le) <==> KeysIdentify(valid)
  {
    if KeysIdentify(valid) {
      forall i, r | 0 <= i < |valid| && IsRank(Sort(valid, le), CandidateKey(valid[i]), r)
        ensures RankFinds(Sort(valid, le), r, valid[i])
      {
        IdentifyingKeysFind(valid, le, i, r);
      }
    } else {
      var i, j :| 0 <= i < |valid| && 0 <= j < |valid| && CandidateKey(valid[i]) == CandidateKey(valid[j]) &&
        valid[i] != valid[j];
      SortKeeps(valid, le);
      var r := RankExists(Sort(valid, le), valid[i]);
      assert IsRank(Sort(valid, le), CandidateKey(valid[j]), r);
      assert !RankFinds(Sort(valid, le), r, valid[i]) || !RankFinds(Sort(valid, le), r, valid[j]);
    }
  }

  /** A cheap and a dear candidate whose keys collide on a colon: the cheap one is ranked second. */
  lemma CollidingKeysMisrank()
    ensures
      var cheap, dear := Candidate("x", "y:z", 1.0, 0.0, 0.0, 0.0, 0.0), Candidate("x:y", "z", 2.0, 0.0, 0.0, 0.0, 0.0);
      && Sort([cheap, dear], ByCost) == [cheap, dear]
      && IsRank(Sort([cheap, dear], ByCost), CandidateKey(cheap), 2)
      && !IsRank(Sort([cheap, dear], ByCost), CandidateKey(cheap), 1)
  {
    var cheap, dear := Candidate("x", "y:z", 1.0, 0.0, 0.0, 0.0, 0.0), Candidate("x:y", "z", 2.0, 0.0, 0.0, 0.0, 0.0);
    assert CandidateKey(cheap) == "x:y:z" && CandidateKey(dear) == "x:y:z";
    assert [cheap, dear][..1] == [cheap] && [cheap][..0] == [];
    assert Sort([cheap], ByCost) == [cheap];
    assert Sort([cheap, dear], ByCost) == Insert([cheap], dear, ByCost) == [cheap, dear];
  }
}
