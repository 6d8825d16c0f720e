/** What a report of the optimizer tells about candidates, ranks and scores, read off their own fields. */
module OptimizerTheorems {
  import opened Base
  import opened Sorting
  import opened Pareto
  import opened OptimizerEngine
  import Numbers

  // ----- who is on the frontier

  /** The candidate stays within every limit that is set. */
  predicate WithinLimits(c: Candidate, k: Constraint) {
    && (k.maxCost.Some? ==> c.cost <= k.maxCost.value)
    && (k.maxLatency.Some? ==> c.latency <= k.maxLatency.value)
    && (k.minQuality.Some? ==> c.quality >= k.minQuality.value)
    && (k.minTps.Some? ==> c.tps >= k.minTps.value)
    && (k.maxTtft.Some? ==> c.ttft <= k.maxTtft.value)
    && (k.allowedProviders.Some? ==> c.providerId in k.allowedProviders.value)
  }

  ghost predicate OnFrontier(frontier: seq<Point>, c: Candidate) {
    exists i :: 0 <= i < |frontier| && frontier[i].candidate == c
  }

  /** The frontier holds exactly the candidates within the limits. */
  lemma FrontierHolds(r: Report, candidates: seq<Candidate>, constraints: Constraint, target: Target, c: Candidate)
    requires Reports(r, candidates, constraints, target)
    ensures OnFrontier(r.paretoFrontier, c) <==> c in candidates && WithinLimits(c, constraints)
  {
    var valid := Valid(candidates, constraints);
    ValidAre(candidates, constraints, c);
    if c in valid {
      var i :| 0 <= i < |valid| && valid[i] == c;
      assert Describes(r.paretoFrontier[i], valid, i);
    }
    if OnFrontier(r.paretoFrontier, c) {
      var i :| 0 <= i < |r.paretoFrontier| && r.paretoFrontier[i].candidate == c;
      assert Describes(r.paretoFrontier[i], valid, i);
    }
  }

  /** The rival beats `c`: nowhere worse, and better in cost, latency, quality or throughput. */
  predicate Beaten(c: Candidate, rival: Candidate) {
    && rival.cost <= c.cost && rival.latency <= c.latency && rival.quality >= c.quality && rival.tps >= c.tps
    && (rival.cost, rival.latency, rival.quality, rival.tps) != (c.cost, c.latency, c.quality, c.tps)
  }

  /** A point is optimal exactly when no candidate within the limits beats it. */
  lemma OptimalMeans(r: Report, candidates: seq<Candidate>, constraints: Constraint, target: Target, i: nat)
    requires Reports(r, candidates, constraints, target) && i < |r.paretoFrontier|
    ensures r.paretoFrontier[i].isParetoOptimal <==>
            forall c :: c in candidates && WithinLimits(c, constraints) ==> !Beaten(r.paretoFrontier[i].candidate, c)
  {
    var valid := Valid(candidates, constraints);
    var p := r.paretoFrontier[i];
    assert Describes(p, valid, i);
    forall c
      ensures c in valid <==> c in candidates && WithinLimits(c, constraints)
      ensures Dominates(c, valid[i]) <==> Beaten(valid[i], c)
    {
      ValidAre(candidates, constraints, c);
    }
    if p.isParetoOptimal {
      forall c | c in valid ensures !Beaten(valid[i], c) {
        var j :| 0 <= j < |valid| && valid[j] == c;
        assert !Dominates(valid[j], valid[i]);
      }
    } else {
      var j: nat :| j < |valid| && Dominates(valid[j], valid[i]);
      assert valid[j] in valid && Beaten(valid[i], valid[j]);
    }
  }

  /** For the balanced target no optimal point has a higher efficiency score than the recommended one. */
  lemma BalancedIsMostEfficient(r: Report, candidates: seq<Candidate>, constraints: Constraint, p: Point)
    requires Reports(r, candidates, constraints, Balanced) && p in r.paretoFrontier && p.isParetoOptimal
    ensures p.efficiencyScore <= r.recommendation.frontierPoint.efficiencyScore
  {
    RecommendationIsFirst(r, candidates, constraints, Balanced);
  }

  // ----- ranks

  /** Where keys identify candidates, the better of two candidates has the lower rank. */
  lemma RanksFollow(valid: seq<Candidate>, le: (Candidate, Candidate) -> bool, i: nat, j: nat, r: nat, s: nat)
    requires TotalPreorder(le) && KeysIdentify(valid) && i < |valid| && j < |valid| && !le(valid[j], valid[i])
    requires IsRank(Sort(valid, le), CandidateKey(valid[i]), r) && IsRank(Sort(valid, le), CandidateKey(valid[j]), s)
    ensures r < s
  {
    IdentifyingKeysFind(valid, le, i, r);
    IdentifyingKeysFind(valid, le, j, s);
    SortCorrect(valid, le);
    PlacesFollow(Sort(valid, le), le, valid[i], valid[j], r, s);
  }

  lemma PlacesFollow(sorted: seq<Candidate>, le: (Candidate, Candidate) -> bool, a: Candidate, b: Candidate,
                     r: nat, s: nat)
    requires TotalPreorder(le) && Sorted(sorted, le) && RankFinds(sorted, r, a) && RankFinds(sorted, s, b) && !le(b, a)
    ensures r < s
  {
    assert le(a, a);
  }

  lemma PointRanks(r: Report, candidates: seq<Candidate>, constraints: Constraint, target: Target, i: nat, j: nat)
    requires Reports(r, candidates, constraints, target) && KeysIdentify(Valid(candidates, constraints))
    requires i < |r.paretoFrontier| && j < |r.paretoFrontier|
    ensures
      var p, q := r.paretoFrontier[i], r.paretoFrontier[j];
      && (p.candidate.cost < q.candidate.cost ==> p.costRank < q.costRank)
      && (p.candidate.latency < q.candidate.latency ==> p.latencyRank < q.latencyRank)
      && (p.candidate.quality > q.candidate.quality ==> p.qualityRank < q.qualityRank)
      && 1 <= p.costRank <= |r.paretoFrontier| && 1 <= p.latencyRank <= |r.paretoFrontier|
      && 1 <= p.qualityRank <= |r.paretoFrontier|
  {
    var valid := Valid(candidates, constraints);
    var p, q := r.paretoFrontier[i], r.paretoFrontier[j];
    assert Describes(p, valid, i) && Describes(q, valid, j);
    OrdersTotal();
    if p.candidate.cost < q.candidate.cost {
      RanksFollow(valid, ByCost, i, j, p.costRank, q.costRank);
    }
    if p.candidate.latency < q.candidate.latency {
      RanksFollow(valid, ByLatency, i, j, p.latencyRank, q.latencyRank);
    }
    if p.candidate.quality > q.candidate.quality {
      RanksFollow(valid, ByQuality, i, j, p.qualityRank, q.qualityRank);
    }
  }

  // ----- the efficiency score

  /**
   * Twice the quality places, counted from the worst, by the cost and latency places and a ten-thousandth a candidate.
   */
  predicate Balances(x: real, costRank: nat, latencyRank: nat, qualityRank: nat, n: nat) {
    x * Places(costRank, latencyRank, n) == 2.0 * (n - qualityRank + 1) as real
  }

  function Places(costRank: nat, latencyRank: nat, n: nat): real {
    costRank as real + latencyRank as real + 0.0001 * n as real
  }

  lemma ShareTimes(part: real, n: real)
    requires n > 0.0
    ensures part / n * n == part
  {}

  lemma ProductSum(a: real, b: real, c: real, n: real)
    ensures (a + b + c) * n == a * n + b * n + c * n
  {}

  lemma ScaledQuotient(num: real, den: real, n: real, e: real)
    requires den != 0.0 && e == num / den
    ensures e * (den * n) == num * n
  {
    assert e * den == num;
    assert e * (den * n) == (e * den) * n;
  }

  lemma UnroundedBalances(costRank: nat, latencyRank: nat, qualityRank: nat, n: nat)
    requires n > 0
    ensures Balances(Unrounded(costRank, latencyRank, qualityRank, n), costRank, latencyRank, qualityRank, n)
  {
    var m := n as real;
    var c, l, q := costRank as real / m, latencyRank as real / m, (n - qualityRank + 1) as real / m;
    ShareTimes(costRank as real, m);
    ShareTimes(latencyRank as real, m);
    ShareTimes((n - qualityRank + 1) as real, m);
    ProductSum(c, l, 0.0001, m);
    ScaledQuotient(q * 2.0, c + l + 0.0001, m, Unrounded(costRank, latencyRank, qualityRank, n));
    assert q * 2.0 * m == 2.0 * (q * m);
  }

  lemma SameQuotient(x: real, y: real, d: real)
    requires d > 0.0 && x * d == y * d
    ensures x == y
  {
    assert (x - y) * d == 0.0;
  }

  lemma ScoreNear(costRank: nat, latencyRank: nat, qualityRank: nat, n: nat, x: real)
    requires n > 0 && costRank > 0 && Balances(x, costRank, latencyRank, qualityRank, n)
    ensures Numbers.ToCents(Efficiency(costRank, latencyRank, qualityRank, n), x)
  {
    UnroundedBalances(costRank, latencyRank, qualityRank, n);
    SameQuotient(Unrounded(costRank, latencyRank, qualityRank, n), x, Places(costRank, latencyRank, n));
    Numbers.RoundCentsNear(x);
  }

  /** The efficiency score of a point is, to two decimals, the `x` that its ranks balance at. */
  lemma EfficiencyScoreIs(r: Report, candidates: seq<Candidate>, constraints: Constraint, target: Target, i: nat,
                          x: real)
    requires Reports(r, candidates, constraints, target) && i < |r.paretoFrontier|
    requires var p := r.paretoFrontier[i]; Balances(x, p.costRank, p.latencyRank, p.qualityRank, |r.paretoFrontier|)
    ensures Numbers.ToCents(r.paretoFrontier[i].efficiencyScore, x)
  {
    var p, n := r.paretoFrontier[i], |r.paretoFrontier|;
    assert Describes(p, Valid(candidates, constraints), i);
    ScoreNear(p.costRank, p.latencyRank, p.qualityRank, n, x);
  }

  lemma RatioFollows(x: real, y: real, num: real, num': real, den: real, den': real)
    requires 0.0 < den <= den' && num >= num' >= 0.0 && x * den == num && y * den' == num'
    ensures x >= y
  {
    if x < y {
      assert y > 0.0 || x < 0.0;
      Ordered(x, y, den, den');
    }
  }

  lemma Ordered(x: real, y: real, den: real, den': real)
    requires 0.0 < den <= den' && x < y && y * den' >= 0.0
    ensures x * den < y * den'
  {
    NonnegativeFactor(y, den');
    assert x * den < y * den;
    assert y * den <= y * den';
  }

  lemma NonnegativeFactor(y: real, den: real)
    requires den > 0.0 && y * den >= 0.0
    ensures y >= 0.0
  {}

  lemma ScoreFollows(c: nat, l: nat, q: nat, c': nat, l': nat, q': nat, n: nat)
    requires 0 < c <= c' && l <= l' && q <= q' <= n && n > 0
    ensures Efficiency(c, l, q, n) >= Efficiency(c', l', q', n)
  {
    UnroundedBalances(c, l, q, n);
    UnroundedBalances(c', l', q', n);
    RatioFollows(Unrounded(c, l, q, n), Unrounded(c', l', q', n), 2.0 * (n - q + 1) as real, 2.0 * (n - q' + 1) as real,
                 Places(c, l, n), Places(c', l', n));
    Numbers.RoundCentsMonotone(Unrounded(c', l', q', n), Unrounded(c, l, q, n));
  }

  /** No worse a rank in cost, latency and quality gives no lower efficiency score. */
  lemma EfficiencyFollowsRanks(r: Report, candidates: seq<Candidate>, constraints: Constraint, target: Target,
                               i: nat, j: nat)
    requires Reports(r, candidates, constraints, target) && i < |r.paretoFrontier| && j < |r.paretoFrontier|
    requires
      var p, q := r.paretoFrontier[i], r.paretoFrontier[j];
      p.costRank <= q.costRank && p.latencyRank <= q.latencyRank && p.qualityRank <= q.qualityRank
    ensures r.paretoFrontier[i].efficiencyScore >= r.paretoFrontier[j].efficiencyScore
  {
    var p, q, n := r.paretoFrontier[i], r.paretoFrontier[j], |r.paretoFrontier|;
    assert Describes(p, Valid(candidates, constraints), i) && Describes(q, Valid(candidates, constraints), j);
    ScoreFollows(p.costRank, p.latencyRank, p.qualityRank, q.costRank, q.latencyRank, q.qualityRank, n);
  }
}
