/** Candidates, constraints and dominance: what the frontier loses and what it keeps. */
module Pareto {
  import opened Base

  datatype Candidate = Candidate(providerId: string, modelId: string, cost: real, latency: real, ttft: real, tps: real,
                                 quality: real)

  datatype Constraint = Constraint(maxCost: Option<real>, maxLatency: Option<real>, minQuality: Option<real>,
                                   minTps: Option<real>, maxTtft: Option<real>, allowedProviders: Option<seq<string>>)

  /** `satisfiesConstraints` */
  predicate Satisfies(c: Candidate, k: Constraint) {
    && (k.maxCost.None? || c.cost <= k.maxCost.value)
    && (k.maxLatency.None? || c.latency <= k.maxLatency.value)
    && (k.minQuality.None? || c.quality >= k.minQuality.value)
    && (k.minTps.None? || c.tps >= k.minTps.value)
    && (k.maxTtft.None? || c.ttft <= k.maxTtft.value)
    && (k.allowedProviders.None? || c.providerId in k.allowedProviders.value)
  }

  function Valid(candidates: seq<Candidate>, k: Constraint): seq<Candidate> {
    if candidates == [] then []
    else
      var last := candidates[|candidates| - 1];
      Valid(candidates[..|candidates| - 1], k) + if Satisfies(last, k) then [last] else []
  }

  lemma {:induction false} ValidAre(candidates: seq<Candidate>, k: Constraint, c: Candidate)
    ensures c in Valid(candidates, k) <==> c in candidates && Satisfies(c, k)
  {
    if candidates != [] {
      var n := |candidates| - 1;
      ValidAre(candidates[..n], k, c);
      assert candidates == candidates[..n] + [candidates[n]];
    }
  }

  /** `dominates` */
  predicate Dominates(a: Candidate, b: Candidate) {
    && a.cost <= b.cost && a.latency <= b.latency && a.quality >= b.quality && a.tps >= b.tps
    && (a.cost < b.cost || a.latency < b.latency || a.quality > b.quality || a.tps > b.tps)
  }

  /** Dominance is a strict partial order. */
  lemma DominanceStrict(a: Candidate, b: Candidate, c: Candidate)
    ensures !Dominates(a, a)
    ensures Dominates(a, b) && Dominates(b, c) ==> Dominates(a, c)
    ensures Dominates(a, b) ==> !Dominates(b, a)
  {
  }

  predicate Optimal(valid: seq<Candidate>, i: nat)
    requires i < |valid|
  {
    forall j :: 0 <= j < |valid| ==> !Dominates(valid[j], valid[i])
  }

  ghost function Dominators(valid: seq<Candidate>, i: nat): set<nat>
    requires i < |valid|
  {
    set j: nat | j < |valid| && Dominates(valid[j], valid[i])
  }

  lemma FewerDominators(valid: seq<Candidate>, j: nat, i: nat)
    requires j < |valid| && i < |valid| && Dominates(valid[j], valid[i])
    ensures |Dominators(valid, j)| < |Dominators(valid, i)|
  {
    forall h | h in Dominators(valid, j) ensures h in Dominators(valid, i) {
      DominanceStrict(valid[h], valid[j], valid[i]);
    }
    assert j in Dominators(valid, i) && j !in Dominators(valid, j);
    ProperSubsetSmaller(Dominators(valid, j), Dominators(valid, i));
  }

  lemma {:induction false} ProperSubsetSmaller(a: set<nat>, b: set<nat>)
    requires a < b
    ensures |a| < |b|
  {
    var x :| x in b && x !in a;
    SubsetNoLarger(a, b - {x});
  }

  lemma {:induction false} SubsetNoLarger(a: set<nat>, b: set<nat>)
    requires a <= b
    ensures |a| <= |b|
  {
    if a != {} {
      var x :| x in a;
      SubsetNoLarger(a - {x}, b - {x});
    }
  }

  /** Every valid candidate is on the frontier or dominated by one that is: the frontier loses nothing. */
  lemma {:induction false} FrontierCovers(valid: seq<Candidate>, i: nat) returns (f: nat)
    requires i < |valid|
    ensures f < |valid| && Optimal(valid, f) && (f == i || Dominates(valid[f], valid[i]))
    decreases |Dominators(valid, i)|
  {
    if Optimal(valid, i) {
      f := i;
    } else {
      var j: nat :| j < |valid| && Dominates(valid[j], valid[i]);
      FewerDominators(valid, j, i);
      f := FrontierCovers(valid, j);
      DominanceStrict(valid[f], valid[j], valid[i]);
    }
  }

  // ----- dominance counts

  /** How many of the first `n` candidates `c` dominates, and how many dominate it. */
  function Beats(valid: seq<Candidate>, c: Candidate, n: nat): nat
    requires n <= |valid|
  {
    if n == 0 then 0 else Beats(valid, c, n - 1) + if Dominates(c, valid[n - 1]) then 1 else 0
  }

  function BeatenBy(valid: seq<Candidate>, c: Candidate, n: nat): nat
    requires n <= |valid|
  {
    if n == 0 then 0 else BeatenBy(valid, c, n - 1) + if Dominates(valid[n - 1], c) then 1 else 0
  }

  lemma {:induction false} UnbeatenIsOptimal(valid: seq<Candidate>, c: Candidate, n: nat)
    requires n <= |valid|
    ensures BeatenBy(valid, c, n) == 0 <==> forall j :: 0 <= j < n ==> !Dominates(valid[j], c)
  {
    if n > 0 {
      UnbeatenIsOptimal(valid, c, n - 1);
    }
  }

  function Wins(valid: seq<Candidate>, m: nat, n: nat): nat
    requires m <= |valid| && n <= |valid|
  {
    if m == 0 then 0 else Wins(valid, m - 1, n) + Beats(valid, valid[m - 1], n)
  }

  function Losses(valid: seq<Candidate>, m: nat, n: nat): nat
    requires m <= |valid| && n <= |valid|
  {
    if m == 0 then 0 else Losses(valid, m - 1, n) + BeatenBy(valid, valid[m - 1], n)
  }

  lemma {:induction false} LossesStep(valid: seq<Candidate>, m: nat, n: nat)
    requires m <= |valid| && 0 < n <= |valid|
    ensures Losses(valid, m, n) == Losses(valid, m, n - 1) + Beats(valid, valid[n - 1], m)
  {
    if m > 0 {
      LossesStep(valid, m - 1, n);
    }
  }

  lemma {:induction false} NoLosses(valid: seq<Candidate>, m: nat)
    requires m <= |valid|
    ensures Losses(valid, m, 0) == 0
  {
    if m > 0 {
      NoLosses(valid, m - 1);
    }
  }

  /** Every win is somebody's loss. */
  lemma {:induction false} WinsAreLosses(valid: seq<Candidate>, m: nat, n: nat)
    requires m <= |valid| && n <= |valid|
    ensures Wins(valid, m, n) == Losses(valid, n, m)
  {
    if m == 0 {
      NoLosses(valid, n);
    } else {
      WinsAreLosses(valid, m - 1, n);
      LossesStep(valid, n, m);
    }
  }
}
