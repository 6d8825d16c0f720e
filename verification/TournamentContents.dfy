/** What stands in a produced plan: rounds, scenarios, skills and providers, read off the plan itself. */
module TournamentContents {
  import opened Base
  import opened CircleMethod
  import opened Keys
  import opened PlanValidation
  import opened TournamentTypes
  import opened RoundRobin
  import opened RoundRobinTheorems
  import opened TournamentPlan
  import opened TournamentAgreement
  import opened TournamentCuts

  /** `id` is the name of a model, and `provider` is the provider of every model of that name. */
  ghost predicate ProvidedBy(models: seq<Model>, id: string, provider: string) {
    && (exists x :: 0 <= x < |models| && models[x].modelId == id)
    && (forall x :: 0 <= x < |models| && models[x].modelId == id ==> models[x].providerId == provider)
  }

  lemma FieldsProvided(models: seq<Model>, p: Pairing, u: nat, v: nat)
    requires DistinctIds(models) && Fields(p, models, u, v)
    ensures ProvidedBy(models, p.modelA, p.providerA) && ProvidedBy(models, p.modelB, p.providerB)
  {
    assert models[u].modelId == p.modelA && models[v].modelId == p.modelB;
  }

  /** The scenario of a match: the scenarios in turn, one a round; a Swiss opening plays the first. */
  predicate PlaysScheduledScenario(input: PlanInput, p: Pairing)
    requires |input.scenarios| > 0 && p.roundNumber >= 1
  {
    p.scenarioId == input.scenarios[if input.mode == Swiss then 0 else (p.roundNumber - 1) % |input.scenarios|]
  }

  lemma RoundRobinContents(input: PlanInput, roster: seq<Model>, rounds: nat, i: nat)
    requires |input.scenarios| > 0 && Seats(roster, input.models) && DistinctIds(input.models)
    requires input.mode == RoundRobin && rounds < |roster| && i < |Pairings(input, roster, rounds)|
    ensures var p := Pairings(input, roster, rounds)[i];
      && 1 <= p.roundNumber <= rounds && p.skillId == input.skillId && PlaysScheduledScenario(input, p)
      && ProvidedBy(input.models, p.modelA, p.providerA) && ProvidedBy(input.models, p.modelB, p.providerB)
  {
    var p := Pairings(input, roster, rounds)[i];
    var u, v := RoundRobinFields(input, roster, rounds, i);
    FieldsProvided(input.models, p, u, v);
    PairingsPlaced(input, roster, rounds);
    assert Placed(input, roster, p, rounds);
  }

  lemma SwissContents(input: PlanInput, k: nat)
    requires ValidInput(input) && input.mode == Swiss && k < |input.models| / 2
    ensures var p := SwissPairings(input, |input.models| / 2)[k];
      && p.roundNumber == 1 && p.matchIndex == k && p.skillId == input.skillId && PlaysScheduledScenario(input, p)
      && ProvidedBy(input.models, p.modelA, p.providerA) && ProvidedBy(input.models, p.modelB, p.providerB)
  {
    SwissMatch(input, k);
    IdsDistinct(input.models);
    FieldsProvided(input.models, SwissPairing(input, k), 2 * k, 2 * k + 1);
  }

  /**
   * Every match of a produced plan is in a planned round, plays that round's scenario and the plan's skill, and is
   * filed under the providers of its two models.
   */
  lemma PlanContents(input: PlanInput, i: nat)
    requires ValidInput(input) && LegalRounds(input) && i < |ProducedPlan(input).value.pairings|
    ensures var p := ProducedPlan(input).value.pairings[i];
      && 1 <= p.roundNumber <= PlannedRounds(input) && p.skillId == input.skillId && PlaysScheduledScenario(input, p)
      && ProvidedBy(input.models, p.modelA, p.providerA) && ProvidedBy(input.models, p.modelB, p.providerB)
  {
    var rounds := PlannedRounds(input);
    LimitedKeeps(PlannedSchedule(input, rounds).pairings, input.maxMatches, i);
    if input.mode == Swiss {
      SwissContents(input, i);
    } else {
      RosterRounds(input.models);
      RosterSeats(input.models);
      IdsDistinct(input.models);
      RoundRobinContents(input, Roster(input.models), rounds, i);
    }
  }

  // ----- which scenarios are played

  ghost predicate ScenarioPlayed(ps: seq<Pairing>, scenarioId: string) {
    exists i :: 0 <= i < |ps| && ps[i].scenarioId == scenarioId
  }

  /** Under fitting byes every planned round has a match. */
  lemma RoundHasMatch(input: PlanInput, rounds: nat, r: nat) returns (k: nat)
    requires ValidInput(input) && input.mode == RoundRobin && ByesFit(input, rounds)
    requires r < rounds < |Roster(input.models)|
    ensures k < |Roster(input.models)| / 2 && !ByeTable(Roster(input.models), r, k)
  {
    var roster, odd := Roster(input.models), OddField(input.models);
    FittingByesRegular(input, rounds);
    k := if odd && TableOf(|roster|, r, |roster| - 1) == 0 then 1 else 0;
    assert ByeTable(roster, r, k) <==> odd && k == TableOf(|roster|, r, |roster| - 1);
  }

  lemma ScenarioOfRound(input: PlanInput, rounds: nat, k: nat)
    requires ValidInput(input) && input.mode == RoundRobin && ByesFit(input, rounds)
    requires k < rounds < |Roster(input.models)| && k < |input.scenarios|
    ensures ScenarioPlayed(Pairings(input, Roster(input.models), rounds), input.scenarios[k])
  {
    var table := RoundHasMatch(input, rounds, k);
    PairingsComplete(input, Roster(input.models), rounds, k, table);
    FirstRoundOfScenario(input, Roster(input.models), k, table);
    MatchPlays(Pairings(input, Roster(input.models), rounds), PairingAt(input, Roster(input.models), k, table));
  }

  lemma FirstRoundOfScenario(input: PlanInput, roster: seq<Model>, r: nat, k: nat)
    requires Even(|roster|) && r < |input.scenarios| && r < |roster| && k < |roster| / 2
    ensures PairingAt(input, roster, r, k).scenarioId == input.scenarios[r]
  {}

  lemma MatchPlays(ps: seq<Pairing>, p: Pairing)
    requires p in ps
    ensures ScenarioPlayed(ps, p.scenarioId)
  {}

  lemma PlayedInRound(input: PlanInput, k: nat)
    requires ValidInput(input) && LegalRounds(input) && input.mode == RoundRobin && k < |input.scenarios|
    requires ScenarioPlayed(ProducedPlan(input).value.pairings, input.scenarios[k])
    ensures k < PlannedRounds(input)
  {
    var ps := ProducedPlan(input).value.pairings;
    var i :| 0 <= i < |ps| && ps[i].scenarioId == input.scenarios[k];
    PlanContents(input, i);
    var r := ps[i].roundNumber - 1;
    assert r % |input.scenarios| == k;
    RemainderAtMost(r, |input.scenarios|);
  }

  lemma RemainderAtMost(r: nat, n: nat)
    requires n > 0
    ensures r % n <= r
  {}

  /**
   * A plan without a match limit plays scenario `k` exactly when it has more than `k` rounds; with enough, all of them.
   */
  lemma ScenariosPlayedExactly(input: PlanInput, k: nat)
    requires ValidInput(input) && LegalRounds(input) && input.mode == RoundRobin && input.maxMatches == None
    requires ByesFit(input, PlannedRounds(input)) && k < |input.scenarios|
    ensures ScenarioPlayed(ProducedPlan(input).value.pairings, input.scenarios[k]) <==> k < PlannedRounds(input)
  {
    RosterRounds(input.models);
    if k < PlannedRounds(input) {
      ScenarioOfRound(input, PlannedRounds(input), k);
    } else if ScenarioPlayed(ProducedPlan(input).value.pairings, input.scenarios[k]) {
      PlayedInRound(input, k);
    }
  }

  // ----- the rest of the plan

  /** The plan repeats its input: mode, names in order, scenarios, and half the field as its capacity. */
  lemma PlanRepeatsInput(input: PlanInput)
    requires ValidInput(input) && LegalRounds(input)
    ensures var plan := ProducedPlan(input).value;
      && plan.mode == input.mode && plan.scenarios == input.scenarios
      && |plan.models| == |input.models|
      && (forall x :: 0 <= x < |plan.models| ==> plan.models[x] == input.models[x].modelId)
      && plan.roundCapacity * 2 <= |input.models| < plan.roundCapacity * 2 + 2
      && (input.rounds.Some? ==> plan.plannedRounds == input.rounds.value)
      && (input.maxMatches.Some? ==> |plan.pairings| <= input.maxMatches.value)
  {}

  function PowerOfTwo(k: nat): nat {
    if k == 0 then 1 else 2 * PowerOfTwo(k - 1)
  }

  /** `Math.ceil(Math.log2(n))` is the least exponent whose power of two reaches `n`. */
  lemma {:induction false} CeilLog2IsLeast(n: nat)
    requires n >= 1
    ensures PowerOfTwo(CeilLog2(n)) >= n && (CeilLog2(n) > 0 ==> PowerOfTwo(CeilLog2(n) - 1) < n)
  {
    if n > 1 {
      CeilLog2IsLeast((n + 1) / 2);
    }
  }

  // ----- which inputs are planned, and the shape of an accepted plan

  /** At least two models and a scenario, none repeated and all of them named, and a skill. */
  ghost predicate Fieldable(input: PlanInput) {
    && |input.models| > 1 && input.scenarios != [] && Nonblank(input.skillId) && DistinctIds(input.models)
    && (forall m :: m in input.models ==> Nonblank(m.modelId) && Nonblank(m.providerId))
    && (forall s :: s in input.scenarios ==> Nonblank(s))
    && (forall i, j :: 0 <= i < j < |input.scenarios| ==> input.scenarios[i] != input.scenarios[j])
  }

  /** Every pair once in a round-robin; in a Swiss tournament one round more than halvings of the field. */
  function MostRounds(input: PlanInput): int {
    match input.mode
    case RoundRobin => if |input.models| % 2 == 0 then |input.models| - 1 else |input.models|
    case Swiss => if |input.models| > 0 then CeilLog2(|input.models|) + 1 else 0
  }

  lemma FieldableIsValid(input: PlanInput)
    ensures ValidInput(input) <==>
            Fieldable(input) && (input.maxMatches.Some? ==> 1 <= input.maxMatches.value <= 0x1F_FFFF_FFFF_FFFF)
  {
    if ValidInput(input) {
      IdsDistinct(input.models);
    }
    if Fieldable(input) {
      forall x, y | 0 <= x < y < |input.models| ensures ModelIds(input.models)[x] != ModelIds(input.models)[y] {
        assert input.models[x].modelId != input.models[y].modelId;
      }
      forall x | 0 <= x < |input.models|
        ensures Nonblank(input.models[x].modelId) && Nonblank(input.models[x].providerId)
      {
        assert input.models[x] in input.models;
      }
    }
  }

  /** A plan is made exactly for a field of models, with a sensible match limit, and as many rounds as the mode has. */
  lemma PlannedExactly(input: PlanInput)
    ensures
      ProducedPlan(input).Some? <==>
      && Fieldable(input) && (input.maxMatches.Some? ==> 1 <= input.maxMatches.value <= 0x1F_FFFF_FFFF_FFFF)
      && var rounds := if input.rounds.Some? then input.rounds.value else MostRounds(input);
         1 <= rounds <= MostRounds(input) && rounds <= 0x1F_FFFF_FFFF_FFFF
  {
    FieldableIsValid(input);
  }

  /** An accepted plan has matches, leaves the right rounds open, and has a bye a round where the field is odd. */
  lemma AcceptedShape(plan: Plan)
    requires WellFormedPlan(plan)
    ensures
      var odd, open := |plan.models| % 2 == 1, plan.unplannedRoundNumbers;
      ExpectedShape(plan) <==>
      && plan.pairings != []
      && (plan.mode == RoundRobin ==> open == [] && |plan.plannedByes| == if odd then plan.plannedRounds else 0)
      && (plan.mode == Swiss ==>
            |open| == plan.plannedRounds - 1 && (forall i :: 0 <= i < |open| ==> open[i] == i + 2) &&
            |plan.plannedByes| == if odd then 1 else 0)
  {
    if plan.mode == Swiss && |plan.unplannedRoundNumbers| == plan.plannedRounds - 1 &&
       (forall i :: 0 <= i < |plan.unplannedRoundNumbers| ==> plan.unplannedRoundNumbers[i] == i + 2)
    {
      assert plan.unplannedRoundNumbers == LaterRounds(plan.plannedRounds);
    }
  }

  /** The two models of a match. */
  function Players(p: Pairing): set<string> {
    {p.modelA, p.modelB}
  }

  lemma SamePlayersSameKey(p: Pairing, q: Pairing)
    requires Players(p) == Players(q)
    ensures PairKey(p.modelA, p.modelB) == PairKey(q.modelA, q.modelB)
  {
    assert p.modelA in Players(q) && p.modelB in Players(q) && q.modelA in Players(p) && q.modelB in Players(p);
    PairKeySymmetric(p.modelA, p.modelB);
  }

  /** The providers of two named models agree where the models do. */
  predicate OneProvider(p: Pairing, q: Pairing) {
    && (p.modelA == q.modelA ==> p.providerA == q.providerA) && (p.modelA == q.modelB ==> p.providerA == q.providerB)
    && (p.modelB == q.modelA ==> p.providerB == q.providerA) && (p.modelB == q.modelB ==> p.providerB == q.providerB)
  }

  /**
   * Whoever made it, an accepted plan has no match beyond the tables of a round or in an open one, no two matches of
   * one number in a round, no model twice in a round, no pair twice, one provider a model and one skill.
   */
  lemma AcceptedMatches(plan: Plan, i: nat, j: nat)
    requires AcceptedPlan(plan) && i < |plan.pairings| && j < |plan.pairings| && i != j
    ensures
      var p, q := plan.pairings[i], plan.pairings[j];
      && 0 <= 2 * p.matchIndex < |plan.models| && p.roundNumber !in plan.unplannedRoundNumbers
      && (p.roundNumber == q.roundNumber ==> p.matchIndex != q.matchIndex && Players(p) !! Players(q))
      && Players(p) != Players(q) && OneProvider(p, q) && p.skillId == q.skillId
  {
    var a, b := if i < j then i else j, if i < j then j else i;
    assert Compatible(plan.pairings[a], plan.pairings[b]);
    assert Admissible(plan.pairings[i], plan.unplannedRoundNumbers, |plan.models|);
    assert NormalPairing(plan.pairings[i], plan.models, plan.scenarios, plan.plannedRounds);
    if Players(plan.pairings[a]) == Players(plan.pairings[b]) {
      SamePlayersSameKey(plan.pairings[a], plan.pairings[b]);
    }
  }

  /** It gives no second bye in a round, and none to a model that plays there or in an open round. */
  lemma AcceptedByes(plan: Plan, i: nat, j: nat)
    requires AcceptedPlan(plan) && i < |plan.plannedByes| && j < |plan.plannedByes|
    ensures
      var b := plan.plannedByes[i];
      && b.modelId in plan.models && 1 <= b.roundNumber <= plan.plannedRounds
      && b.roundNumber !in plan.unplannedRoundNumbers
      && (i != j ==> b.roundNumber != plan.plannedByes[j].roundNumber)
      && forall p :: p in plan.pairings && p.roundNumber == b.roundNumber ==> b.modelId !in Players(p)
  {
    assert NormalBye(plan.plannedByes[i], plan.models, plan.plannedRounds);
  }
}
