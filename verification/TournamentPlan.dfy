/** `createTournamentPlan` and `normalizeTournamentPlan`: the producer of plans and their validator agree. */
module TournamentPlan {
  import opened Base
  import opened TournamentTypes
  import opened RoundRobin
  import opened PlanValidation

  // ----- the producer

  function ModelIds(models: seq<Model>): (ids: seq<string>)
    ensures |ids| == |models|
    ensures forall x :: 0 <= x < |models| ==> ids[x] == models[x].modelId
  {
    seq(|models|, x requires 0 <= x < |models| => models[x].modelId)
  }

  /** `validatePlanInput` */
  predicate ValidInput(input: PlanInput) {
    && |input.models| >= 2
    && (forall x :: 0 <= x < |input.models| ==>
        Nonblank(input.models[x].modelId) && Nonblank(input.models[x].providerId))
    && Distinct(ModelIds(input.models))
    && |input.scenarios| > 0
    && AllNonblank(input.scenarios)
    && Distinct(input.scenarios)
    && Nonblank(input.skillId)
    && (input.maxMatches.Some? ==> IsSafeInteger(input.maxMatches.value) && input.maxMatches.value >= 1)
  }

  /** `Math.ceil(Math.log2(n))` */
  function CeilLog2(n: nat): nat
    requires n >= 1
  {
    if n == 1 then 0 else 1 + CeilLog2((n + 1) / 2)
  }

  function MaximumRounds(mode: Mode, modelCount: nat): nat
    requires modelCount >= 2
  {
    match mode
    case RoundRobin => modelCount - 1 + modelCount % 2
    case Swiss => CeilLog2(modelCount) + 1
  }

  function SwissPairing(input: PlanInput, k: nat): Pairing
    requires 2 * k + 1 < |input.models| && |input.scenarios| > 0
  {
    CreatePairing(input.skillId, input.scenarios[0], 1, k, input.models[2 * k], input.models[2 * k + 1])
  }

  function SwissPairings(input: PlanInput, k: nat): (ps: seq<Pairing>)
    requires 2 * k <= |input.models| && |input.scenarios| > 0
    ensures |ps| == k
    ensures forall i :: 0 <= i < k ==> ps[i] == SwissPairing(input, i)
  {
    if k == 0 then [] else SwissPairings(input, k - 1) + [SwissPairing(input, k - 1)]
  }

  function LaterRounds(rounds: int): (later: seq<int>)
    ensures |later| == if rounds > 1 then rounds - 1 else 0
    ensures forall i :: 0 <= i < |later| ==> later[i] == i + 2
  {
    seq(if rounds > 1 then rounds - 1 else 0, i requires i >= 0 => i + 2)
  }

  function SwissByes(models: seq<Model>): seq<PlannedBye>
    requires |models| >= 2
  {
    if |models| % 2 != 0 then [PlannedBye(1, models[|models| - 1].modelId)] else []
  }

  /** `createSwissOpeningSchedule`: neighbours meet in round 1, an odd field sends its last model on a bye. */
  method CreateSwissOpeningSchedule(input: PlanInput, rounds: int) returns (schedule: Schedule)
    requires |input.models| >= 2 && |input.scenarios| > 0
    ensures schedule == Schedule(SwissPairings(input, |input.models| / 2), SwissByes(input.models), LaterRounds(rounds))
  {
    var participants := input.models;
    var byes: seq<PlannedBye> := [];
    if |participants| % 2 != 0 {
      var bye := participants[|participants| - 1];
      participants := participants[..|participants| - 1];
      byes := byes + [PlannedBye(1, bye.modelId)];
    }
    var scenarioId := input.scenarios[0];
    var pairings: seq<Pairing> := [];
    var index := 0;
    while index < |participants|
      invariant 0 <= index <= |participants| && index % 2 == 0
      invariant pairings == SwissPairings(input, index / 2)
    {
      var left, right := participants[index], participants[index + 1];
      pairings := pairings + [CreatePairing(input.skillId, scenarioId, 1, index / 2, left, right)];
      index := index + 2;
    }
    schedule := Schedule(pairings, byes, LaterRounds(rounds));
  }

  function PlannedSchedule(input: PlanInput, rounds: nat): Schedule
    requires |input.models| >= 2 && |input.scenarios| > 0 && rounds <= MaximumRounds(input.mode, |input.models|)
  {
    match input.mode
    case RoundRobin => Schedule(Pairings(input, Roster(input.models), rounds), Byes(Roster(input.models), rounds), [])
    case Swiss => Schedule(SwissPairings(input, |input.models| / 2), SwissByes(input.models), LaterRounds(rounds))
  }

  function Limited(pairings: seq<Pairing>, maxMatches: Option<int>): seq<Pairing>
    requires maxMatches.Some? ==> maxMatches.value >= 0
  {
    if maxMatches.Some? && maxMatches.value < |pairings| then pairings[..maxMatches.value] else pairings
  }

  function PlanOf(input: PlanInput, rounds: nat, schedule: Schedule): Plan
    requires input.maxMatches.Some? ==> input.maxMatches.value >= 0
  {
    Plan(input.mode, ModelIds(input.models), input.scenarios, |input.models| / 2, rounds,
         Limited(schedule.pairings, input.maxMatches), schedule.byes, schedule.unplannedRoundNumbers)
  }

  function PlannedRounds(input: PlanInput): int
    requires |input.models| >= 2
  {
    if input.rounds.Some? then input.rounds.value else MaximumRounds(input.mode, |input.models|)
  }

  predicate LegalRounds(input: PlanInput)
    requires |input.models| >= 2
  {
    IsSafeInteger(PlannedRounds(input)) && 1 <= PlannedRounds(input) <= MaximumRounds(input.mode, |input.models|)
  }

  /** The plan that `createTournamentPlan` returns; `None` when it throws. */
  function ProducedPlan(input: PlanInput): Option<Plan> {
    if !ValidInput(input) || !LegalRounds(input) then None
    else Some(PlanOf(input, PlannedRounds(input), PlannedSchedule(input, PlannedRounds(input))))
  }

  method CreateTournamentPlan(input: PlanInput) returns (plan: Option<Plan>)
    ensures plan == ProducedPlan(input)
  {
    if !ValidInput(input) || !LegalRounds(input) {
      return None;
    }
    var rounds := PlannedRounds(input);
    var schedule;
    if input.mode == RoundRobin {
      schedule := CreateRoundRobinSchedule(input, rounds);
    } else {
      schedule := CreateSwissOpeningSchedule(input, rounds);
    }
    plan := Some(PlanOf(input, rounds, schedule));
  }

  // ----- the validator

  /** `normalizePairing` accepts `p`. */
  predicate NormalPairing(p: Pairing, models: seq<string>, scenarios: seq<string>, plannedRounds: int) {
    && IsSafeInteger(p.roundNumber) && 1 <= p.roundNumber <= plannedRounds
    && IsSafeInteger(p.matchIndex) && p.matchIndex >= 0
    && p.scenarioId in scenarios
    && Nonblank(p.skillId)
    && p.modelA in models && p.modelB in models && p.modelA != p.modelB
    && Nonblank(p.providerA) && Nonblank(p.providerB)
  }

  /** `normalizeBye` accepts `bye`. */
  predicate NormalBye(bye: PlannedBye, models: seq<string>, plannedRounds: int) {
    IsSafeInteger(bye.roundNumber) && 1 <= bye.roundNumber <= plannedRounds && bye.modelId in models
  }

  predicate WellFormedPlan(plan: Plan) {
    && |plan.models| >= 2 && Distinct(plan.models) && AllNonblank(plan.models)
    && |plan.scenarios| > 0 && Distinct(plan.scenarios) && AllNonblank(plan.scenarios)
    && IsSafeInteger(plan.roundCapacity) && plan.roundCapacity == |plan.models| / 2
    && IsSafeInteger(plan.plannedRounds)
    && 1 <= plan.plannedRounds <= MaximumRounds(plan.mode, |plan.models|)
    && (forall i :: 0 <= i < |plan.pairings| ==>
        NormalPairing(plan.pairings[i], plan.models, plan.scenarios, plan.plannedRounds))
    && (forall i :: 0 <= i < |plan.plannedByes| ==> NormalBye(plan.plannedByes[i], plan.models, plan.plannedRounds))
  }

  function ExpectedUnplanned(plan: Plan): seq<int> {
    match plan.mode
    case Swiss => LaterRounds(plan.plannedRounds)
    case RoundRobin => []
  }

  function ExpectedByeCount(plan: Plan): int {
    match plan.mode
    case RoundRobin => if |plan.models| % 2 == 0 then 0 else plan.plannedRounds
    case Swiss => |plan.models| % 2
  }

  predicate ExpectedShape(plan: Plan) {
    && |plan.pairings| > 0
    && (forall i :: 0 <= i < |plan.unplannedRoundNumbers| ==>
          IsSafeInteger(plan.unplannedRoundNumbers[i]) && 1 <= plan.unplannedRoundNumbers[i] <= plan.plannedRounds)
    && plan.unplannedRoundNumbers == ExpectedUnplanned(plan)
    && |plan.plannedByes| == ExpectedByeCount(plan)
  }

  /** `normalizeTournamentPlan` returns the plan unchanged exactly on these plans, and throws on the others. */
  ghost predicate AcceptedPlan(plan: Plan) {
    && WellFormedPlan(plan)
    && ExpectedShape(plan)
    && PairingsConsistent(plan.pairings, plan.unplannedRoundNumbers, |plan.models|)
    && ByesConsistent(plan.plannedByes, plan.pairings, plan.unplannedRoundNumbers)
  }

  method NormalizeTournamentPlan(plan: Plan) returns (normalized: Option<Plan>)
    ensures normalized == if AcceptedPlan(plan) then Some(plan) else None
  {
    if !WellFormedPlan(plan) || !ExpectedShape(plan) {
      return None;
    }
    var ok := ValidatePlanSchedule(plan.pairings, plan.plannedByes, plan.unplannedRoundNumbers, |plan.models|);
    normalized := if ok then Some(plan) else None;
  }
}
