/** Tournament plans: the entities, and the round-robin schedule as a table of seats. */
module TournamentTypes {
  import opened Base

  datatype Mode = RoundRobin | Swiss

  datatype Model = Model(modelId: string, providerId: string)

  datatype Pairing = Pairing(roundNumber: int, matchIndex: int, scenarioId: string, skillId: string,
                             modelA: string, modelB: string, providerA: string, providerB: string)

  datatype PlannedBye = PlannedBye(roundNumber: int, modelId: string)

  datatype Schedule = Schedule(pairings: seq<Pairing>, byes: seq<PlannedBye>, unplannedRoundNumbers: seq<int>)

  datatype PlanInput = PlanInput(mode: Mode, models: seq<Model>, scenarios: seq<string>, skillId: string,
                                 rounds: Option<int>, maxMatches: Option<int>)

  datatype Plan = Plan(mode: Mode, models: seq<string>, scenarios: seq<string>, roundCapacity: int,
                       plannedRounds: int, pairings: seq<Pairing>, plannedByes: seq<PlannedBye>,
                       unplannedRoundNumbers: seq<int>)

  function CreatePairing(skillId: string, scenarioId: string, roundNumber: int, matchIndex: int,
                         left: Model, right: Model): Pairing
  {
    Pairing(roundNumber, matchIndex, scenarioId, skillId,
            left.modelId, right.modelId, left.providerId, right.providerId)
  }

  /** `p` is a match of `id` in `round`. */
  predicate Plays(p: Pairing, round: int, id: string) {
    p.roundNumber == round && (p.modelA == id || p.modelB == id)
  }
}

module RoundRobin {
  import opened CircleMethod
  import opened TournamentTypes

  const BYE_ID: string := "__BYE__"

  ghost predicate DistinctIds(models: seq<Model>) {
    forall x, y :: 0 <= x < y < |models| ==> models[x].modelId != models[y].modelId
  }

  predicate NoByeModel(models: seq<Model>) {
    forall x :: 0 <= x < |models| ==> models[x].modelId != BYE_ID
  }

  function Roster(models: seq<Model>): (roster: seq<Model>)
    requires |models| >= 2
    ensures Even(|roster|) && models <= roster
  {
    if |models| % 2 != 0 then models + [Model(BYE_ID, "diagnostic")] else models
  }

  function LeftAt(roster: seq<Model>, r: nat, k: nat): Model
    requires Even(|roster|) && r < |roster| && k < |roster| / 2
  {
    roster[Seat(|roster|, r, k)]
  }

  function RightAt(roster: seq<Model>, r: nat, k: nat): Model
    requires Even(|roster|) && r < |roster| && k < |roster| / 2
  {
    roster[Seat(|roster|, r, |roster| - 1 - k)]
  }

  predicate ByeTable(roster: seq<Model>, r: nat, k: nat)
    requires Even(|roster|) && r < |roster| && k < |roster| / 2
  {
    LeftAt(roster, r, k).modelId == BYE_ID || RightAt(roster, r, k).modelId == BYE_ID
  }

  function ScenarioAt(input: PlanInput, r: nat): string
    requires |input.scenarios| > 0
  {
    input.scenarios[r % |input.scenarios|]
  }

  function PairingAt(input: PlanInput, roster: seq<Model>, r: nat, k: nat): Pairing
    requires |input.scenarios| > 0 && Even(|roster|) && r < |roster| && k < |roster| / 2
  {
    CreatePairing(input.skillId, ScenarioAt(input, r), r + 1, k, LeftAt(roster, r, k), RightAt(roster, r, k))
  }

  function ByeAt(roster: seq<Model>, r: nat, k: nat): PlannedBye
    requires Even(|roster|) && r < |roster| && k < |roster| / 2
  {
    PlannedBye(r + 1, if LeftAt(roster, r, k).modelId == BYE_ID then RightAt(roster, r, k).modelId
                      else LeftAt(roster, r, k).modelId)
  }

  /** The pairings of the first `k` tables of round `r`. */
  function TablePairings(input: PlanInput, roster: seq<Model>, r: nat, k: nat): seq<Pairing>
    requires |input.scenarios| > 0 && Even(|roster|) && r < |roster| && k <= |roster| / 2
  {
    if k == 0 then []
    else if ByeTable(roster, r, k - 1) then TablePairings(input, roster, r, k - 1)
    else TablePairings(input, roster, r, k - 1) + [PairingAt(input, roster, r, k - 1)]
  }

  /** The byes of the first `k` tables of round `r`. */
  function TableByes(roster: seq<Model>, r: nat, k: nat): seq<PlannedBye>
    requires Even(|roster|) && r < |roster| && k <= |roster| / 2
  {
    if k == 0 then []
    else if ByeTable(roster, r, k - 1) then TableByes(roster, r, k - 1) + [ByeAt(roster, r, k - 1)]
    else TableByes(roster, r, k - 1)
  }

  function Pairings(input: PlanInput, roster: seq<Model>, rounds: nat): seq<Pairing>
    requires |input.scenarios| > 0 && Even(|roster|) && rounds < |roster|
  {
    if rounds == 0 then []
    else Pairings(input, roster, rounds - 1) + TablePairings(input, roster, rounds - 1, |roster| / 2)
  }

  function Byes(roster: seq<Model>, rounds: nat): seq<PlannedBye>
    requires Even(|roster|) && rounds < |roster|
  {
    if rounds == 0 then [] else Byes(roster, rounds - 1) + TableByes(roster, rounds - 1, |roster| / 2)
  }

  lemma RotationEnds(roster: seq<Model>, r: nat, k: nat)
    requires Even(|roster|) && r < |roster| && k < |roster| / 2
    ensures Rotation(roster, r)[k] == LeftAt(roster, r, k)
    ensures Rotation(roster, r)[|roster| - 1 - k] == RightAt(roster, r, k)
  {}

  /** One round of `createRoundRobinSchedule`: the roster is read off from both ends. */
  method PlayRound(input: PlanInput, ghost roster: seq<Model>, rotation: seq<Model>, roundIndex: nat)
    returns (pairings: seq<Pairing>, byes: seq<PlannedBye>)
    requires |input.scenarios| > 0 && Even(|roster|) && roundIndex < |roster|
    requires rotation == Rotation(roster, roundIndex)
    ensures pairings == TablePairings(input, roster, roundIndex, |roster| / 2)
    ensures byes == TableByes(roster, roundIndex, |roster| / 2)
  {
    pairings, byes := [], [];
    var scenarioId := input.scenarios[roundIndex % |input.scenarios|];
    var half := |rotation| / 2;
    for matchIndex := 0 to half
      invariant pairings == TablePairings(input, roster, roundIndex, matchIndex)
      invariant byes == TableByes(roster, roundIndex, matchIndex)
    {
      var left, right := rotation[matchIndex], rotation[|rotation| - 1 - matchIndex];
      RotationEnds(roster, roundIndex, matchIndex);
      if left.modelId == BYE_ID || right.modelId == BYE_ID {
        var active := if left.modelId == BYE_ID then right else left;
        byes := byes + [PlannedBye(roundIndex + 1, active.modelId)];
      } else {
        pairings := pairings + [CreatePairing(input.skillId, scenarioId, roundIndex + 1, matchIndex, left, right)];
      }
    }
  }

  /** `rotation.splice(0, rotation.length, fixed, last, ...moving)` */
  method Splice(rotation: seq<Model>) returns (spliced: seq<Model>)
    requires |rotation| >= 2
    ensures spliced == Rotate(rotation)
  {
    var fixed := rotation[0];
    var moving := rotation[1..];
    var last := moving[|moving| - 1];
    moving := moving[..|moving| - 1];
    spliced := [fixed, last] + moving;
  }

  /** `createRoundRobinSchedule`: one roster rotated in place, round after round. */
  method CreateRoundRobinSchedule(input: PlanInput, rounds: nat) returns (schedule: Schedule)
    requires |input.models| >= 2 && |input.scenarios| > 0 && rounds < |Roster(input.models)|
    ensures schedule == Schedule(Pairings(input, Roster(input.models), rounds), Byes(Roster(input.models), rounds), [])
  {
    var rotation := input.models;
    if |rotation| % 2 != 0 {
      rotation := rotation + [Model(BYE_ID, "diagnostic")];
    }
    assert rotation == Roster(input.models);
    schedule := RotateThrough(input, rotation, rounds);
  }

  /** The loop over the rounds. */
  method RotateThrough(input: PlanInput, roster: seq<Model>, rounds: nat) returns (schedule: Schedule)
    requires |input.scenarios| > 0 && Even(|roster|) && rounds < |roster|
    ensures schedule == Schedule(Pairings(input, roster, rounds), Byes(roster, rounds), [])
  {
    var rotation := roster;
    var pairings: seq<Pairing>, byes: seq<PlannedBye> := [], [];
    for roundIndex := 0 to rounds
      invariant rotation == RotateTimes(roster, roundIndex)
      invariant pairings == Pairings(input, roster, roundIndex)
      invariant byes == Byes(roster, roundIndex)
    {
      RotationClosedForm(roster, roundIndex);
      var roundPairings, roundByes := PlayRound(input, roster, rotation, roundIndex);
      pairings, byes := pairings + roundPairings, byes + roundByes;
      rotation := Splice(rotation);
    }
    schedule := Schedule(pairings, byes, []);
  }

  // ----- where the entries of the schedule come from

  /** Table `(r, k)` is laid before table `(r', k')`. */
  predicate Earlier(r: int, k: int, r': int, k': int) {
    r < r' || (r == r' && k < k')
  }

  /** `p` is the pairing of its own table, in one of the first `rounds` rounds. */
  ghost predicate Placed(input: PlanInput, roster: seq<Model>, p: Pairing, rounds: nat)
    requires |input.scenarios| > 0 && Even(|roster|) && rounds < |roster|
  {
    && 1 <= p.roundNumber <= rounds && 0 <= p.matchIndex < |roster| / 2
    && !ByeTable(roster, p.roundNumber - 1, p.matchIndex)
    && p == PairingAt(input, roster, p.roundNumber - 1, p.matchIndex)
  }

  ghost predicate InOrder(ps: seq<Pairing>) {
    forall i, j :: 0 <= i < j < |ps| ==>
      Earlier(ps[i].roundNumber, ps[i].matchIndex, ps[j].roundNumber, ps[j].matchIndex)
  }

  /** The pairings of the first `k` tables of round `r`, in order. */
  ghost predicate RoundPlaced(input: PlanInput, roster: seq<Model>, ps: seq<Pairing>, r: nat, k: nat)
    requires |input.scenarios| > 0 && Even(|roster|) && r + 1 < |roster|
  {
    && (forall i :: 0 <= i < |ps| ==>
        Placed(input, roster, ps[i], r + 1) && ps[i].roundNumber == r + 1 && ps[i].matchIndex < k)
    && InOrder(ps)
  }

  lemma {:induction false} TablePairingsPlaced(input: PlanInput, roster: seq<Model>, r: nat, k: nat)
    requires |input.scenarios| > 0 && Even(|roster|) && r + 1 < |roster| && k <= |roster| / 2
    ensures RoundPlaced(input, roster, TablePairings(input, roster, r, k), r, k)
  {
    if k > 0 {
      TablePairingsPlaced(input, roster, r, k - 1);
      if !ByeTable(roster, r, k - 1) {
        assert Placed(input, roster, PairingAt(input, roster, r, k - 1), r + 1);
      }
    }
  }

  lemma PlacedConcatenation(input: PlanInput, roster: seq<Model>, before: seq<Pairing>, last: seq<Pairing>, rounds: nat)
    requires |input.scenarios| > 0 && Even(|roster|) && 0 < rounds < |roster|
    requires forall i :: 0 <= i < |before| ==> Placed(input, roster, before[i], rounds - 1)
    requires InOrder(before) && RoundPlaced(input, roster, last, rounds - 1, |roster| / 2)
    ensures forall i :: 0 <= i < |before + last| ==> Placed(input, roster, (before + last)[i], rounds)
    ensures InOrder(before + last)
  {}

  /** Every pairing is that of its own table, and tables are laid in order. */
  lemma {:induction false} PairingsPlaced(input: PlanInput, roster: seq<Model>, rounds: nat)
    requires |input.scenarios| > 0 && Even(|roster|) && rounds < |roster|
    ensures forall i :: 0 <= i < |Pairings(input, roster, rounds)| ==>
            Placed(input, roster, Pairings(input, roster, rounds)[i], rounds)
    ensures InOrder(Pairings(input, roster, rounds))
  {
    if rounds > 0 {
      PairingsPlaced(input, roster, rounds - 1);
      TablePairingsPlaced(input, roster, rounds - 1, |roster| / 2);
      PlacedConcatenation(input, roster, Pairings(input, roster, rounds - 1),
                          TablePairings(input, roster, rounds - 1, |roster| / 2), rounds);
    }
  }

  lemma {:induction false} TablePairingsComplete(input: PlanInput, roster: seq<Model>, r: nat, k: nat, k': nat)
    requires |input.scenarios| > 0 && Even(|roster|) && r < |roster| && k <= |roster| / 2
    requires k' < k && !ByeTable(roster, r, k')
    ensures PairingAt(input, roster, r, k') in TablePairings(input, roster, r, k)
  {
    if k' < k - 1 {
      TablePairingsComplete(input, roster, r, k - 1, k');
    }
  }

  /** No table without a bye is left out. */
  lemma {:induction false} PairingsComplete(input: PlanInput, roster: seq<Model>, rounds: nat, r: nat, k: nat)
    requires |input.scenarios| > 0 && Even(|roster|) && rounds < |roster|
    requires r < rounds && k < |roster| / 2 && !ByeTable(roster, r, k)
    ensures PairingAt(input, roster, r, k) in Pairings(input, roster, rounds)
  {
    var before, last := Pairings(input, roster, rounds - 1), TablePairings(input, roster, rounds - 1, |roster| / 2);
    if r < rounds - 1 {
      PairingsComplete(input, roster, rounds - 1, r, k);
    } else {
      TablePairingsComplete(input, roster, r, |roster| / 2, k);
    }
    InConcatenation(before, last, PairingAt(input, roster, r, k));
  }

  lemma InConcatenation<T>(a: seq<T>, b: seq<T>, x: T)
    requires x in a || x in b
    ensures x in a + b
  {}
}
