/** Every produced plan is accepted by the validator, or it collides in exactly the ways stated here. */
module TournamentAgreement {
  import opened Base
  import opened Keys
  import opened CircleMethod
  import opened TournamentTypes
  import opened RoundRobin
  import opened RoundRobinTheorems
  import opened PlanValidation
  import opened TournamentPlan

  ghost predicate DistinctPairKeys(ps: seq<Pairing>) {
    forall i, j :: 0 <= i < j < |ps| ==> PairKey(ps[i].modelA, ps[i].modelB) != PairKey(ps[j].modelA, ps[j].modelB)
  }

  /** Compatible in everything but the pair key. */
  predicate Harmonious(p: Pairing, q: Pairing) {
    && !(p.roundNumber == q.roundNumber && p.matchIndex == q.matchIndex)
    && !(p.roundNumber == q.roundNumber && SharePlayer(p, q))
    && ProvidersAgree(p, q)
    && p.skillId == q.skillId
  }

  /** The two models of a pairing, by their place in the field. */
  ghost predicate Fields(p: Pairing, models: seq<Model>, u: nat, v: nat) {
    && u < |models| && v < |models| && u != v
    && p.modelA == models[u].modelId && p.providerA == models[u].providerId
    && p.modelB == models[v].modelId && p.providerB == models[v].providerId
  }

  /** Everything the validator asks of one pairing, and of two, except the pair key. */
  ghost predicate Orderly(ps: seq<Pairing>, input: PlanInput, rounds: nat)
    requires |input.models| >= 2
  {
    && (forall i :: 0 <= i < |ps| ==>
          NormalPairing(ps[i], ModelIds(input.models), input.scenarios, rounds) &&
          Admissible(ps[i], ExpectedLater(input, rounds), |input.models|))
    && (forall i, j :: 0 <= i < j < |ps| ==> Harmonious(ps[i], ps[j]))
  }

  function ExpectedLater(input: PlanInput, rounds: nat): seq<int> {
    if input.mode == Swiss then LaterRounds(rounds) else []
  }

  lemma IdsDistinct(models: seq<Model>)
    requires Distinct(ModelIds(models))
    ensures DistinctIds(models)
  {
    forall x, y | 0 <= x < y < |models|
      ensures models[x].modelId != models[y].modelId
    {
      assert ModelIds(models)[x] != ModelIds(models)[y];
    }
  }

  lemma FieldsHarmonious(models: seq<Model>, p: Pairing, q: Pairing, u: nat, v: nat, u': nat, v': nat)
    requires DistinctIds(models) && Fields(p, models, u, v) && Fields(q, models, u', v') && p.skillId == q.skillId
    requires p.roundNumber == q.roundNumber ==> p.matchIndex != q.matchIndex && u != u' && u != v' && v != u' && v != v'
    ensures Harmonious(p, q)
  {}

  // ----- round-robin pairings

  /** A roster is the field, with at most the sentinel after it. */
  ghost predicate Seats(roster: seq<Model>, models: seq<Model>) {
    Even(|roster|) && models <= roster && forall x :: |models| <= x < |roster| ==> roster[x].modelId == BYE_ID
  }

  lemma RosterSeats(models: seq<Model>)
    requires |models| >= 2
    ensures Seats(Roster(models), models)
  {}

  /** The seats of a pairing belong to models: the sentinel never plays. */
  lemma RoundRobinFields(input: PlanInput, roster: seq<Model>, rounds: nat, i: nat) returns (u: nat, v: nat)
    requires Seats(roster, input.models) && |input.scenarios| > 0 && rounds < |roster|
    requires i < |Pairings(input, roster, rounds)|
    ensures var p, m := Pairings(input, roster, rounds)[i], |roster|;
      && 1 <= p.roundNumber <= rounds && 0 <= p.matchIndex < m / 2
      && u == Seat(m, p.roundNumber - 1, p.matchIndex) && v == Seat(m, p.roundNumber - 1, m - 1 - p.matchIndex)
      && Fields(p, input.models, u, v) && p.skillId == input.skillId && p.scenarioId in input.scenarios
  {
    u, v := PairingSeats(input, roster, rounds, i);
  }

  lemma RoundRobinNormal(input: PlanInput, rounds: nat, i: nat)
    requires ValidInput(input) && |input.models| <= MAX_ARRAY_LENGTH
    requires rounds < |Roster(input.models)| && i < |Pairings(input, Roster(input.models), rounds)|
    ensures NormalPairing(Pairings(input, Roster(input.models), rounds)[i], ModelIds(input.models), input.scenarios,
                          rounds)
    ensures Admissible(Pairings(input, Roster(input.models), rounds)[i], [], |input.models|)
  {
    var p := Pairings(input, Roster(input.models), rounds)[i];
    RosterSeats(input.models);
    var u, v := RoundRobinFields(input, Roster(input.models), rounds, i);
    IdsDistinct(input.models);
    FieldsNormal(input, p, u, v);
  }

  lemma FieldsNormal(input: PlanInput, p: Pairing, u: nat, v: nat)
    requires ValidInput(input) && DistinctIds(input.models) && Fields(p, input.models, u, v)
    ensures p.modelA in ModelIds(input.models) && p.modelB in ModelIds(input.models) && p.modelA != p.modelB
    ensures Nonblank(p.providerA) && Nonblank(p.providerB)
  {
    var ids := ModelIds(input.models);
    assert ids[u] == p.modelA && ids[v] == p.modelB;
  }

  lemma RoundRobinHarmonious(input: PlanInput, roster: seq<Model>, rounds: nat, i: nat, j: nat)
    requires Seats(roster, input.models) && |input.scenarios| > 0 && rounds < |roster|
    requires i < j < |Pairings(input, roster, rounds)|
    requires DistinctIds(input.models)
    ensures Harmonious(Pairings(input, roster, rounds)[i], Pairings(input, roster, rounds)[j])
  {
    var p, q := Pairings(input, roster, rounds)[i], Pairings(input, roster, rounds)[j];
    var u, v := RoundRobinFields(input, roster, rounds, i);
    var u', v' := RoundRobinFields(input, roster, rounds, j);
    RoundRobinTables(input, roster, rounds, i, j);
    if p.roundNumber == q.roundNumber {
      SeatsDisjoint(|roster|, p.roundNumber - 1, p.matchIndex, q.matchIndex, u, v, u', v');
    }
    FieldsHarmonious(input.models, p, q, u, v, u', v');
  }

  lemma SeatsDisjoint(m: nat, r: nat, k: nat, k': nat, u: nat, v: nat, u': nat, v': nat)
    requires Even(m) && r < m && k < m / 2 && k' < m / 2 && k != k'
    requires u == Seat(m, r, k) && v == Seat(m, r, m - 1 - k) && u' == Seat(m, r, k') && v' == Seat(m, r, m - 1 - k')
    ensures u != u' && u != v' && v != u' && v != v'
  {
    TablesDisjoint(m, r, k, k');
  }

  lemma RoundRobinTables(input: PlanInput, roster: seq<Model>, rounds: nat, i: nat, j: nat)
    requires Even(|roster|) && |input.scenarios| > 0 && rounds < |roster| && i < j < |Pairings(input, roster, rounds)|
    ensures Pairings(input, roster, rounds)[i].roundNumber != Pairings(input, roster, rounds)[j].roundNumber ||
            Pairings(input, roster, rounds)[i].matchIndex != Pairings(input, roster, rounds)[j].matchIndex
  {
    PairingsPlaced(input, roster, rounds);
  }

  lemma RoundRobinOrderly(input: PlanInput, rounds: nat)
    requires ValidInput(input) && input.mode == RoundRobin && |input.models| <= MAX_ARRAY_LENGTH
    requires rounds < |Roster(input.models)|
    ensures Orderly(Pairings(input, Roster(input.models), rounds), input, rounds)
  {
    var ps := Pairings(input, Roster(input.models), rounds);
    forall i | 0 <= i < |ps|
      ensures NormalPairing(ps[i], ModelIds(input.models), input.scenarios, rounds)
      ensures Admissible(ps[i], [], |input.models|)
    {
      RoundRobinNormal(input, rounds, i);
    }
    forall i, j | 0 <= i < j < |ps|
      ensures Harmonious(ps[i], ps[j])
    {
      IdsDistinct(input.models);
      RosterSeats(input.models);
      RoundRobinHarmonious(input, Roster(input.models), rounds, i, j);
    }
  }

  // ----- Swiss pairings

  lemma SwissNormal(input: PlanInput, rounds: nat, i: nat)
    requires ValidInput(input) && |input.models| <= MAX_ARRAY_LENGTH && rounds >= 1 && i < |input.models| / 2
    ensures NormalPairing(SwissPairing(input, i), ModelIds(input.models), input.scenarios, rounds)
    ensures Admissible(SwissPairing(input, i), LaterRounds(rounds), |input.models|)
  {
    var ids, p := ModelIds(input.models), SwissPairing(input, i);
    IdsDistinct(input.models);
    assert ids[2 * i] == p.modelA && ids[2 * i + 1] == p.modelB;
    assert input.models[2 * i].modelId != input.models[2 * i + 1].modelId;
  }

  lemma SwissHarmonious(input: PlanInput, i: nat, j: nat)
    requires ValidInput(input) && i < j < |input.models| / 2
    ensures Harmonious(SwissPairing(input, i), SwissPairing(input, j))
  {
    IdsDistinct(input.models);
    var p, q := SwissPairing(input, i), SwissPairing(input, j);
    assert Fields(p, input.models, 2 * i, 2 * i + 1);
    assert Fields(q, input.models, 2 * j, 2 * j + 1);
    FieldsHarmonious(input.models, p, q, 2 * i, 2 * i + 1, 2 * j, 2 * j + 1);
  }

  lemma SwissOrderly(input: PlanInput, rounds: nat)
    requires ValidInput(input) && input.mode == Swiss && |input.models| <= MAX_ARRAY_LENGTH && rounds >= 1
    ensures Orderly(SwissPairings(input, |input.models| / 2), input, rounds)
  {
    var ps := SwissPairings(input, |input.models| / 2);
    forall i | 0 <= i < |ps|
      ensures NormalPairing(ps[i], ModelIds(input.models), input.scenarios, rounds)
      ensures Admissible(ps[i], LaterRounds(rounds), |input.models|)
    {
      SwissNormal(input, rounds, i);
    }
    forall i, j | 0 <= i < j < |ps|
      ensures Harmonious(ps[i], ps[j])
    {
      SwissHarmonious(input, i, j);
    }
  }

  /** Round 1 of a Swiss plan serves every model exactly once. */
  lemma SwissServesOnce(input: PlanInput, x: nat)
    requires ValidInput(input) && x < |input.models|
    ensures ServedOnce(SwissPairings(input, |input.models| / 2), SwissByes(input.models), 1, input.models[x].modelId)
  {
    var ps, bs, a := SwissPairings(input, |input.models| / 2), SwissByes(input.models), input.models[x].modelId;
    IdsDistinct(input.models);
    forall i | 0 <= i < |ps|
      ensures Plays(ps[i], 1, a) <==> i == x / 2
    {
      assert ps[i] == SwissPairing(input, i);
    }
    if x / 2 < |ps| {
      assert Plays(ps[x / 2], 1, a);
      ServedByMatch(ps, bs, 1, a);
    } else {
      assert bs[0] == PlannedBye(1, a);
      ServedByBye(ps, bs, 1, a);
    }
  }

  // ----- byes

  function ByeTarget(input: PlanInput, rounds: nat): nat {
    if input.mode == Swiss then |input.models| % 2 else if |input.models| % 2 == 0 then 0 else rounds
  }

  /** The bye list of a plan passes the validator. */
  ghost predicate ByesPass(byes: seq<PlannedBye>, pairings: seq<Pairing>, input: PlanInput, rounds: nat)
    requires |input.models| >= 2
  {
    && (forall i :: 0 <= i < |byes| ==> NormalBye(byes[i], ModelIds(input.models), rounds))
    && |byes| == ByeTarget(input, rounds)
    && ByesConsistent(byes, pairings, ExpectedLater(input, rounds))
  }

  lemma SwissByesPass(input: PlanInput, rounds: nat)
    requires ValidInput(input) && input.mode == Swiss && rounds >= 1
    ensures ByesPass(SwissByes(input.models), SwissPairings(input, |input.models| / 2), input, rounds)
  {
    var n, ps, bs := |input.models|, SwissPairings(input, |input.models| / 2), SwissByes(input.models);
    IdsDistinct(input.models);
    if n % 2 == 1 {
      assert ModelIds(input.models)[n - 1] == bs[0].modelId;
      forall j | 0 <= j < |ps|
        ensures !Plays(ps[j], 1, bs[0].modelId)
      {
        assert ps[j] == SwissPairing(input, j);
      }
    }
  }

  lemma SentinelByesPass(input: PlanInput, rounds: nat)
    requires ValidInput(input) && input.mode == RoundRobin && |input.models| <= MAX_ARRAY_LENGTH
    requires NoByeModel(input.models) && |input.models| % 2 == 1 && rounds < |Roster(input.models)|
    ensures ByesPass(Byes(Roster(input.models), rounds), Pairings(input, Roster(input.models), rounds), input, rounds)
  {
    var n, roster := |input.models|, Roster(input.models);
    IdsDistinct(input.models);
    RosterIdsDistinct(input.models);
    SentinelGivesByes(roster, n, rounds);
    var bs, ps := SentinelByes(roster, n, rounds), Pairings(input, roster, rounds);
    SentinelByesConsistent(input, roster, rounds, n);
    forall i | 0 <= i < |bs|
      ensures NormalBye(bs[i], ModelIds(input.models), rounds)
    {
      assert ModelIds(input.models)[Opponent(|roster|, i, n)] == bs[i].modelId;
    }
  }

  lemma SentinelByesConsistent(input: PlanInput, roster: seq<Model>, rounds: nat, s: nat)
    requires |input.scenarios| > 0 && Even(|roster|) && rounds < |roster| && DistinctIds(roster) && s == |roster| - 1
    requires roster[s].modelId == BYE_ID
    ensures ByesConsistent(SentinelByes(roster, s, rounds), Pairings(input, roster, rounds), [])
    ensures forall i :: 0 <= i < rounds ==> Opponent(|roster|, i, s) < s
  {
    var bs, ps := SentinelByes(roster, s, rounds), Pairings(input, roster, rounds);
    forall i | 0 <= i < |bs|
      ensures bs[i] == SentinelBye(roster, s, i) && Opponent(|roster|, i, s) < s
      ensures forall j :: 0 <= j < |ps| ==> !Plays(ps[j], bs[i].roundNumber, bs[i].modelId)
    {
      SentinelByeFree(input, roster, rounds, s, i);
    }
  }

  /** Whoever has the bye of round `i + 1` has no match in that round. */
  lemma SentinelByeFree(input: PlanInput, roster: seq<Model>, rounds: nat, s: nat, i: nat)
    requires |input.scenarios| > 0 && Even(|roster|) && i < rounds < |roster| && DistinctIds(roster)
    requires s == |roster| - 1
    requires roster[s].modelId == BYE_ID
    ensures Opponent(|roster|, i, s) < s
    ensures forall j :: 0 <= j < |Pairings(input, roster, rounds)| ==>
              !Plays(Pairings(input, roster, rounds)[j], i + 1, SentinelBye(roster, s, i).modelId)
  {
    var ps, x := Pairings(input, roster, rounds), Opponent(|roster|, i, s);
    TableSeats(|roster|, i, s);
    OpponentMeetingRound(|roster|, i, x, s);
    UnmatchedWithSentinel(input, roster, rounds, i, x);
    forall j | 0 <= j < |ps|
      ensures !Plays(ps[j], i + 1, roster[x].modelId)
    {
      assert !Plays(ps[j], i + 1, roster[x].modelId);
    }
  }

  // ----- a model that carries the sentinel's name

  lemma {:induction false} ByesGrow(roster: seq<Model>, r: nat, k: nat, k': nat)
    requires Even(|roster|) && r < |roster| && k <= k' <= |roster| / 2
    ensures |TableByes(roster, r, k)| <= |TableByes(roster, r, k')|
  {
    if k < k' {
      ByesGrow(roster, r, k, k' - 1);
    }
  }

  lemma AtLeastOneBye(roster: seq<Model>, r: nat, k: nat, k': nat)
    requires Even(|roster|) && r < |roster| && k < k' <= |roster| / 2 && ByeTable(roster, r, k)
    ensures |TableByes(roster, r, k')| >= |TableByes(roster, r, k)| + 1
  {
    assert |TableByes(roster, r, k + 1)| == |TableByes(roster, r, k)| + 1;
    ByesGrow(roster, r, k + 1, k');
  }

  lemma AtLeastTwoByes(roster: seq<Model>, r: nat, k1: nat, k2: nat)
    requires Even(|roster|) && r < |roster| && k1 < k2 < |roster| / 2
    requires ByeTable(roster, r, k1) && ByeTable(roster, r, k2)
    ensures |TableByes(roster, r, |roster| / 2)| >= 2
  {
    AtLeastOneBye(roster, r, k1, k2);
    AtLeastOneBye(roster, r, k2, |roster| / 2);
  }

  /** Every participant with the sentinel's name turns its own table into a bye. */
  lemma TableHosts(roster: seq<Model>, r: nat, x: nat)
    requires Even(|roster|) && r < |roster| && x < |roster| && roster[x].modelId == BYE_ID
    ensures ByeTable(roster, r, TableOf(|roster|, r, x))
    ensures |TableByes(roster, r, |roster| / 2)| >= 1
  {
    TableSeats(|roster|, r, x);
    AtLeastOneBye(roster, r, TableOf(|roster|, r, x), |roster| / 2);
  }

  lemma TwoNamesakes(roster: seq<Model>, r: nat, x: nat, s: nat)
    requires Even(|roster|) && r < |roster| && x < s < |roster| && Opponent(|roster|, r, x) != s
    requires roster[x].modelId == BYE_ID && roster[s].modelId == BYE_ID
    ensures |TableByes(roster, r, |roster| / 2)| >= 2
  {
    var k1, k2 := TableOf(|roster|, r, x), TableOf(|roster|, r, s);
    TableHosts(roster, r, x);
    TableHosts(roster, r, s);
    TableSeats(|roster|, r, x);
    TableSeats(|roster|, r, s);
    AtLeastTwoByes(roster, r, if k1 < k2 then k1 else k2, if k1 < k2 then k2 else k1);
  }

  lemma {:induction false} NamesakeByeCount(roster: seq<Model>, rounds: nat, x: nat, s: nat, r: nat)
    requires Even(|roster|) && rounds < |roster| && x < s < |roster| && r < |roster| && Opponent(|roster|, r, x) != s
    requires roster[x].modelId == BYE_ID && roster[s].modelId == BYE_ID
    ensures |Byes(roster, rounds)| >= rounds
    ensures r < rounds ==> |Byes(roster, rounds)| > rounds
  {
    if rounds > 0 {
      NamesakeByeCount(roster, rounds - 1, x, s, r);
      TableHosts(roster, rounds - 1, x);
      if rounds - 1 == r {
        TwoNamesakes(roster, r, x, s);
      }
    }
  }

  /** In round 1 the last participant sits opposite the first, and nobody has the same opponent in round 2. */
  lemma FirstRoundSentinel(m: nat, x: nat)
    requires Even(m) && m > 2 && x < m - 1
    ensures Opponent(m, 0, x) == m - 1 <==> x == 0
    ensures x == 0 ==> Opponent(m, 1, x) != m - 1
  {
    OpponentMeetingRound(m, 0, x, m - 1);
    OpponentMeetingRound(m, 1, x, m - 1);
  }

  /** When the sentinel's namesake opens an odd field of a one-round plan, the two cancel out in one bye. */
  ghost predicate NamesakeCancels(input: PlanInput, rounds: nat)
    requires |input.models| >= 2
  {
    |input.models| % 2 == 1 && rounds == 1 && input.models[0].modelId == BYE_ID
  }

  lemma NamesakeEven(roster: seq<Model>, rounds: nat, x: nat)
    requires Even(|roster|) && 1 <= rounds < |roster| && x < |roster| && roster[x].modelId == BYE_ID
    ensures |Byes(roster, rounds)| > 0
  {
    TableHosts(roster, rounds - 1, x);
  }

  lemma NamesakeOdd(roster: seq<Model>, rounds: nat, x: nat)
    requires Even(|roster|) && 1 <= rounds < |roster| && x < |roster| - 1 && (x == 0 ==> rounds > 1)
    requires roster[x].modelId == BYE_ID && roster[|roster| - 1].modelId == BYE_ID
    ensures |Byes(roster, rounds)| > rounds
  {
    FirstRoundSentinel(|roster|, x);
    NamesakeByeCount(roster, rounds, x, |roster| - 1, if x == 0 then 1 else 0);
  }

  lemma NamesakeTooManyByes(input: PlanInput, rounds: nat)
    requires ValidInput(input) && input.mode == RoundRobin && 1 <= rounds < |Roster(input.models)|
    requires !NoByeModel(input.models) && !NamesakeCancels(input, rounds)
    ensures |Byes(Roster(input.models), rounds)| != ByeTarget(input, rounds)
  {
    var x :| 0 <= x < |input.models| && input.models[x].modelId == BYE_ID;
    if |input.models| % 2 == 0 {
      NamesakeEven(Roster(input.models), rounds, x);
    } else {
      NamesakeOdd(Roster(input.models), rounds, x);
    }
  }

  lemma EndsCancelByes(roster: seq<Model>)
    requires Even(|roster|) && |roster| > 2
    requires forall x :: 0 <= x < |roster| ==> (roster[x].modelId == BYE_ID <==> x == 0 || x == |roster| - 1)
    ensures Byes(roster, 1) == [PlannedBye(1, BYE_ID)]
    ensures !ByeTable(roster, 0, 1)
  {
    forall k | 0 <= k < |roster| / 2
      ensures ByeTable(roster, 0, k) <==> k == 0
    {}
    OneByeTable(roster, 0, |roster| / 2, 0);
    assert Byes(roster, 1) == Byes(roster, 0) + TableByes(roster, 0, |roster| / 2);
  }

  lemma CancelRoster(models: seq<Model>)
    requires |models| >= 2 && DistinctIds(models) && |models| % 2 == 1 && models[0].modelId == BYE_ID
    ensures var roster := Roster(models);
      |roster| > 2 && forall x :: 0 <= x < |roster| ==> (roster[x].modelId == BYE_ID <==> x == 0 || x == |roster| - 1)
  {}

  lemma NamesakeCancelsPass(input: PlanInput)
    requires ValidInput(input) && input.mode == RoundRobin && NamesakeCancels(input, 1)
    ensures ByesPass(Byes(Roster(input.models), 1), Pairings(input, Roster(input.models), 1), input, 1)
  {
    var roster := Roster(input.models);
    IdsDistinct(input.models);
    CancelRoster(input.models);
    EndsCancelByes(roster);
    var ps := Pairings(input, roster, 1);
    forall j | 0 <= j < |ps|
      ensures !Plays(ps[j], 1, BYE_ID)
    {
      var _, _ := PairingSeats(input, roster, 1, j);
    }
    assert ModelIds(input.models)[0] == BYE_ID;
  }

  // ----- agreement

  /** No model is named like the sentinel, or the name does no harm. */
  ghost predicate ByesFit(input: PlanInput, rounds: nat)
    requires |input.models| >= 2
  {
    input.mode == Swiss || NoByeModel(input.models) || NamesakeCancels(input, rounds)
  }

  lemma RosterRounds(models: seq<Model>)
    requires |models| >= 2
    ensures |Roster(models)| - 1 == MaximumRounds(RoundRobin, |models|)
  {}

  lemma OpenTable(roster: seq<Model>)
    requires Even(|roster|) && DistinctIds(roster)
    requires (|roster| == 2 ==> roster[0].modelId != BYE_ID && roster[1].modelId != BYE_ID)
    ensures !ByeTable(roster, 0, 0) || (|roster| > 2 && !ByeTable(roster, 0, 1))
  {}

  lemma SomeTableOpens(input: PlanInput, rounds: nat)
    requires ValidInput(input) && input.mode == RoundRobin && 1 <= rounds < |Roster(input.models)|
    requires ByesFit(input, rounds)
    ensures |Pairings(input, Roster(input.models), rounds)| > 0
  {
    var roster := Roster(input.models);
    IdsDistinct(input.models);
    if NoByeModel(input.models) {
      RosterIdsDistinct(input.models);
      OpenTable(roster);
    } else {
      CancelRoster(input.models);
      EndsCancelByes(roster);
    }
    PairingsComplete(input, roster, rounds, 0, if ByeTable(roster, 0, 0) then 1 else 0);
  }

  lemma ScheduleOrderly(input: PlanInput, rounds: nat)
    requires ValidInput(input) && |input.models| <= MAX_ARRAY_LENGTH
    requires 1 <= rounds <= MaximumRounds(input.mode, |input.models|)
    ensures Orderly(PlannedSchedule(input, rounds).pairings, input, rounds)
  {
    if input.mode == RoundRobin {
      RosterRounds(input.models);
      RoundRobinOrderly(input, rounds);
    } else {
      SwissOrderly(input, rounds);
    }
  }

  lemma ScheduleByesPass(input: PlanInput, rounds: nat)
    requires ValidInput(input) && |input.models| <= MAX_ARRAY_LENGTH
    requires 1 <= rounds <= MaximumRounds(input.mode, |input.models|)
    ensures |PlannedSchedule(input, rounds).byes| == ByeTarget(input, rounds) ==> ByesFit(input, rounds)
    ensures ByesFit(input, rounds) ==>
              && ByesPass(PlannedSchedule(input, rounds).byes, PlannedSchedule(input, rounds).pairings, input, rounds)
              && |PlannedSchedule(input, rounds).pairings| > 0
  {
    IdsDistinct(input.models);
    if input.mode == Swiss {
      SwissByesPass(input, rounds);
    } else {
      RosterRounds(input.models);
      if !ByesFit(input, rounds) {
        NamesakeTooManyByes(input, rounds);
      } else {
        SomeTableOpens(input, rounds);
        RoundRobinByesPass(input, rounds);
      }
    }
  }

  lemma RoundRobinByesPass(input: PlanInput, rounds: nat)
    requires ValidInput(input) && input.mode == RoundRobin && |input.models| <= MAX_ARRAY_LENGTH
    requires 1 <= rounds < |Roster(input.models)| && ByesFit(input, rounds)
    ensures ByesPass(Byes(Roster(input.models), rounds), Pairings(input, Roster(input.models), rounds), input, rounds)
  {
    if !NoByeModel(input.models) {
      NamesakeCancelsPass(input);
    } else if |input.models| % 2 == 0 {
      NoSentinelNoByes(Roster(input.models), rounds);
    } else {
      SentinelByesPass(input, rounds);
    }
  }

  /** Two orderly pairings with different keys are compatible, and conversely. */
  lemma OrderlyConsistent(ps: seq<Pairing>, input: PlanInput, rounds: nat)
    requires |input.models| >= 2 && Orderly(ps, input, rounds)
    ensures PairingsConsistent(ps, ExpectedLater(input, rounds), |input.models|) <==> DistinctPairKeys(ps)
  {
    if PairingsConsistent(ps, ExpectedLater(input, rounds), |input.models|) {
      forall i, j | 0 <= i < j < |ps|
        ensures PairKey(ps[i].modelA, ps[i].modelB) != PairKey(ps[j].modelA, ps[j].modelB)
      {
        assert Compatible(ps[i], ps[j]);
      }
    } else if DistinctPairKeys(ps) {
      forall i, j | 0 <= i < j < |ps|
        ensures Compatible(ps[i], ps[j])
      {
        assert Harmonious(ps[i], ps[j]);
      }
    }
  }

  lemma LimitedPrefix(ps: seq<Pairing>, byes: seq<PlannedBye>, input: PlanInput, rounds: nat)
    requires ValidInput(input) && Orderly(ps, input, rounds)
    ensures Orderly(Limited(ps, input.maxMatches), input, rounds)
    ensures |ps| > 0 ==> |Limited(ps, input.maxMatches)| > 0
    ensures ByesPass(byes, ps, input, rounds) ==> ByesPass(byes, Limited(ps, input.maxMatches), input, rounds)
  {}

  lemma PlanShape(input: PlanInput, rounds: nat, plan: Plan)
    requires ValidInput(input) && |input.models| <= MAX_ARRAY_LENGTH && IsSafeInteger(rounds)
    requires 1 <= rounds <= MaximumRounds(input.mode, |input.models|)
    requires plan == PlanOf(input, rounds, PlannedSchedule(input, rounds))
    requires Orderly(plan.pairings, input, rounds) && |plan.pairings| > 0
    requires ByesPass(plan.plannedByes, plan.pairings, input, rounds)
    ensures WellFormedPlan(plan) && ExpectedShape(plan)
  {}

  /**
   * Producer and validator agree: the plan is accepted and returned unchanged exactly when the keys of its
   * pairings do not collide and no model carries the sentinel's name (or the name does no harm).
   */
  lemma ProducerValidatorAgree(input: PlanInput)
    requires ValidInput(input) && LegalRounds(input) && |input.models| <= MAX_ARRAY_LENGTH
    ensures AcceptedPlan(ProducedPlan(input).value) <==>
            ByesFit(input, PlannedRounds(input)) && DistinctPairKeys(ProducedPlan(input).value.pairings)
  {
    var rounds, plan := PlannedRounds(input), ProducedPlan(input).value;
    var schedule := PlannedSchedule(input, rounds);
    ScheduleOrderly(input, rounds);
    ScheduleByesPass(input, rounds);
    LimitedPrefix(schedule.pairings, schedule.byes, input, rounds);
    OrderlyConsistent(plan.pairings, input, rounds);
    if ByesFit(input, rounds) && DistinctPairKeys(plan.pairings) {
      PlanShape(input, rounds, plan);
    }
  }

  // ----- when keys collide

  ghost predicate NoSeparator(models: seq<Model>) {
    forall x :: 0 <= x < |models| ==> '/' !in models[x].modelId
  }

  lemma SwissNoRematch(input: PlanInput, i: nat, j: nat)
    requires ValidInput(input) && input.mode == Swiss && i < j < |PlannedSchedule(input, 1).pairings|
    ensures var ps := PlannedSchedule(input, 1).pairings;
      Fields(ps[i], input.models, 2 * i, 2 * i + 1) && Fields(ps[j], input.models, 2 * j, 2 * j + 1)
  {
    IdsDistinct(input.models);
    assert Fields(SwissPairing(input, i), input.models, 2 * i, 2 * i + 1);
    assert Fields(SwissPairing(input, j), input.models, 2 * j, 2 * j + 1);
  }

  lemma RoundRobinNoRematch(input: PlanInput, roster: seq<Model>, rounds: nat, i: nat, j: nat)
    returns (u: nat, v: nat, u': nat, v': nat)
    requires ValidInput(input) && input.mode == RoundRobin && roster == Roster(input.models) && 1 <= rounds < |roster|
    requires ByesFit(input, rounds) && i < j < |Pairings(input, roster, rounds)|
    ensures var ps := Pairings(input, roster, rounds);
      Fields(ps[i], input.models, u, v) && Fields(ps[j], input.models, u', v')
    ensures !(u == u' && v == v') && !(u == v' && v == u')
  {
    IdsDistinct(input.models);
    RosterSeats(input.models);
    u, v := RoundRobinFields(input, roster, rounds, i);
    u', v' := RoundRobinFields(input, roster, rounds, j);
    RoundRobinHarmonious(input, roster, rounds, i, j);
    if NoByeModel(input.models) && {u, v} == {u', v'} {
      RosterIdsDistinct(input.models);
      MatchUnique(input, roster, rounds, i, j, if u < v then u else v, if u < v then v else u);
    }
  }

  /** Two pairings of one schedule never pair the same two models. */
  lemma NoRematch(input: PlanInput, rounds: nat, i: nat, j: nat) returns (u: nat, v: nat, u': nat, v': nat)
    requires ValidInput(input) && |input.models| <= MAX_ARRAY_LENGTH
    requires 1 <= rounds <= MaximumRounds(input.mode, |input.models|)
    requires ByesFit(input, rounds) && i < j < |PlannedSchedule(input, rounds).pairings|
    ensures var ps := PlannedSchedule(input, rounds).pairings;
      Fields(ps[i], input.models, u, v) && Fields(ps[j], input.models, u', v')
    ensures !(u == u' && v == v') && !(u == v' && v == u')
  {
    if input.mode == Swiss {
      u, v, u', v' := 2 * i, 2 * i + 1, 2 * j, 2 * j + 1;
      SwissNoRematch(input, i, j);
    } else {
      RosterRounds(input.models);
      u, v, u', v' := RoundRobinNoRematch(input, Roster(input.models), rounds, i, j);
    }
  }

  /** Without a "/" in the model names every plan that fits its byes is accepted. */
  lemma NoSeparatorAccepted(input: PlanInput)
    requires ValidInput(input) && LegalRounds(input) && |input.models| <= MAX_ARRAY_LENGTH
    requires ByesFit(input, PlannedRounds(input)) && NoSeparator(input.models)
    ensures AcceptedPlan(ProducedPlan(input).value)
  {
    var rounds := PlannedRounds(input);
    var ps := PlannedSchedule(input, rounds).pairings;
    IdsDistinct(input.models);
    forall i, j | 0 <= i < j < |ps|
      ensures PairKey(ps[i].modelA, ps[i].modelB) != PairKey(ps[j].modelA, ps[j].modelB)
    {
      var u, v, u', v' := NoRematch(input, rounds, i, j);
      PairKeyInjective(ps[i].modelA, ps[i].modelB, ps[j].modelA, ps[j].modelB);
    }
    ProducerValidatorAgree(input);
  }

  /** Two different pairs of models have the same key. */
  predicate Collide(models: seq<Model>, x: int, y: int, x': int, y': int) {
    && 0 <= x < y < |models| && 0 <= x' < y' < |models| && (x, y) != (x', y')
    && PairKey(models[x].modelId, models[y].modelId) == PairKey(models[x'].modelId, models[y'].modelId)
  }

  /** What a caller can test before planning. */
  ghost predicate PairKeysInjective(models: seq<Model>) {
    forall x, y, x', y' :: !Collide(models, x, y, x', y')
  }

  lemma PairKeySymmetric(a: string, b: string)
    ensures PairKey(a, b) == PairKey(b, a)
  {
    StrLeTotal(a, b);
    if StrLe(a, b) && StrLe(b, a) {
      StrLeAntisymmetric(a, b);
    }
  }

  lemma FieldsKey(p: Pairing, models: seq<Model>, u: nat, v: nat)
    requires Fields(p, models, u, v)
    ensures PairKey(p.modelA, p.modelB) ==
            if u < v then PairKey(models[u].modelId, models[v].modelId)
              else PairKey(models[v].modelId, models[u].modelId)
  {
    PairKeySymmetric(p.modelA, p.modelB);
  }

  lemma InjectiveKeysDiffer(input: PlanInput, rounds: nat, i: nat, j: nat)
    requires ValidInput(input) && |input.models| <= MAX_ARRAY_LENGTH
    requires 1 <= rounds <= MaximumRounds(input.mode, |input.models|)
    requires ByesFit(input, rounds) && PairKeysInjective(input.models)
    requires i < j < |PlannedSchedule(input, rounds).pairings|
    ensures var ps := PlannedSchedule(input, rounds).pairings;
      PairKey(ps[i].modelA, ps[i].modelB) != PairKey(ps[j].modelA, ps[j].modelB)
  {
    var ps := PlannedSchedule(input, rounds).pairings;
    var u, v, u', v' := NoRematch(input, rounds, i, j);
    FieldsKey(ps[i], input.models, u, v);
    FieldsKey(ps[j], input.models, u', v');
    assert !Collide(input.models, if u < v then u else v, if u < v then v else u, if u' < v' then u' else v',
                    if u' < v' then v' else u');
  }

  lemma MeetingKey(input: PlanInput, x: nat, y: nat) returns (i: nat)
    requires ValidInput(input) && input.mode == RoundRobin && NoByeModel(input.models) && x < y < |input.models|
    ensures var ps := Pairings(input, Roster(input.models), |Roster(input.models)| - 1);
      i < |ps| && Meets(ps[i], input.models[x].modelId, input.models[y].modelId) &&
      PairKey(ps[i].modelA, ps[i].modelB) == PairKey(input.models[x].modelId, input.models[y].modelId)
  {
    IdsDistinct(input.models);
    MatchExists(input, Roster(input.models), |Roster(input.models)| - 1, x, y);
    var ps := Pairings(input, Roster(input.models), |Roster(input.models)| - 1);
    i :| 0 <= i < |ps| && Meets(ps[i], input.models[x].modelId, input.models[y].modelId);
    PairKeySymmetric(ps[i].modelA, ps[i].modelB);
  }

  lemma CollidingKeysMeet(input: PlanInput, x: nat, y: nat, x': nat, y': nat)
    requires ValidInput(input) && input.mode == RoundRobin && NoByeModel(input.models)
    requires Collide(input.models, x, y, x', y')
    ensures !DistinctPairKeys(Pairings(input, Roster(input.models), |Roster(input.models)| - 1))
  {
    IdsDistinct(input.models);
    var i := MeetingKey(input, x, y);
    var j := MeetingKey(input, x', y');
  }

  lemma WholeLegal(input: PlanInput)
    requires ValidInput(input) && |input.models| <= MAX_ARRAY_LENGTH && input.mode == RoundRobin
    requires input.rounds == None && input.maxMatches == None
    ensures LegalRounds(input) && PlannedRounds(input) == |Roster(input.models)| - 1
    ensures ProducedPlan(input).value.pairings == Pairings(input, Roster(input.models), |Roster(input.models)| - 1)
  {
    RosterRounds(input.models);
  }

  /** The uncut whole round-robin is accepted exactly when no two pairs of models share a key. */
  lemma WholeRoundRobinAccepted(input: PlanInput)
    requires ValidInput(input) && |input.models| <= MAX_ARRAY_LENGTH && input.mode == RoundRobin
    requires NoByeModel(input.models)
    requires input.rounds == None && input.maxMatches == None
    ensures LegalRounds(input)
    ensures AcceptedPlan(ProducedPlan(input).value) <==> PairKeysInjective(input.models)
  {
    WholeLegal(input);
    ProducerValidatorAgree(input);
    var ps := Pairings(input, Roster(input.models), |Roster(input.models)| - 1);
    if PairKeysInjective(input.models) {
      forall i, j | 0 <= i < j < |ps|
        ensures PairKey(ps[i].modelA, ps[i].modelB) != PairKey(ps[j].modelA, ps[j].modelB)
      {
        InjectiveKeysDiffer(input, PlannedRounds(input), i, j);
      }
    } else {
      var x, y, x', y' :| Collide(input.models, x, y, x', y');
      CollidingKeysMeet(input, x, y, x', y');
    }
  }

  lemma SlashedKeys(a: string, b: string, c: string)
    requires StrLe(a, b + "/" + c) && StrLe(a + "/" + b, c)
    ensures PairKey(a, b + "/" + c) == PairKey(a + "/" + b, c) && a != a + "/" + b
  {
    assert a + "/" + (b + "/" + c) == a + "/" + b + "/" + c;
    assert |a| < |a + "/" + b|;
  }

  /**
   * A separator inside model names makes a whole plan fail its own validator: with `a` and `b/c`, `a/b` and `c`
   * in one field (in sorted order within each pair) both matches are filed under the key `a/b/c`.
   */
  lemma SeparatorCollision(input: PlanInput, a: string, b: string, c: string, x: nat, y: nat, x': nat, y': nat)
    requires ValidInput(input) && |input.models| <= MAX_ARRAY_LENGTH && input.mode == RoundRobin
    requires NoByeModel(input.models)
    requires input.rounds == None && input.maxMatches == None
    requires x < y < |input.models| && x' < y' < |input.models|
    requires input.models[x].modelId == a && input.models[y].modelId == b + "/" + c && StrLe(a, b + "/" + c)
    requires input.models[x'].modelId == a + "/" + b && input.models[y'].modelId == c && StrLe(a + "/" + b, c)
    ensures LegalRounds(input) && ProducedPlan(input).Some? && !AcceptedPlan(ProducedPlan(input).value)
  {
    WholeRoundRobinAccepted(input);
    SlashedKeys(a, b, c);
    assert Collide(input.models, x, y, x', y');
  }
}
