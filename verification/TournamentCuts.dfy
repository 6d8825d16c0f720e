/** Which pairs of models a plan of any kind and length lets meet, and with it which inputs get an accepted plan. */
module TournamentCuts {
  import opened Base
  import opened Keys
  import opened CircleMethod
  import opened TournamentTypes
  import opened RoundRobin
  import opened RoundRobinTheorems
  import opened TournamentPlan
  import opened TournamentAgreement

  // ----- where a table's pairing stands in the schedule

  /** In the planned rounds exactly the last participant's table has a bye, or (in an even field) none has. */
  ghost predicate Regular(roster: seq<Model>, rounds: nat, odd: bool)
    requires Even(|roster|) && rounds < |roster|
  {
    forall r: nat, k: nat :: r < rounds && k < |roster| / 2 ==>
      (ByeTable(roster, r, k) <==> odd && k == TableOf(|roster|, r, |roster| - 1))
  }

  /** The tables with a bye among the first `k` of round `r`. */
  function ByesBefore(m: nat, odd: bool, r: nat, k: nat): (n: nat)
    requires Even(m) && r < m
    ensures n <= k
  {
    if odd && TableOf(m, r, m - 1) < k then 1 else 0
  }

  function MatchesPerRound(m: nat, odd: bool): nat
    requires Even(m)
  {
    m / 2 - if odd then 1 else 0
  }

  /** The index of table `(r, k)` among all planned matches. */
  function Place(m: nat, odd: bool, r: nat, k: nat): nat
    requires Even(m) && r < m
  {
    r * MatchesPerRound(m, odd) + (k - ByesBefore(m, odd, r, k))
  }

  lemma {:induction false} TableCount(input: PlanInput, roster: seq<Model>, rounds: nat, odd: bool, r: nat, k: nat)
    requires |input.scenarios| > 0 && Even(|roster|) && r < rounds < |roster| && k <= |roster| / 2
    requires Regular(roster, rounds, odd)
    ensures |TablePairings(input, roster, r, k)| == k - ByesBefore(|roster|, odd, r, k)
  {
    if k > 0 {
      TableCount(input, roster, rounds, odd, r, k - 1);
      assert ByeTable(roster, r, k - 1) <==> odd && k - 1 == TableOf(|roster|, r, |roster| - 1);
    }
  }

  lemma {:induction false} TablePlace(input: PlanInput, roster: seq<Model>, rounds: nat, odd: bool, r: nat, k: nat,
                                      k': nat)
    requires |input.scenarios| > 0 && Even(|roster|) && r < rounds < |roster| && k < k' <= |roster| / 2
    requires Regular(roster, rounds, odd) && !ByeTable(roster, r, k)
    ensures k - ByesBefore(|roster|, odd, r, k) < |TablePairings(input, roster, r, k')|
    ensures TablePairings(input, roster, r, k')[k - ByesBefore(|roster|, odd, r, k)] == PairingAt(input, roster, r, k)
  {
    if k == k' - 1 {
      TableCount(input, roster, rounds, odd, r, k);
    } else {
      TablePlace(input, roster, rounds, odd, r, k, k' - 1);
    }
  }

  lemma RoundCount(input: PlanInput, roster: seq<Model>, rounds: nat, odd: bool, r: nat)
    requires |input.scenarios| > 0 && Even(|roster|) && r < rounds < |roster| && Regular(roster, rounds, odd)
    ensures |TablePairings(input, roster, r, |roster| / 2)| == MatchesPerRound(|roster|, odd)
  {
    TableCount(input, roster, rounds, odd, r, |roster| / 2);
  }

  lemma OneMoreRound(r: nat, c: nat)
    ensures (r + 1) * c == r * c + c
  {}

  lemma {:induction false} ScheduleCount(input: PlanInput, roster: seq<Model>, rounds: nat, odd: bool, r: nat)
    requires |input.scenarios| > 0 && Even(|roster|) && r <= rounds < |roster| && Regular(roster, rounds, odd)
    ensures |Pairings(input, roster, r)| == r * MatchesPerRound(|roster|, odd)
  {
    if r > 0 {
      ScheduleCount(input, roster, rounds, odd, r - 1);
      RoundCount(input, roster, rounds, odd, r - 1);
      OneMoreRound(r - 1, MatchesPerRound(|roster|, odd));
    }
  }

  lemma ConcatenationAt<T>(a: seq<T>, b: seq<T>, i: nat)
    requires i < |b|
    ensures |a| + i < |a + b| && (a + b)[|a| + i] == b[i]
  {}

  ghost predicate StandsAt(ps: seq<Pairing>, i: nat, p: Pairing) {
    i < |ps| && ps[i] == p
  }

  lemma LastRoundPlace(input: PlanInput, roster: seq<Model>, rounds: nat, odd: bool, r: nat, k: nat)
    requires |input.scenarios| > 0 && Even(|roster|) && r < rounds < |roster| && k < |roster| / 2
    requires Regular(roster, rounds, odd) && !ByeTable(roster, r, k)
    ensures StandsAt(Pairings(input, roster, r + 1), Place(|roster|, odd, r, k), PairingAt(input, roster, r, k))
  {
    ScheduleCount(input, roster, rounds, odd, r);
    TablePlace(input, roster, rounds, odd, r, k, |roster| / 2);
    ConcatenationAt(Pairings(input, roster, r), TablePairings(input, roster, r, |roster| / 2),
                    k - ByesBefore(|roster|, odd, r, k));
  }

  lemma StandsInLonger(ps: seq<Pairing>, more: seq<Pairing>, i: nat, p: Pairing)
    requires StandsAt(ps, i, p)
    ensures StandsAt(ps + more, i, p)
  {}

  /** Later rounds move nothing. */
  lemma {:induction false} StandsInLaterRounds(input: PlanInput, roster: seq<Model>, r: nat, n: nat, i: nat, p: Pairing)
    requires |input.scenarios| > 0 && Even(|roster|) && r <= n < |roster| && StandsAt(Pairings(input, roster, r), i, p)
    ensures StandsAt(Pairings(input, roster, n), i, p)
  {
    if r < n {
      StandsInLaterRounds(input, roster, r, n - 1, i, p);
      StandsInLonger(Pairings(input, roster, n - 1), TablePairings(input, roster, n - 1, |roster| / 2), i, p);
    }
  }

  /** The pairing of table `(r, k)` stands at its place. */
  lemma PlaceOfTable(input: PlanInput, roster: seq<Model>, rounds: nat, odd: bool, r: nat, k: nat)
    requires |input.scenarios| > 0 && Even(|roster|) && r < rounds < |roster| && k < |roster| / 2
    requires Regular(roster, rounds, odd) && !ByeTable(roster, r, k)
    ensures StandsAt(Pairings(input, roster, rounds), Place(|roster|, odd, r, k), PairingAt(input, roster, r, k))
  {
    LastRoundPlace(input, roster, rounds, odd, r, k);
    StandsInLaterRounds(input, roster, r + 1, rounds, Place(|roster|, odd, r, k), PairingAt(input, roster, r, k));
  }

  /** Conversely, pairing `i` stands at the place of its own table. */
  lemma PlaceOfPairing(input: PlanInput, roster: seq<Model>, rounds: nat, odd: bool, i: nat)
    requires |input.scenarios| > 0 && Even(|roster|) && rounds < |roster| && Regular(roster, rounds, odd)
    requires i < |Pairings(input, roster, rounds)|
    ensures var p := Pairings(input, roster, rounds)[i];
      && 1 <= p.roundNumber <= rounds && 0 <= p.matchIndex < |roster| / 2
      && i == Place(|roster|, odd, p.roundNumber - 1, p.matchIndex)
  {
    PairingsPlaced(input, roster, rounds);
    var p := Pairings(input, roster, rounds)[i];
    assert Placed(input, roster, p, rounds);
    var j := Place(|roster|, odd, p.roundNumber - 1, p.matchIndex);
    PlaceOfTable(input, roster, rounds, odd, p.roundNumber - 1, p.matchIndex);
  }

  // ----- fields whose byes fit have regular rounds

  lemma NoSentinelRegular(roster: seq<Model>, rounds: nat)
    requires Even(|roster|) && rounds < |roster| && NoByeModel(roster)
    ensures Regular(roster, rounds, false)
  {}

  lemma SentinelRegular(roster: seq<Model>, rounds: nat)
    requires Even(|roster|) && rounds < |roster| && OnlySentinel(roster, |roster| - 1)
    ensures Regular(roster, rounds, true)
  {
    var m := |roster|;
    forall r: nat, k: nat | r < rounds && k < m / 2
      ensures ByeTable(roster, r, k) <==> k == TableOf(m, r, m - 1)
    {
      OnlyTableOf(m, r, k, m - 1);
    }
  }

  lemma CancelledRegular(roster: seq<Model>)
    requires Even(|roster|) && |roster| > 2
    requires forall x :: 0 <= x < |roster| ==> (roster[x].modelId == BYE_ID <==> x == 0 || x == |roster| - 1)
    ensures Regular(roster, 1, true)
  {}

  function OddField(models: seq<Model>): bool {
    |models| % 2 == 1
  }

  lemma FittingByesRegular(input: PlanInput, rounds: nat)
    requires ValidInput(input) && input.mode == RoundRobin && rounds < |Roster(input.models)| && ByesFit(input, rounds)
    ensures Regular(Roster(input.models), rounds, OddField(input.models))
  {
    var roster := Roster(input.models);
    IdsDistinct(input.models);
    if !NoByeModel(input.models) {
      CancelRoster(input.models);
      CancelledRegular(roster);
    } else if OddField(input.models) {
      RosterIdsDistinct(input.models);
      SentinelRegular(roster, rounds);
    } else {
      NoSentinelRegular(roster, rounds);
    }
  }

  // ----- the pairs that a plan lets meet

  /** Match `i` of the schedule is not cut off. */
  predicate Kept(maxMatches: Option<int>, i: nat) {
    maxMatches.Some? ==> i < maxMatches.value
  }

  /** Models `x` and `y` meet in round `MeetingRound`, at the table of `x`; is that match in the plan? */
  predicate RoundRobinMeets(input: PlanInput, rounds: nat, x: nat, y: nat)
    requires |input.models| >= 2 && x < y < |input.models|
  {
    var m := |Roster(input.models)|;
    var r := MeetingRound(m, x, y);
    r < rounds && Kept(input.maxMatches, Place(m, OddField(input.models), r, TableOf(m, r, x)))
  }

  /** Swiss neighbours `2k` and `2k + 1` are match `k`. */
  predicate SwissMeets(input: PlanInput, x: nat, y: nat) {
    x % 2 == 0 && y == x + 1 && Kept(input.maxMatches, x / 2)
  }

  /** What the input alone says: the plan has a match of models `x` and `y`. */
  predicate PlannedPair(input: PlanInput, rounds: nat, x: nat, y: nat)
    requires |input.models| >= 2 && x < y < |input.models|
  {
    match input.mode
    case RoundRobin => RoundRobinMeets(input, rounds, x, y)
    case Swiss => SwissMeets(input, x, y)
  }

  /** `p` is a match of models `x` and `y`. */
  ghost predicate MatchOf(p: Pairing, models: seq<Model>, x: nat, y: nat) {
    Fields(p, models, x, y) || Fields(p, models, y, x)
  }

  lemma LimitedKeeps(ps: seq<Pairing>, maxMatches: Option<int>, i: nat)
    requires maxMatches.Some? ==> maxMatches.value >= 0
    ensures i < |Limited(ps, maxMatches)| <==> i < |ps| && Kept(maxMatches, i)
    ensures i < |Limited(ps, maxMatches)| ==> Limited(ps, maxMatches)[i] == ps[i]
  {}

  lemma MeetingTableOpen(roster: seq<Model>, rounds: nat, odd: bool, x: nat, y: nat)
    requires Even(|roster|) && x < y < |roster| && rounds < |roster| && Regular(roster, rounds, odd)
    requires MeetingRound(|roster|, x, y) < rounds && (odd ==> y < |roster| - 1)
    ensures var m := |roster|; var r := MeetingRound(m, x, y); var k := TableOf(m, r, x);
      && !ByeTable(roster, r, k)
      && ((LeftAt(roster, r, k) == roster[x] && RightAt(roster, r, k) == roster[y]) ||
          (LeftAt(roster, r, k) == roster[y] && RightAt(roster, r, k) == roster[x]))
  {
    var m := |roster|;
    var r := MeetingRound(m, x, y);
    var k := TableOf(m, r, x);
    OpponentMeetingRound(m, r, x, y);
    TableSeats(m, r, x);
    OnlyTableOf(m, r, k, m - 1);
  }

  /** A planned pair has its match. */
  lemma RoundRobinMatch(input: PlanInput, rounds: nat, x: nat, y: nat) returns (i: nat)
    requires ValidInput(input) && input.mode == RoundRobin && rounds < |Roster(input.models)| && ByesFit(input, rounds)
    requires x < y < |input.models| && RoundRobinMeets(input, rounds, x, y)
    ensures var ps := Pairings(input, Roster(input.models), rounds);
      i < |ps| && Kept(input.maxMatches, i) && MatchOf(ps[i], input.models, x, y)
  {
    var roster, odd := Roster(input.models), OddField(input.models);
    var r := MeetingRound(|roster|, x, y);
    FittingByesRegular(input, rounds);
    MeetingTableOpen(roster, rounds, odd, x, y);
    i := Place(|roster|, odd, r, TableOf(|roster|, r, x));
    PlaceOfTable(input, roster, rounds, odd, r, TableOf(|roster|, r, x));
  }

  lemma OpponentsMeet(m: nat, r: nat, k: nat, x: nat, y: nat)
    requires Even(m) && r < m - 1 && k < m / 2 && x < y < m
    requires (Seat(m, r, k) == x && Seat(m, r, m - 1 - k) == y) || (Seat(m, r, k) == y && Seat(m, r, m - 1 - k) == x)
    ensures r == MeetingRound(m, x, y) && k == TableOf(m, r, x)
  {
    OpponentOf(m, r, k, x);
    OpponentMeetingRound(m, r, x, y);
  }

  /** A match of `x` and `y` is played in their meeting round and stands at its place. */
  lemma MatchPlace(input: PlanInput, roster: seq<Model>, rounds: nat, odd: bool, i: nat, x: nat, y: nat)
    requires |input.scenarios| > 0 && Even(|roster|) && rounds < |roster| && Regular(roster, rounds, odd)
    requires x < y < |roster| && i < |Pairings(input, roster, rounds)|
    requires SeatsAre(|roster|, rounds, Pairings(input, roster, rounds)[i], x, y)
    ensures var r := MeetingRound(|roster|, x, y);
      r < rounds && i == Place(|roster|, odd, r, TableOf(|roster|, r, x))
  {
    var p := Pairings(input, roster, rounds)[i];
    PlaceOfPairing(input, roster, rounds, odd, i);
    OpponentsMeet(|roster|, p.roundNumber - 1, p.matchIndex, x, y);
  }

  /** The two seats at the table of `p` are those of `x` and `y`. */
  predicate SeatsAre(m: nat, rounds: nat, p: Pairing, x: nat, y: nat)
    requires Even(m) && rounds < m
  {
    && 1 <= p.roundNumber <= rounds && 0 <= p.matchIndex < m / 2
    && (var u, v := Seat(m, p.roundNumber - 1, p.matchIndex), Seat(m, p.roundNumber - 1, m - 1 - p.matchIndex);
        (u == x && v == y) || (u == y && v == x))
  }

  /** Every match is that of a planned pair. */
  lemma RoundRobinPair(input: PlanInput, rounds: nat, i: nat) returns (x: nat, y: nat)
    requires ValidInput(input) && input.mode == RoundRobin && rounds < |Roster(input.models)| && ByesFit(input, rounds)
    requires i < |Pairings(input, Roster(input.models), rounds)| && Kept(input.maxMatches, i)
    ensures x < y < |input.models| && RoundRobinMeets(input, rounds, x, y)
    ensures MatchOf(Pairings(input, Roster(input.models), rounds)[i], input.models, x, y)
  {
    var roster := Roster(input.models);
    RosterSeats(input.models);
    var u, v := RoundRobinFields(input, roster, rounds, i);
    x, y := if u < v then u else v, if u < v then v else u;
    FittingByesRegular(input, rounds);
    MatchPlace(input, roster, rounds, OddField(input.models), i, x, y);
  }

  lemma SwissMatch(input: PlanInput, k: nat)
    requires ValidInput(input) && k < |input.models| / 2
    ensures SwissPairings(input, |input.models| / 2)[k] == SwissPairing(input, k)
    ensures Fields(SwissPairing(input, k), input.models, 2 * k, 2 * k + 1)
  {}

  lemma PlannedMatch(input: PlanInput, rounds: nat, x: nat, y: nat) returns (i: nat)
    requires ValidInput(input) && 1 <= rounds <= MaximumRounds(input.mode, |input.models|) && ByesFit(input, rounds)
    requires x < y < |input.models| && PlannedPair(input, rounds, x, y)
    ensures var ps := PlanOf(input, rounds, PlannedSchedule(input, rounds)).pairings;
      i < |ps| && MatchOf(ps[i], input.models, x, y)
  {
    if input.mode == Swiss {
      i := x / 2;
      SwissMatch(input, i);
    } else {
      RosterRounds(input.models);
      i := RoundRobinMatch(input, rounds, x, y);
    }
    LimitedKeeps(PlannedSchedule(input, rounds).pairings, input.maxMatches, i);
  }

  lemma MatchPlanned(input: PlanInput, rounds: nat, i: nat) returns (x: nat, y: nat)
    requires ValidInput(input) && 1 <= rounds <= MaximumRounds(input.mode, |input.models|) && ByesFit(input, rounds)
    requires i < |PlanOf(input, rounds, PlannedSchedule(input, rounds)).pairings|
    ensures x < y < |input.models| && PlannedPair(input, rounds, x, y)
    ensures MatchOf(PlanOf(input, rounds, PlannedSchedule(input, rounds)).pairings[i], input.models, x, y)
  {
    LimitedKeeps(PlannedSchedule(input, rounds).pairings, input.maxMatches, i);
    if input.mode == Swiss {
      x, y := 2 * i, 2 * i + 1;
      SwissMatch(input, i);
    } else {
      RosterRounds(input.models);
      x, y := RoundRobinPair(input, rounds, i);
    }
  }

  ghost predicate HasMatch(ps: seq<Pairing>, models: seq<Model>, x: nat, y: nat) {
    exists i :: 0 <= i < |ps| && MatchOf(ps[i], models, x, y)
  }

  /** The plan, cut or not, has a match of two models exactly when the input says so. */
  lemma PlannedPairsMeet(input: PlanInput, rounds: nat, x: nat, y: nat)
    requires ValidInput(input) && 1 <= rounds <= MaximumRounds(input.mode, |input.models|) && ByesFit(input, rounds)
    requires x < y < |input.models|
    ensures HasMatch(PlanOf(input, rounds, PlannedSchedule(input, rounds)).pairings, input.models, x, y) <==>
            PlannedPair(input, rounds, x, y)
  {
    var ps := PlanOf(input, rounds, PlannedSchedule(input, rounds)).pairings;
    IdsDistinct(input.models);
    if PlannedPair(input, rounds, x, y) {
      var i := PlannedMatch(input, rounds, x, y);
    }
    if HasMatch(ps, input.models, x, y) {
      var i :| 0 <= i < |ps| && MatchOf(ps[i], input.models, x, y);
      var x', y' := MatchPlanned(input, rounds, i);
      SamePair(ps[i], input.models, x, y, x', y');
    }
  }

  lemma SamePair(p: Pairing, models: seq<Model>, x: nat, y: nat, x': nat, y': nat)
    requires DistinctIds(models) && x < y && x' < y' && MatchOf(p, models, x, y) && MatchOf(p, models, x', y')
    ensures x == x' && y == y'
  {}

  // ----- the exact condition

  /** Two different pairs that the plan lets meet share a key. */
  ghost predicate PlannedCollision(input: PlanInput, rounds: nat, x: nat, y: nat, x': nat, y': nat)
    requires |input.models| >= 2
  {
    && Collide(input.models, x, y, x', y')
    && PlannedPair(input, rounds, x, y)
    && PlannedPair(input, rounds, x', y')
  }

  ghost predicate NoPlannedCollision(input: PlanInput, rounds: nat)
    requires |input.models| >= 2
  {
    forall x: nat, y: nat, x': nat, y': nat :: !PlannedCollision(input, rounds, x, y, x', y')
  }

  lemma MatchKey(p: Pairing, models: seq<Model>, x: nat, y: nat)
    requires x < y && MatchOf(p, models, x, y)
    ensures PairKey(p.modelA, p.modelB) == PairKey(models[x].modelId, models[y].modelId)
  {
    if Fields(p, models, x, y) {
      FieldsKey(p, models, x, y);
    } else {
      FieldsKey(p, models, y, x);
    }
  }

  lemma CollisionInPlan(input: PlanInput, rounds: nat, x: nat, y: nat, x': nat, y': nat)
    requires ValidInput(input) && 1 <= rounds <= MaximumRounds(input.mode, |input.models|) && ByesFit(input, rounds)
    requires PlannedCollision(input, rounds, x, y, x', y')
    ensures !DistinctPairKeys(PlanOf(input, rounds, PlannedSchedule(input, rounds)).pairings)
  {
    var ps := PlanOf(input, rounds, PlannedSchedule(input, rounds)).pairings;
    var i := PlannedMatch(input, rounds, x, y);
    var j := PlannedMatch(input, rounds, x', y');
    MatchKey(ps[i], input.models, x, y);
    MatchKey(ps[j], input.models, x', y');
    IdsDistinct(input.models);
    if i == j {
      SamePair(ps[i], input.models, x, y, x', y');
    }
    assert i < j || j < i;
  }

  lemma SameKeyCollides(input: PlanInput, rounds: nat, i: nat, j: nat)
    requires ValidInput(input) && 1 <= rounds <= MaximumRounds(input.mode, |input.models|) && ByesFit(input, rounds)
    requires |input.models| <= MAX_ARRAY_LENGTH
    requires i < j < |PlanOf(input, rounds, PlannedSchedule(input, rounds)).pairings|
    requires var ps := PlanOf(input, rounds, PlannedSchedule(input, rounds)).pairings;
      PairKey(ps[i].modelA, ps[i].modelB) == PairKey(ps[j].modelA, ps[j].modelB)
    ensures !NoPlannedCollision(input, rounds)
  {
    var all, ps := PlannedSchedule(input, rounds).pairings,
                   PlanOf(input, rounds, PlannedSchedule(input, rounds)).pairings;
    LimitedKeeps(all, input.maxMatches, i);
    LimitedKeeps(all, input.maxMatches, j);
    var x, y := MatchPlanned(input, rounds, i);
    var x', y' := MatchPlanned(input, rounds, j);
    MatchKey(ps[i], input.models, x, y);
    MatchKey(ps[j], input.models, x', y');
    var u, v, u', v' := NoRematch(input, rounds, i, j);
    IdsDistinct(input.models);
    DifferentPairs(ps[i], ps[j], input.models, x, y, x', y', u, v, u', v');
    assert PlannedCollision(input, rounds, x, y, x', y');
  }

  lemma DifferentPairs(p: Pairing, q: Pairing, models: seq<Model>, x: nat, y: nat, x': nat, y': nat,
                       u: nat, v: nat, u': nat, v': nat)
    requires DistinctIds(models) && x < y && x' < y' && MatchOf(p, models, x, y) && MatchOf(q, models, x', y')
    requires Fields(p, models, u, v) && Fields(q, models, u', v')
    requires !(u == u' && v == v') && !(u == v' && v == u')
    ensures (x, y) != (x', y')
  {
    assert MatchOf(p, models, if u < v then u else v, if u < v then v else u);
    assert MatchOf(q, models, if u' < v' then u' else v', if u' < v' then v' else u');
    SamePair(p, models, x, y, if u < v then u else v, if u < v then v else u);
    SamePair(q, models, x', y', if u' < v' then u' else v', if u' < v' then v' else u');
  }

  /**
   * What a caller can test before planning, for every mode, number of rounds and match limit: the plan is accepted
   * and returned unchanged exactly when its byes fit and no two pairs of models that it lets meet share a key.
   */
  lemma AcceptedExactly(input: PlanInput)
    requires ValidInput(input) && LegalRounds(input) && |input.models| <= MAX_ARRAY_LENGTH
    ensures AcceptedPlan(ProducedPlan(input).value) <==>
            ByesFit(input, PlannedRounds(input)) && NoPlannedCollision(input, PlannedRounds(input))
  {
    var rounds := PlannedRounds(input);
    var ps := ProducedPlan(input).value.pairings;
    ProducerValidatorAgree(input);
    if ByesFit(input, rounds) {
      if !DistinctPairKeys(ps) {
        var i, j :| 0 <= i < j < |ps| && PairKey(ps[i].modelA, ps[i].modelB) == PairKey(ps[j].modelA, ps[j].modelB);
        SameKeyCollides(input, rounds, i, j);
      }
      if !NoPlannedCollision(input, rounds) {
        var x: nat, y: nat, x': nat, y': nat :| PlannedCollision(input, rounds, x, y, x', y');
        CollisionInPlan(input, rounds, x, y, x', y');
      }
    }
  }
}
