/** Exactly when a round-robin plan serves everyone: the names of the models decide. */
module TournamentServing {
  import opened CircleMethod
  import opened TournamentTypes
  import opened RoundRobin
  import opened RoundRobinTheorems
  import opened TournamentAgreement

  // ----- where byes come from

  predicate ByeOfTable(roster: seq<Model>, bye: PlannedBye, k: nat)
    requires Even(|roster|) && 1 <= bye.roundNumber <= |roster| && k < |roster| / 2
  {
    ByeTable(roster, bye.roundNumber - 1, k) && bye == ByeAt(roster, bye.roundNumber - 1, k)
  }

  /** `bye` is that of a table with a bye, in one of the first `rounds` rounds. */
  ghost predicate ByePlaced(roster: seq<Model>, rounds: nat, bye: PlannedBye)
    requires Even(|roster|) && rounds < |roster|
  {
    && 1 <= bye.roundNumber <= rounds
    && exists k: nat :: k < |roster| / 2 && ByeOfTable(roster, bye, k)
  }

  lemma {:induction false} TableByesPlaced(roster: seq<Model>, r: nat, k: nat, bye: PlannedBye)
    requires Even(|roster|) && r + 1 < |roster| && k <= |roster| / 2 && bye in TableByes(roster, r, k)
    ensures ByePlaced(roster, r + 1, bye) && bye.roundNumber == r + 1
  {
    if k > 0 && bye in TableByes(roster, r, k - 1) {
      TableByesPlaced(roster, r, k - 1, bye);
    } else {
      assert ByeOfTable(roster, bye, k - 1);
    }
  }

  lemma {:induction false} ByesPlaced(roster: seq<Model>, rounds: nat, bye: PlannedBye)
    requires Even(|roster|) && rounds < |roster| && bye in Byes(roster, rounds)
    ensures ByePlaced(roster, rounds, bye)
  {
    if rounds > 0 && bye in Byes(roster, rounds - 1) {
      ByesPlaced(roster, rounds - 1, bye);
    } else {
      TableByesPlaced(roster, rounds - 1, |roster| / 2, bye);
    }
  }

  lemma {:induction false} TableByesComplete(roster: seq<Model>, r: nat, k: nat, k': nat)
    requires Even(|roster|) && r < |roster| && k' < k <= |roster| / 2 && ByeTable(roster, r, k')
    ensures ByeAt(roster, r, k') in TableByes(roster, r, k)
  {
    if k' < k - 1 {
      TableByesComplete(roster, r, k - 1, k');
    }
  }

  lemma {:induction false} ByesComplete(roster: seq<Model>, rounds: nat, r: nat, k: nat)
    requires Even(|roster|) && r < rounds < |roster| && k < |roster| / 2 && ByeTable(roster, r, k)
    ensures ByeAt(roster, r, k) in Byes(roster, rounds)
  {
    if r < rounds - 1 {
      ByesComplete(roster, rounds - 1, r, k);
    } else {
      TableByesComplete(roster, r, |roster| / 2, k);
    }
    InConcatenation(Byes(roster, rounds - 1), TableByes(roster, rounds - 1, |roster| / 2), ByeAt(roster, r, k));
  }

  // ----- a model with the sentinel's name goes unserved, unless the two are opposite

  /** In round `r` nobody with the sentinel's name sits opposite another. */
  ghost predicate NamesakesApart(roster: seq<Model>, r: nat)
    requires Even(|roster|) && r < |roster|
  {
    forall k: nat :: k < |roster| / 2 ==>
      !(LeftAt(roster, r, k).modelId == BYE_ID && RightAt(roster, r, k).modelId == BYE_ID)
  }

  lemma NamesakeUnserved(input: PlanInput, roster: seq<Model>, rounds: nat, r: nat)
    requires |input.scenarios| > 0 && Even(|roster|) && r < rounds < |roster| && NamesakesApart(roster, r)
    ensures !ServedOnce(Pairings(input, roster, rounds), Byes(roster, rounds), r + 1, BYE_ID)
  {
    var ps := Pairings(input, roster, rounds);
    forall i | 0 <= i < |ps|
      ensures !Plays(ps[i], r + 1, BYE_ID)
    {
      var _, _ := PairingSeats(input, roster, rounds, i);
    }
    if PlannedBye(r + 1, BYE_ID) in Byes(roster, rounds) {
      ByesPlaced(roster, rounds, PlannedBye(r + 1, BYE_ID));
    }
  }

  lemma OnlyNamesakeApart(roster: seq<Model>, r: nat, x: nat)
    requires Even(|roster|) && r < |roster| && OnlySentinel(roster, x)
    ensures NamesakesApart(roster, r)
  {
    forall k: nat | k < |roster| / 2
      ensures !(LeftAt(roster, r, k).modelId == BYE_ID && RightAt(roster, r, k).modelId == BYE_ID)
    {
      TableSeatsOpposite(|roster|, r, k);
    }
  }

  /** Exactly participants `x` and `s` have the sentinel's name. */
  ghost predicate TwoSentinels(roster: seq<Model>, x: nat, s: nat) {
    forall y :: 0 <= y < |roster| ==> (roster[y].modelId == BYE_ID <==> y == x || y == s)
  }

  lemma TwoNamesakesApart(roster: seq<Model>, r: nat, x: nat, s: nat)
    requires Even(|roster|) && r < |roster| && x < s < |roster| && TwoSentinels(roster, x, s)
    requires Opponent(|roster|, r, x) != s
    ensures NamesakesApart(roster, r)
  {
    var m := |roster|;
    forall k: nat | k < m / 2
      ensures !(LeftAt(roster, r, k).modelId == BYE_ID && RightAt(roster, r, k).modelId == BYE_ID)
    {
      TableSeatsOpposite(m, r, k);
      if Seat(m, r, k) == x || Seat(m, r, m - 1 - k) == x {
        OpponentOf(m, r, k, x);
      }
    }
  }

  lemma NamesakeRoster(models: seq<Model>, x: nat)
    requires |models| >= 2 && DistinctIds(models) && x < |models| && models[x].modelId == BYE_ID
    ensures |models| % 2 == 0 ==> OnlySentinel(Roster(models), x)
    ensures |models| % 2 == 1 ==> TwoSentinels(Roster(models), x, |models|) && |Roster(models)| == |models| + 1 > 2
  {}

  /** The first round, or the second when the first cancels the namesake out, leaves it unserved. */
  lemma NamesakeApartSometime(models: seq<Model>, rounds: nat, x: nat) returns (r: nat)
    requires |models| >= 2 && DistinctIds(models) && x < |models| && models[x].modelId == BYE_ID
    requires 1 <= rounds < |Roster(models)| && (|models| % 2 == 1 && x == 0 ==> rounds > 1)
    ensures r < rounds && NamesakesApart(Roster(models), r)
  {
    NamesakeRoster(models, x);
    r := if |models| % 2 == 1 && x == 0 then 1 else 0;
    if |models| % 2 == 0 {
      OnlyNamesakeApart(Roster(models), r, x);
    } else {
      FirstRoundSentinel(|Roster(models)|, x);
      TwoNamesakesApart(Roster(models), r, x, |models|);
    }
  }

  lemma NamesakeMissesRound(input: PlanInput, rounds: nat) returns (r: nat)
    requires |input.models| >= 2 && |input.scenarios| > 0 && DistinctIds(input.models)
    requires 1 <= rounds < |Roster(input.models)| && !NoByeModel(input.models) && !NamesakeCancels(input, rounds)
    ensures r < rounds
    ensures !ServedOnce(Pairings(input, Roster(input.models), rounds), Byes(Roster(input.models), rounds), r + 1,
                        BYE_ID)
  {
    var x :| 0 <= x < |input.models| && input.models[x].modelId == BYE_ID;
    r := NamesakeApartSometime(input.models, rounds, x);
    NamesakeUnserved(input, Roster(input.models), rounds, r);
  }

  // ----- the harmless namesake

  lemma MatchedOnceInField(input: PlanInput, roster: seq<Model>, rounds: nat, r: nat, x: nat)
    requires |input.scenarios| > 0 && Seats(roster, input.models) && r < rounds < |roster| && DistinctIds(input.models)
    requires x < |roster| && roster[x].modelId != BYE_ID && roster[Opponent(|roster|, r, x)].modelId != BYE_ID
    ensures OneMatch(Pairings(input, roster, rounds), r + 1, roster[x].modelId)
  {
    var ps, a, m := Pairings(input, roster, rounds), roster[x].modelId, |roster|;
    var k := TableOf(m, r, x);
    TableSeats(m, r, x);
    PairingsComplete(input, roster, rounds, r, k);
    assert Plays(PairingAt(input, roster, r, k), r + 1, a);
    forall i, j | 0 <= i < j < |ps|
      ensures !(Plays(ps[i], r + 1, a) && Plays(ps[j], r + 1, a))
    {
      RoundRobinHarmonious(input, roster, rounds, i, j);
    }
  }

  lemma CancelledServes(input: PlanInput, x: nat)
    requires |input.models| >= 2 && |input.scenarios| > 0 && DistinctIds(input.models) && x < |input.models|
    requires NamesakeCancels(input, 1)
    ensures ServedOnce(Pairings(input, Roster(input.models), 1), Byes(Roster(input.models), 1), 1,
                       input.models[x].modelId)
  {
    var roster, a := Roster(input.models), input.models[x].modelId;
    var ps, bs := Pairings(input, roster, 1), Byes(roster, 1);
    CancelRoster(input.models);
    EndsCancelByes(roster);
    if x == 0 {
      NamesakeUnmatched(input, roster, 1, 0);
      ServedByBye(ps, bs, 1, a);
    } else {
      RosterSeats(input.models);
      assert roster[x].modelId != BYE_ID;
      MatchedOnceInField(input, roster, 1, 0, x);
      ServedByMatch(ps, bs, 1, a);
    }
  }

  lemma NamesakeUnmatched(input: PlanInput, roster: seq<Model>, rounds: nat, r: nat)
    requires |input.scenarios| > 0 && Even(|roster|) && rounds < |roster|
    ensures NoMatch(Pairings(input, roster, rounds), r + 1, BYE_ID)
  {
    forall i | 0 <= i < |Pairings(input, roster, rounds)|
      ensures !Plays(Pairings(input, roster, rounds)[i], r + 1, BYE_ID)
    {
      var _, _ := PairingSeats(input, roster, rounds, i);
    }
  }

  /** Every model has exactly one match or one bye in every planned round. */
  ghost predicate ServesEveryone(ps: seq<Pairing>, bs: seq<PlannedBye>, models: seq<Model>, rounds: nat) {
    forall round: int, x: nat :: 1 <= round <= rounds && x < |models| ==> ServedOnce(ps, bs, round, models[x].modelId)
  }

  /**
   * A round-robin plan of any length serves every model in every round exactly when no model carries the sentinel's
   * name, or its namesake opens an odd field of a one-round plan.
   */
  lemma ServesEveryoneExactly(input: PlanInput, rounds: nat)
    requires |input.models| >= 2 && |input.scenarios| > 0 && DistinctIds(input.models)
    requires 1 <= rounds < |Roster(input.models)|
    ensures ServesEveryone(Pairings(input, Roster(input.models), rounds), Byes(Roster(input.models), rounds),
                           input.models, rounds)
            <==> NoByeModel(input.models) || NamesakeCancels(input, rounds)
  {
    var ps, bs := Pairings(input, Roster(input.models), rounds), Byes(Roster(input.models), rounds);
    if NoByeModel(input.models) || NamesakeCancels(input, rounds) {
      forall round: int, x: nat | 1 <= round <= rounds && x < |input.models|
        ensures ServedOnce(ps, bs, round, input.models[x].modelId)
      {
        if NoByeModel(input.models) {
          EveryModelServedOnce(input, rounds, round - 1, x);
        } else {
          CancelledServes(input, x);
        }
      }
    } else {
      var r := NamesakeMissesRound(input, rounds);
      var x :| 0 <= x < |input.models| && input.models[x].modelId == BYE_ID;
      assert !ServedOnce(ps, bs, r + 1, input.models[x].modelId);
    }
  }

  // ----- byes over the whole schedule

  /** In the round of their meeting, the bye goes to the opponent of a participant with the sentinel's name. */
  lemma ByeOfOpponent(roster: seq<Model>, x: nat, y: nat) returns (r: nat)
    requires Even(|roster|) && x < |roster| && y < |roster| && x != y
    requires roster[x].modelId == BYE_ID && roster[y].modelId != BYE_ID
    ensures r < |roster| - 1 && Opponent(|roster|, r, y) == x
    ensures PlannedBye(r + 1, roster[y].modelId) in Byes(roster, |roster| - 1)
  {
    var m := |roster|;
    r := if x < y then MeetingRound(m, x, y) else MeetingRound(m, y, x);
    OpponentMeetingRound(m, r, if x < y then x else y, if x < y then y else x);
    TableSeats(m, r, y);
    ByesComplete(roster, m - 1, r, TableOf(m, r, y));
  }

  lemma TwoByes(roster: seq<Model>, x: nat, s: nat, y: nat)
    requires Even(|roster|) && x < |roster| && s < |roster| && y < |roster| && x != s && y != x && y != s
    requires roster[x].modelId == BYE_ID && roster[s].modelId == BYE_ID && roster[y].modelId != BYE_ID
    ensures !HasOneBye(Byes(roster, |roster| - 1), roster[y].modelId)
  {
    var r := ByeOfOpponent(roster, x, y);
    var r' := ByeOfOpponent(roster, s, y);
    TwoByesOfOne(Byes(roster, |roster| - 1), r + 1, r' + 1, roster[y].modelId);
  }

  lemma TwoByesOfOne(bs: seq<PlannedBye>, round: int, round': int, a: string)
    requires round != round' && PlannedBye(round, a) in bs && PlannedBye(round', a) in bs
    ensures !HasOneBye(bs, a)
  {
    var i :| 0 <= i < |bs| && bs[i] == PlannedBye(round, a);
    var j :| 0 <= j < |bs| && bs[j] == PlannedBye(round', a);
    assert i < j || j < i;
  }

  /** An odd field gives every model one bye over the whole schedule, an even field gives none. */
  ghost predicate ByesShared(bs: seq<PlannedBye>, models: seq<Model>) {
    if |models| % 2 == 0 then bs == []
    else forall x: nat :: x < |models| ==> HasOneBye(bs, models[x].modelId)
  }

  /** The whole schedule shares its byes that way exactly when no model carries the sentinel's name. */
  lemma ByesSharedExactly(models: seq<Model>)
    requires |models| >= 2 && DistinctIds(models)
    ensures ByesShared(Byes(Roster(models), |Roster(models)| - 1), models) <==> NoByeModel(models)
  {
    var roster := Roster(models);
    if NoByeModel(models) {
      forall x: nat | x < |models| { OneByeEach(models, x); }
      OneByeEach(models, 0);
    } else {
      var x :| 0 <= x < |models| && models[x].modelId == BYE_ID;
      NamesakeRoster(models, x);
      if |models| % 2 == 0 {
        NamesakeEven(roster, |roster| - 1, x);
      } else {
        var y := if x == 0 then 1 else 0;
        TwoByes(roster, x, |models|, y);
        assert roster[y] == models[y];
        assert !HasOneBye(Byes(roster, |roster| - 1), models[y].modelId);
      }
    }
  }
}
