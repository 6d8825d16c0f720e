/** What the round-robin schedule promises its players. */
module RoundRobinTheorems {
  import opened CircleMethod
  import opened TournamentTypes
  import opened RoundRobin

  predicate Meets(p: Pairing, a: string, b: string) {
    (p.modelA == a && p.modelB == b) || (p.modelA == b && p.modelB == a)
  }

  ghost predicate MeetSomewhere(ps: seq<Pairing>, a: string, b: string) {
    exists i :: 0 <= i < |ps| && Meets(ps[i], a, b)
  }

  ghost predicate MeetAtMostOnce(ps: seq<Pairing>, a: string, b: string) {
    forall i, j :: 0 <= i < j < |ps| ==> !(Meets(ps[i], a, b) && Meets(ps[j], a, b))
  }

  /** Exactly one match of `round` involves `a`. */
  ghost predicate OneMatch(ps: seq<Pairing>, round: int, a: string) {
    && (exists i :: 0 <= i < |ps| && Plays(ps[i], round, a))
    && (forall i, j :: 0 <= i < j < |ps| ==> !(Plays(ps[i], round, a) && Plays(ps[j], round, a)))
  }

  ghost predicate NoMatch(ps: seq<Pairing>, round: int, a: string) {
    forall i :: 0 <= i < |ps| ==> !Plays(ps[i], round, a)
  }

  ghost predicate OneBye(bs: seq<PlannedBye>, round: int, a: string) {
    && PlannedBye(round, a) in bs
    && (forall i, j :: 0 <= i < j < |bs| ==> !(bs[i] == bs[j] == PlannedBye(round, a)))
  }

  /** `a` is served exactly once in `round`: by one match, or by one bye. */
  ghost predicate ServedOnce(ps: seq<Pairing>, bs: seq<PlannedBye>, round: int, a: string) {
    || (OneMatch(ps, round, a) && PlannedBye(round, a) !in bs)
    || (NoMatch(ps, round, a) && OneBye(bs, round, a))
  }

  // ----- seats

  /** The seat opposite participant `x` in round `r`. */
  function Opponent(m: nat, r: nat, x: nat): (y: nat)
    requires Even(m) && r < m && x < m
    ensures y < m
  {
    Seat(m, r, m - 1 - Position(m, r, x))
  }

  function TableOf(m: nat, r: nat, x: nat): (k: nat)
    requires Even(m) && r < m && x < m
    ensures k < m / 2
  {
    if Position(m, r, x) < m / 2 then Position(m, r, x) else m - 1 - Position(m, r, x)
  }

  lemma TableSeats(m: nat, r: nat, x: nat)
    requires Even(m) && r < m && x < m
    ensures || (Seat(m, r, TableOf(m, r, x)) == x && Seat(m, r, m - 1 - TableOf(m, r, x)) == Opponent(m, r, x))
            || (Seat(m, r, TableOf(m, r, x)) == Opponent(m, r, x) && Seat(m, r, m - 1 - TableOf(m, r, x)) == x)
    ensures Opponent(m, r, x) != x
  {
    SeatPosition(m, r, x);
  }

  lemma OnlyTableOf(m: nat, r: nat, k: nat, x: nat)
    requires Even(m) && r < m && k < m / 2 && x < m
    ensures Seat(m, r, k) == x || Seat(m, r, m - 1 - k) == x <==> k == TableOf(m, r, x)
  {
    SeatPosition(m, r, x);
  }

  lemma OpponentOf(m: nat, r: nat, k: nat, x: nat)
    requires Even(m) && r < m && k < m / 2
    requires Seat(m, r, k) == x || Seat(m, r, m - 1 - k) == x
    ensures k == TableOf(m, r, x)
    ensures Opponent(m, r, x) == if Seat(m, r, k) == x then Seat(m, r, m - 1 - k) else Seat(m, r, k)
  {
    SeatPosition(m, r, x);
  }

  lemma TableSeatsOpposite(m: nat, r: nat, k: nat)
    requires Even(m) && r < m && k < m / 2
    ensures Seat(m, r, k) != Seat(m, r, m - 1 - k)
    ensures Opposite(m, r, Seat(m, r, k), Seat(m, r, m - 1 - k))
  {}

  /** Different tables of one round seat four different participants. */
  lemma TablesDisjoint(m: nat, r: nat, k: nat, k': nat)
    requires Even(m) && r < m && k < m / 2 && k' < m / 2 && k != k'
    ensures Seat(m, r, k) != Seat(m, r, k') && Seat(m, r, k) != Seat(m, r, m - 1 - k')
    ensures Seat(m, r, m - 1 - k) != Seat(m, r, k') && Seat(m, r, m - 1 - k) != Seat(m, r, m - 1 - k')
  {}

  lemma OpponentMeetingRound(m: nat, r: nat, x: nat, y: nat)
    requires Even(m) && r < m - 1 && x < y < m
    ensures Opponent(m, r, x) == y <==> r == MeetingRound(m, x, y)
    ensures Opponent(m, r, y) == x <==> r == MeetingRound(m, x, y)
  {
    SeatPosition(m, r, x);
    SeatPosition(m, r, y);
    MeetExactlyOnce(m, x, y, r);
  }

  // ----- matches

  /** `p` is the match of seats `u` and `v`, neither of them the sentinel's. */
  ghost predicate Seated(roster: seq<Model>, rounds: nat, p: Pairing, u: nat, v: nat)
    requires Even(|roster|) && rounds < |roster|
  {
    var m := |roster|;
    && 1 <= p.roundNumber <= rounds && 0 <= p.matchIndex < m / 2
    && u == Seat(m, p.roundNumber - 1, p.matchIndex) && v == Seat(m, p.roundNumber - 1, m - 1 - p.matchIndex)
    && p.modelA == roster[u].modelId && p.providerA == roster[u].providerId
    && p.modelB == roster[v].modelId && p.providerB == roster[v].providerId
    && p.modelA != BYE_ID && p.modelB != BYE_ID && u != v
  }

  /** The seats behind pairing `i` of the schedule. */
  lemma PairingSeats(input: PlanInput, roster: seq<Model>, rounds: nat, i: nat) returns (u: nat, v: nat)
    requires |input.scenarios| > 0 && Even(|roster|) && rounds < |roster| && i < |Pairings(input, roster, rounds)|
    ensures var p := Pairings(input, roster, rounds)[i];
      Seated(roster, rounds, p, u, v) && p.skillId == input.skillId && p.scenarioId in input.scenarios
  {
    PairingsPlaced(input, roster, rounds);
    var p, m := Pairings(input, roster, rounds)[i], |roster|;
    assert Placed(input, roster, p, rounds);
    u, v := Seat(m, p.roundNumber - 1, p.matchIndex), Seat(m, p.roundNumber - 1, m - 1 - p.matchIndex);
    TableSeatsOpposite(m, p.roundNumber - 1, p.matchIndex);
  }

  /** A match of `x` and `y` sits in their meeting round, at the table of `x`. */
  lemma MatchRound(input: PlanInput, roster: seq<Model>, rounds: nat, i: nat, x: nat, y: nat)
    requires |input.scenarios| > 0 && Even(|roster|) && rounds < |roster| && i < |Pairings(input, roster, rounds)|
    requires DistinctIds(roster) && x < y < |roster|
    requires Meets(Pairings(input, roster, rounds)[i], roster[x].modelId, roster[y].modelId)
    ensures Pairings(input, roster, rounds)[i].roundNumber - 1 == MeetingRound(|roster|, x, y) < rounds
    ensures Pairings(input, roster, rounds)[i].matchIndex == TableOf(|roster|, MeetingRound(|roster|, x, y), x)
  {
    var u, v := PairingSeats(input, roster, rounds, i);
    SeatedMatchRound(roster, rounds, Pairings(input, roster, rounds)[i], u, v, x, y);
  }

  lemma SeatedMatchRound(roster: seq<Model>, rounds: nat, p: Pairing, u: nat, v: nat, x: nat, y: nat)
    requires Even(|roster|) && rounds < |roster| && Seated(roster, rounds, p, u, v)
    requires DistinctIds(roster) && x < y < |roster| && Meets(p, roster[x].modelId, roster[y].modelId)
    ensures p.roundNumber - 1 == MeetingRound(|roster|, x, y) < rounds
    ensures p.matchIndex == TableOf(|roster|, MeetingRound(|roster|, x, y), x)
  {
    var m := |roster|;
    assert (u == x && v == y) || (u == y && v == x);
    TableSeatsOpposite(m, p.roundNumber - 1, p.matchIndex);
    MeetExactlyOnce(m, x, y, p.roundNumber - 1);
    OnlyTableOf(m, p.roundNumber - 1, p.matchIndex, x);
  }

  lemma MatchUnique(input: PlanInput, roster: seq<Model>, rounds: nat, i: nat, j: nat, x: nat, y: nat)
    requires |input.scenarios| > 0 && Even(|roster|) && rounds < |roster| && i < j < |Pairings(input, roster, rounds)|
    requires DistinctIds(roster) && x < y < |roster|
    requires Meets(Pairings(input, roster, rounds)[i], roster[x].modelId, roster[y].modelId)
    ensures !Meets(Pairings(input, roster, rounds)[j], roster[x].modelId, roster[y].modelId)
  {
    var ps := Pairings(input, roster, rounds);
    if Meets(ps[j], roster[x].modelId, roster[y].modelId) {
      MatchRound(input, roster, rounds, i, x, y);
      MatchRound(input, roster, rounds, j, x, y);
      PairingsPlaced(input, roster, rounds);
    }
  }

  lemma MatchExists(input: PlanInput, roster: seq<Model>, rounds: nat, x: nat, y: nat)
    requires |input.scenarios| > 0 && Even(|roster|) && rounds < |roster|
    requires x < y < |roster| && roster[x].modelId != BYE_ID && roster[y].modelId != BYE_ID
    requires MeetingRound(|roster|, x, y) < rounds
    ensures MeetSomewhere(Pairings(input, roster, rounds), roster[x].modelId, roster[y].modelId)
  {
    var m := |roster|;
    var r := MeetingRound(m, x, y);
    OpponentMeetingRound(m, r, x, y);
    TableSeats(m, r, x);
    var k := TableOf(m, r, x);
    PairingsComplete(input, roster, rounds, r, k);
    assert Meets(PairingAt(input, roster, r, k), roster[x].modelId, roster[y].modelId);
  }

  /**
   * Two participants who carry names of their own meet at most once, and exactly when their meeting round is played.
   */
  lemma PairsMeet(input: PlanInput, roster: seq<Model>, rounds: nat, x: nat, y: nat)
    requires |input.scenarios| > 0 && Even(|roster|) && rounds < |roster| && DistinctIds(roster)
    requires x < y < |roster| && roster[x].modelId != BYE_ID && roster[y].modelId != BYE_ID
    ensures MeetAtMostOnce(Pairings(input, roster, rounds), roster[x].modelId, roster[y].modelId)
    ensures MeetSomewhere(Pairings(input, roster, rounds), roster[x].modelId, roster[y].modelId) <==>
            MeetingRound(|roster|, x, y) < rounds
  {
    var ps, a, b := Pairings(input, roster, rounds), roster[x].modelId, roster[y].modelId;
    forall i, j | 0 <= i < j < |ps| && Meets(ps[i], a, b)
      ensures !Meets(ps[j], a, b)
    {
      MatchUnique(input, roster, rounds, i, j, x, y);
    }
    if MeetSomewhere(ps, a, b) {
      var i :| 0 <= i < |ps| && Meets(ps[i], a, b);
      MatchRound(input, roster, rounds, i, x, y);
    }
    if MeetingRound(|roster|, x, y) < rounds {
      MatchExists(input, roster, rounds, x, y);
    }
  }

  lemma RosterIdsDistinct(models: seq<Model>)
    requires |models| >= 2 && DistinctIds(models) && NoByeModel(models)
    ensures DistinctIds(Roster(models))
    ensures forall x :: 0 <= x < |Roster(models)| ==> (Roster(models)[x].modelId == BYE_ID <==> x == |models|)
  {}

  lemma NamesakeNeverMeets(input: PlanInput, roster: seq<Model>, rounds: nat, a: string)
    requires |input.scenarios| > 0 && Even(|roster|) && rounds < |roster|
    ensures !MeetSomewhere(Pairings(input, roster, rounds), BYE_ID, a)
    ensures !MeetSomewhere(Pairings(input, roster, rounds), a, BYE_ID)
  {
    var ps := Pairings(input, roster, rounds);
    forall i | 0 <= i < |ps|
      ensures !Meets(ps[i], BYE_ID, a)
    {
      var _, _ := PairingSeats(input, roster, rounds, i);
    }
  }

  /** Any two models meet, and meet once. */
  ghost predicate EveryPairMeetsOnce(ps: seq<Pairing>, models: seq<Model>) {
    forall x, y :: 0 <= x < y < |models| ==>
      MeetSomewhere(ps, models[x].modelId, models[y].modelId) &&
        MeetAtMostOnce(ps, models[x].modelId, models[y].modelId)
  }

  lemma WholeScheduleMeets(input: PlanInput, roster: seq<Model>, models: seq<Model>)
    requires |input.scenarios| > 0 && Even(|roster|) && DistinctIds(roster) && models <= roster && NoByeModel(models)
    ensures EveryPairMeetsOnce(Pairings(input, roster, |roster| - 1), models)
  {
    forall x, y | 0 <= x < y < |models|
      ensures MeetSomewhere(Pairings(input, roster, |roster| - 1), models[x].modelId, models[y].modelId)
      ensures MeetAtMostOnce(Pairings(input, roster, |roster| - 1), models[x].modelId, models[y].modelId)
    {
      PairsMeet(input, roster, |roster| - 1, x, y);
    }
  }

  lemma NamesakeMissesMatches(input: PlanInput, roster: seq<Model>, models: seq<Model>)
    requires |input.scenarios| > 0 && Even(|roster|) && |models| >= 2 && !NoByeModel(models)
    ensures !EveryPairMeetsOnce(Pairings(input, roster, |roster| - 1), models)
  {
    var b :| 0 <= b < |models| && models[b].modelId == BYE_ID;
    var x, y := 0, if b == 0 then 1 else b;
    NamesakeNeverMeets(input, roster, |roster| - 1, models[x].modelId);
    NamesakeNeverMeets(input, roster, |roster| - 1, models[y].modelId);
    assert 0 <= x < y < |models|;
  }

  /**
   * The whole schedule lets every pair of models meet, each exactly once, if and only if no model carries the
   * sentinel's name: whoever does is given byes instead of matches.
   */
  lemma EveryPairMeetsExactlyOnce(input: PlanInput, roster: seq<Model>, ps: seq<Pairing>)
    requires |input.models| >= 2 && |input.scenarios| > 0 && DistinctIds(input.models) && roster == Roster(input.models)
    requires ps == Pairings(input, roster, |roster| - 1)
    ensures EveryPairMeetsOnce(ps, input.models) <==> NoByeModel(input.models)
  {
    if NoByeModel(input.models) {
      RosterIdsDistinct(input.models);
      WholeScheduleMeets(input, roster, input.models);
    } else {
      NamesakeMissesMatches(input, roster, input.models);
    }
  }

  // ----- byes

  lemma {:induction false} NoByeTables(roster: seq<Model>, r: nat, k: nat)
    requires Even(|roster|) && r < |roster| && k <= |roster| / 2
    requires forall k' :: 0 <= k' < k ==> !ByeTable(roster, r, k')
    ensures TableByes(roster, r, k) == []
  {
    if k > 0 {
      NoByeTables(roster, r, k - 1);
    }
  }

  lemma {:induction false} OneByeTable(roster: seq<Model>, r: nat, k: nat, k0: nat)
    requires Even(|roster|) && r < |roster| && k0 < k <= |roster| / 2
    requires forall k' :: 0 <= k' < k ==> (ByeTable(roster, r, k') <==> k' == k0)
    ensures TableByes(roster, r, k) == [ByeAt(roster, r, k0)]
  {
    if k - 1 == k0 {
      NoByeTables(roster, r, k0);
    } else {
      OneByeTable(roster, r, k - 1, k0);
    }
  }

  /** Nobody on the roster, or exactly participant `s`, has the sentinel's name. */
  ghost predicate OnlySentinel(roster: seq<Model>, s: int) {
    forall x :: 0 <= x < |roster| ==> (roster[x].modelId == BYE_ID <==> x == s)
  }

  lemma {:induction false} NoSentinelNoByes(roster: seq<Model>, rounds: nat)
    requires Even(|roster|) && rounds < |roster| && OnlySentinel(roster, |roster|)
    ensures Byes(roster, rounds) == []
  {
    if rounds > 0 {
      NoSentinelNoByes(roster, rounds - 1);
      NoByeTables(roster, rounds - 1, |roster| / 2);
    }
  }

  /** The bye of round `r` goes to the opponent of the sentinel `s`. */
  function SentinelBye(roster: seq<Model>, s: nat, r: nat): PlannedBye
    requires Even(|roster|) && s < |roster| && r < |roster|
  {
    PlannedBye(r + 1, roster[Opponent(|roster|, r, s)].modelId)
  }

  function SentinelByes(roster: seq<Model>, s: nat, rounds: nat): (bs: seq<PlannedBye>)
    requires Even(|roster|) && s < |roster| && rounds < |roster|
    ensures |bs| == rounds
    ensures forall r :: 0 <= r < rounds ==> bs[r] == SentinelBye(roster, s, r)
  {
    if rounds == 0 then [] else SentinelByes(roster, s, rounds - 1) + [SentinelBye(roster, s, rounds - 1)]
  }

  lemma SentinelRound(roster: seq<Model>, s: nat, r: nat)
    requires Even(|roster|) && s < |roster| && r < |roster| && OnlySentinel(roster, s)
    ensures TableByes(roster, r, |roster| / 2) == [SentinelBye(roster, s, r)]
  {
    var m := |roster|;
    var k0 := TableOf(m, r, s);
    TableSeats(m, r, s);
    forall k | 0 <= k < m / 2
      ensures ByeTable(roster, r, k) <==> k == k0
    {
      OnlyTableOf(m, r, k, s);
    }
    OneByeTable(roster, r, m / 2, k0);
  }

  lemma {:induction false} SentinelGivesByes(roster: seq<Model>, s: nat, rounds: nat)
    requires Even(|roster|) && s < |roster| && rounds < |roster| && OnlySentinel(roster, s)
    ensures Byes(roster, rounds) == SentinelByes(roster, s, rounds)
  {
    if rounds > 0 {
      SentinelGivesByes(roster, s, rounds - 1);
      SentinelRound(roster, s, rounds - 1);
    }
  }

  lemma SentinelByeOf(roster: seq<Model>, s: nat, r: nat, x: nat)
    requires Even(|roster|) && DistinctIds(roster) && x < s < |roster| && r < |roster| - 1
    ensures SentinelBye(roster, s, r).modelId == roster[x].modelId <==> r == MeetingRound(|roster|, x, s)
    ensures Opponent(|roster|, r, x) == s <==> r == MeetingRound(|roster|, x, s)
  {
    OpponentMeetingRound(|roster|, r, x, s);
  }

  // ----- every model, every round

  lemma MatchAt(input: PlanInput, roster: seq<Model>, rounds: nat, i: nat, x: nat)
    requires |input.scenarios| > 0 && Even(|roster|) && rounds < |roster| && i < |Pairings(input, roster, rounds)|
    requires DistinctIds(roster) && x < |roster|
    requires Plays(Pairings(input, roster, rounds)[i], Pairings(input, roster, rounds)[i].roundNumber,
                   roster[x].modelId)
    ensures var p := Pairings(input, roster, rounds)[i];
      && 1 <= p.roundNumber <= rounds
      && p.matchIndex == TableOf(|roster|, p.roundNumber - 1, x)
      && roster[Opponent(|roster|, p.roundNumber - 1, x)].modelId != BYE_ID
  {
    var u, v := PairingSeats(input, roster, rounds, i);
    SeatedMatchAt(roster, rounds, Pairings(input, roster, rounds)[i], u, v, x);
  }

  lemma SeatedMatchAt(roster: seq<Model>, rounds: nat, p: Pairing, u: nat, v: nat, x: nat)
    requires Even(|roster|) && rounds < |roster| && Seated(roster, rounds, p, u, v)
    requires DistinctIds(roster) && x < |roster| && Plays(p, p.roundNumber, roster[x].modelId)
    ensures p.matchIndex == TableOf(|roster|, p.roundNumber - 1, x)
    ensures roster[Opponent(|roster|, p.roundNumber - 1, x)].modelId != BYE_ID
  {
    assert u == x || v == x;
    OpponentOf(|roster|, p.roundNumber - 1, p.matchIndex, x);
  }

  lemma AtMostOneMatch(input: PlanInput, roster: seq<Model>, rounds: nat, i: nat, j: nat, x: nat, round: int)
    requires |input.scenarios| > 0 && Even(|roster|) && rounds < |roster| && i < j < |Pairings(input, roster, rounds)|
    requires DistinctIds(roster) && x < |roster|
    requires Plays(Pairings(input, roster, rounds)[i], round, roster[x].modelId)
    ensures !Plays(Pairings(input, roster, rounds)[j], round, roster[x].modelId)
  {
    var ps := Pairings(input, roster, rounds);
    if Plays(ps[j], round, roster[x].modelId) {
      MatchAt(input, roster, rounds, i, x);
      MatchAt(input, roster, rounds, j, x);
      PairingsPlaced(input, roster, rounds);
    }
  }

  lemma MatchedOnce(input: PlanInput, roster: seq<Model>, rounds: nat, r: nat, x: nat)
    requires |input.scenarios| > 0 && Even(|roster|) && r < rounds < |roster| && DistinctIds(roster)
    requires x < |roster| && roster[x].modelId != BYE_ID && roster[Opponent(|roster|, r, x)].modelId != BYE_ID
    ensures OneMatch(Pairings(input, roster, rounds), r + 1, roster[x].modelId)
  {
    var ps, a, m := Pairings(input, roster, rounds), roster[x].modelId, |roster|;
    var k := TableOf(m, r, x);
    TableSeats(m, r, x);
    PairingsComplete(input, roster, rounds, r, k);
    assert Plays(PairingAt(input, roster, r, k), r + 1, a);
    forall i, j | 0 <= i < j < |ps| && Plays(ps[i], r + 1, a)
      ensures !Plays(ps[j], r + 1, a)
    {
      AtMostOneMatch(input, roster, rounds, i, j, x, r + 1);
    }
  }

  lemma UnmatchedWithSentinel(input: PlanInput, roster: seq<Model>, rounds: nat, r: nat, x: nat)
    requires |input.scenarios| > 0 && Even(|roster|) && r < rounds < |roster| && DistinctIds(roster)
    requires x < |roster| && roster[Opponent(|roster|, r, x)].modelId == BYE_ID
    ensures NoMatch(Pairings(input, roster, rounds), r + 1, roster[x].modelId)
  {
    var ps, a := Pairings(input, roster, rounds), roster[x].modelId;
    forall i | 0 <= i < |ps|
      ensures !Plays(ps[i], r + 1, a)
    {
      if Plays(ps[i], r + 1, a) {
        MatchAt(input, roster, rounds, i, x);
      }
    }
  }

  lemma OneByeWithSentinel(roster: seq<Model>, s: nat, rounds: nat, r: nat, x: nat)
    requires Even(|roster|) && DistinctIds(roster) && r < rounds < |roster| && x < s < |roster|
    ensures Opponent(|roster|, r, x) == s ==> OneBye(SentinelByes(roster, s, rounds), r + 1, roster[x].modelId)
    ensures Opponent(|roster|, r, x) != s ==> PlannedBye(r + 1, roster[x].modelId) !in SentinelByes(roster, s, rounds)
  {
    var bs := SentinelByes(roster, s, rounds);
    SentinelByeOf(roster, s, r, x);
    assert bs[r] == SentinelBye(roster, s, r);
    forall i | 0 <= i < |bs| && bs[i] == PlannedBye(r + 1, roster[x].modelId)
      ensures i == r && bs[r].modelId == roster[x].modelId
    {
      assert bs[i] == SentinelBye(roster, s, i);
    }
  }

  lemma ServedByMatch(ps: seq<Pairing>, bs: seq<PlannedBye>, round: int, a: string)
    requires OneMatch(ps, round, a) && PlannedBye(round, a) !in bs
    ensures ServedOnce(ps, bs, round, a)
  {}

  lemma ServedByBye(ps: seq<Pairing>, bs: seq<PlannedBye>, round: int, a: string)
    requires NoMatch(ps, round, a) && OneBye(bs, round, a)
    ensures ServedOnce(ps, bs, round, a)
  {}

  lemma SentinelOpponent(roster: seq<Model>, s: nat, r: nat, x: nat)
    requires Even(|roster|) && r < |roster| - 1 && x < s < |roster| && OnlySentinel(roster, s)
    ensures roster[x].modelId != BYE_ID
    ensures Opponent(|roster|, r, x) == s <==> roster[Opponent(|roster|, r, x)].modelId == BYE_ID
  {
    assert roster[x].modelId == BYE_ID <==> x == s;
    var o := Opponent(|roster|, r, x);
    assert roster[o].modelId == BYE_ID <==> o == s;
  }

  lemma ServedEitherWay(input: PlanInput, roster: seq<Model>, bs: seq<PlannedBye>, rounds: nat, r: nat, x: nat,
                        sentinel: bool)
    requires |input.scenarios| > 0 && Even(|roster|) && r < rounds < |roster| && DistinctIds(roster) && x < |roster|
    requires roster[x].modelId != BYE_ID && (sentinel <==> roster[Opponent(|roster|, r, x)].modelId == BYE_ID)
    requires if sentinel then OneBye(bs, r + 1, roster[x].modelId) else PlannedBye(r + 1, roster[x].modelId) !in bs
    ensures ServedOnce(Pairings(input, roster, rounds), bs, r + 1, roster[x].modelId)
  {
    if sentinel {
      UnmatchedWithSentinel(input, roster, rounds, r, x);
      ServedByBye(Pairings(input, roster, rounds), bs, r + 1, roster[x].modelId);
    } else {
      MatchedOnce(input, roster, rounds, r, x);
      ServedByMatch(Pairings(input, roster, rounds), bs, r + 1, roster[x].modelId);
    }
  }

  lemma ServedWithSentinel(input: PlanInput, roster: seq<Model>, s: nat, rounds: nat, r: nat, x: nat)
    requires |input.scenarios| > 0 && Even(|roster|) && r < rounds < |roster| && DistinctIds(roster)
    requires x < s < |roster| && OnlySentinel(roster, s)
    ensures ServedOnce(Pairings(input, roster, rounds), SentinelByes(roster, s, rounds), r + 1, roster[x].modelId)
  {
    OneByeWithSentinel(roster, s, rounds, r, x);
    SentinelOpponent(roster, s, r, x);
    ServedEitherWay(input, roster, SentinelByes(roster, s, rounds), rounds, r, x, Opponent(|roster|, r, x) == s);
  }

  /** In every planned round every model has exactly one match or exactly one bye, never both. */
  lemma EveryModelServedOnce(input: PlanInput, rounds: nat, r: nat, x: nat)
    requires |input.models| >= 2 && |input.scenarios| > 0 && r < rounds < |Roster(input.models)|
    requires DistinctIds(input.models) && NoByeModel(input.models) && x < |input.models|
    ensures ServedOnce(Pairings(input, Roster(input.models), rounds), Byes(Roster(input.models), rounds), r + 1,
                       input.models[x].modelId)
  {
    var roster := Roster(input.models);
    RosterIdsDistinct(input.models);
    if |roster| == |input.models| {
      NoSentinelNoByes(roster, rounds);
      MatchedOnce(input, roster, rounds, r, x);
      ServedByMatch(Pairings(input, roster, rounds), Byes(roster, rounds), r + 1, roster[x].modelId);
    } else {
      SentinelGivesByes(roster, |input.models|, rounds);
      ServedWithSentinel(input, roster, |input.models|, rounds, r, x);
    }
  }

  ghost predicate HasOneBye(bs: seq<PlannedBye>, a: string) {
    && (exists i :: 0 <= i < |bs| && bs[i].modelId == a)
    && (forall i, j :: 0 <= i < j < |bs| ==> !(bs[i].modelId == bs[j].modelId == a))
  }

  lemma OneByeInList(roster: seq<Model>, s: nat, x: nat)
    requires Even(|roster|) && DistinctIds(roster) && x < s < |roster|
    ensures HasOneBye(SentinelByes(roster, s, |roster| - 1), roster[x].modelId)
  {
    var bs := SentinelByes(roster, s, |roster| - 1);
    forall j | 0 <= j < |bs|
      ensures bs[j].modelId == roster[x].modelId <==> j == MeetingRound(|roster|, x, s)
    {
      SentinelByeOf(roster, s, j, x);
      assert bs[j] == SentinelBye(roster, s, j);
    }
    assert bs[MeetingRound(|roster|, x, s)].modelId == roster[x].modelId;
  }

  /** Over the whole schedule an odd field gives every model exactly one bye, and an even field gives none. */
  lemma OneByeEach(models: seq<Model>, x: nat)
    requires |models| >= 2 && DistinctIds(models) && NoByeModel(models) && x < |models|
    ensures |models| % 2 == 1 ==> HasOneBye(Byes(Roster(models), |Roster(models)| - 1), models[x].modelId)
    ensures |models| % 2 == 0 ==> Byes(Roster(models), |Roster(models)| - 1) == []
  {
    var roster := Roster(models);
    RosterIdsDistinct(models);
    if |models| % 2 == 1 {
      SentinelGivesByes(roster, |models|, |roster| - 1);
      OneByeInList(roster, |models|, x);
    } else {
      NoSentinelNoByes(roster, |roster| - 1);
    }
  }
}
