/** `normalizeTournamentPlan`: the re-check of a plan, written against a pairwise specification. */
module PlanValidation {
  import opened Base
  import opened Keys
  import opened TournamentTypes

  // ----- the specification

  function CeilHalf(n: nat): nat {
    (n + 1) / 2
  }

  predicate SharePlayer(p: Pairing, q: Pairing) {
    p.modelA == q.modelA || p.modelA == q.modelB || p.modelB == q.modelA || p.modelB == q.modelB
  }

  predicate SameProvider(id: string, provider: string, id': string, provider': string) {
    id == id' ==> provider == provider'
  }

  predicate ProvidersAgree(p: Pairing, q: Pairing) {
    && SameProvider(p.modelA, p.providerA, q.modelA, q.providerA)
    && SameProvider(p.modelA, p.providerA, q.modelB, q.providerB)
    && SameProvider(p.modelB, p.providerB, q.modelA, q.providerA)
    && SameProvider(p.modelB, p.providerB, q.modelB, q.providerB)
  }

  /** Two pairings can stand in one plan. */
  predicate Compatible(p: Pairing, q: Pairing) {
    && !(p.roundNumber == q.roundNumber && p.matchIndex == q.matchIndex)
    && PairKey(p.modelA, p.modelB) != PairKey(q.modelA, q.modelB)
    && !(p.roundNumber == q.roundNumber && SharePlayer(p, q))
    && ProvidersAgree(p, q)
    && p.skillId == q.skillId
  }

  predicate Admissible(p: Pairing, unplanned: seq<int>, modelCount: nat) {
    && p.roundNumber !in unplanned
    && p.matchIndex < CeilHalf(modelCount)
    && SameProvider(p.modelA, p.providerA, p.modelB, p.providerB)
  }

  ghost predicate PairingsConsistent(pairings: seq<Pairing>, unplanned: seq<int>, modelCount: nat) {
    && (forall i :: 0 <= i < |pairings| ==> Admissible(pairings[i], unplanned, modelCount))
    && (forall i, j :: 0 <= i < j < |pairings| ==> Compatible(pairings[i], pairings[j]))
  }

  ghost predicate ByesConsistent(byes: seq<PlannedBye>, pairings: seq<Pairing>, unplanned: seq<int>) {
    && (forall i :: 0 <= i < |byes| ==> byes[i].roundNumber !in unplanned)
    && (forall i, j :: 0 <= i < j < |byes| ==> byes[i].roundNumber != byes[j].roundNumber)
    && (forall i, j :: 0 <= i < |byes| && 0 <= j < |pairings| ==>
        !Plays(pairings[j], byes[i].roundNumber, byes[i].modelId))
  }

  // ----- the sets and the map that the loop keeps, as functions of the pairings read so far

  predicate HasNumbers(p: Pairing) {
    p.roundNumber >= 0 && p.matchIndex >= 0
  }

  function MatchKey(p: Pairing): string
    requires HasNumbers(p)
  {
    NumberKey(p.roundNumber, Decimal(p.matchIndex))
  }

  predicate Numbered(pairings: seq<Pairing>) {
    forall i :: 0 <= i < |pairings| ==> HasNumbers(pairings[i])
  }

  ghost predicate MatchKeysOf(keys: set<string>, pairings: seq<Pairing>)
    requires Numbered(pairings)
  {
    forall key :: key in keys <==> exists i :: 0 <= i < |pairings| && key == MatchKey(pairings[i])
  }

  ghost predicate PairKeysOf(keys: set<string>, pairings: seq<Pairing>) {
    forall key :: key in keys <==>
      exists i :: 0 <= i < |pairings| && key == PairKey(pairings[i].modelA, pairings[i].modelB)
  }

  ghost predicate ParticipantsOf(keys: set<string>, pairings: seq<Pairing>)
    requires Numbered(pairings)
  {
    forall key :: key in keys <==>
      exists i :: 0 <= i < |pairings| && (key == NumberKey(pairings[i].roundNumber, pairings[i].modelA) ||
                                          key == NumberKey(pairings[i].roundNumber, pairings[i].modelB))
  }

  ghost predicate BindingsOf(bound: set<(string, string)>, pairings: seq<Pairing>) {
    forall b :: b in bound <==>
      exists i :: 0 <= i < |pairings| && (b == (pairings[i].modelA, pairings[i].providerA) ||
                                          b == (pairings[i].modelB, pairings[i].providerB))
  }

  /** The map `providers` holds exactly the bindings made so far. */
  ghost predicate Holds(providers: map<string, string>, bound: set<(string, string)>) {
    && (forall b :: b in bound ==> b.0 in providers && providers[b.0] == b.1)
    && (forall id :: id in providers ==> (id, providers[id]) in bound)
  }

  lemma MatchKeyFresh(keys: set<string>, pairings: seq<Pairing>, p: Pairing)
    requires Numbered(pairings) && HasNumbers(p) && MatchKeysOf(keys, pairings)
    ensures MatchKey(p) in keys <==>
            exists i :: 0 <= i < |pairings| && pairings[i].roundNumber == p.roundNumber &&
              pairings[i].matchIndex == p.matchIndex
  {
    forall i | 0 <= i < |pairings|
      ensures MatchKey(p) == MatchKey(pairings[i]) <==>
              pairings[i].roundNumber == p.roundNumber && pairings[i].matchIndex == p.matchIndex
    {
      var q := pairings[i];
      NumberKeyInjective(p.roundNumber, Decimal(p.matchIndex), q.roundNumber, Decimal(q.matchIndex));
      DecimalRoundTrip(p.matchIndex);
      DecimalRoundTrip(q.matchIndex);
    }
  }

  lemma ParticipantFresh(keys: set<string>, pairings: seq<Pairing>, round: nat, id: string)
    requires Numbered(pairings) && ParticipantsOf(keys, pairings)
    ensures NumberKey(round, id) in keys <==> exists i :: 0 <= i < |pairings| && Plays(pairings[i], round, id)
  {
    forall i | 0 <= i < |pairings|
      ensures Plays(pairings[i], round, id) <==>
              NumberKey(round, id) == NumberKey(pairings[i].roundNumber, pairings[i].modelA) ||
              NumberKey(round, id) == NumberKey(pairings[i].roundNumber, pairings[i].modelB)
    {
      NumberKeyInjective(round, id, pairings[i].roundNumber, pairings[i].modelA);
      NumberKeyInjective(round, id, pairings[i].roundNumber, pairings[i].modelB);
    }
  }

  /** `bindModelProvider` */
  function BindModelProvider(providers: map<string, string>, modelId: string,
                             providerId: string): (r: (bool, map<string, string>))
  {
    if modelId in providers then (providers[modelId] == providerId, providers)
    else (true, providers[modelId := providerId])
  }

  lemma BindOne(providers: map<string, string>, bound: set<(string, string)>, id: string, provider: string)
    requires Holds(providers, bound)
    ensures BindModelProvider(providers, id, provider).0 <==>
            forall b :: b in bound ==> SameProvider(b.0, b.1, id, provider)
    ensures BindModelProvider(providers, id, provider).0 ==>
              Holds(BindModelProvider(providers, id, provider).1, bound + {(id, provider)})
  {}

  lemma BindingsAgree(bound: set<(string, string)>, pairings: seq<Pairing>, p: Pairing)
    requires BindingsOf(bound, pairings)
    ensures (forall i :: 0 <= i < |pairings| ==> ProvidersAgree(pairings[i], p)) <==>
            forall b :: b in bound ==>
              SameProvider(b.0, b.1, p.modelA, p.providerA) && SameProvider(b.0, b.1, p.modelB, p.providerB)
  {
    if forall b :: b in bound ==>
      SameProvider(b.0, b.1, p.modelA, p.providerA) && SameProvider(b.0, b.1, p.modelB, p.providerB)
    {
      forall i | 0 <= i < |pairings|
        ensures ProvidersAgree(pairings[i], p)
      {
        assert (pairings[i].modelA, pairings[i].providerA) in bound;
        assert (pairings[i].modelB, pairings[i].providerB) in bound;
      }
    }
  }

  // ----- one more pairing

  ghost predicate CompatibleWithAll(pairings: seq<Pairing>, p: Pairing) {
    forall i :: 0 <= i < |pairings| ==> Compatible(pairings[i], p)
  }

  lemma ConsistentSnoc(pairings: seq<Pairing>, p: Pairing, unplanned: seq<int>, modelCount: nat)
    ensures PairingsConsistent(pairings + [p], unplanned, modelCount) <==>
            PairingsConsistent(pairings, unplanned, modelCount) && Admissible(p, unplanned, modelCount) &&
            CompatibleWithAll(pairings, p)
  {
    var all := pairings + [p];
    if PairingsConsistent(all, unplanned, modelCount) {
      assert all[|pairings|] == p;
      assert forall i :: 0 <= i < |pairings| ==> all[i] == pairings[i];
    }
  }

  lemma ConsistentPrefix(pairings: seq<Pairing>, n: nat, unplanned: seq<int>, modelCount: nat)
    requires n <= |pairings| && PairingsConsistent(pairings, unplanned, modelCount)
    ensures PairingsConsistent(pairings[..n], unplanned, modelCount)
  {}

  /** The sets, the map and the skill that the reading loop keeps. */
  datatype Seen = Seen(matchIndexes: set<string>, roundParticipants: set<string>, pairedModels: set<string>,
                       modelProviders: map<string, string>, tournamentSkillId: Option<string>)

  ghost predicate SkillOf(skill: Option<string>, pairings: seq<Pairing>) {
    && (skill.None? <==> pairings == [])
    && (forall i :: 0 <= i < |pairings| ==> skill == Some(pairings[i].skillId))
  }

  ghost predicate SeenOf(s: Seen, bound: set<(string, string)>, pairings: seq<Pairing>)
    requires Numbered(pairings)
  {
    && MatchKeysOf(s.matchIndexes, pairings)
    && ParticipantsOf(s.roundParticipants, pairings)
    && PairKeysOf(s.pairedModels, pairings)
    && BindingsOf(bound, pairings)
    && Holds(s.modelProviders, bound)
    && SkillOf(s.tournamentSkillId, pairings)
  }

  lemma MatchKeysSnoc(keys: set<string>, pairings: seq<Pairing>, p: Pairing)
    requires Numbered(pairings) && HasNumbers(p) && MatchKeysOf(keys, pairings)
    ensures Numbered(pairings + [p]) && MatchKeysOf(keys + {MatchKey(p)}, pairings + [p])
  {
    var all := pairings + [p];
    assert all[|pairings|] == p;
    assert forall i :: 0 <= i < |pairings| ==> all[i] == pairings[i];
  }

  lemma PairKeysSnoc(keys: set<string>, pairings: seq<Pairing>, p: Pairing)
    requires PairKeysOf(keys, pairings)
    ensures PairKeysOf(keys + {PairKey(p.modelA, p.modelB)}, pairings + [p])
  {
    var all := pairings + [p];
    assert all[|pairings|] == p;
    assert forall i :: 0 <= i < |pairings| ==> all[i] == pairings[i];
  }

  lemma ParticipantsSnoc(keys: set<string>, pairings: seq<Pairing>, p: Pairing)
    requires Numbered(pairings) && HasNumbers(p) && ParticipantsOf(keys, pairings)
    ensures Numbered(pairings + [p])
    ensures ParticipantsOf(keys + {NumberKey(p.roundNumber, p.modelA)} + {NumberKey(p.roundNumber, p.modelB)},
                           pairings + [p])
  {
    var all := pairings + [p];
    assert all[|pairings|] == p;
    assert forall i :: 0 <= i < |pairings| ==> all[i] == pairings[i];
  }

  lemma BindingsSnoc(bound: set<(string, string)>, pairings: seq<Pairing>, p: Pairing)
    requires BindingsOf(bound, pairings)
    ensures BindingsOf(bound + {(p.modelA, p.providerA)} + {(p.modelB, p.providerB)}, pairings + [p])
  {
    var all := pairings + [p];
    assert all[|pairings|] == p;
    assert forall i :: 0 <= i < |pairings| ==> all[i] == pairings[i];
  }

  /** The loop's tests of one pairing `p`, after the pairings read so far. */
  predicate Rejected(s: Seen, p: Pairing, unplannedRounds: set<int>, maximumMatchIndex: int)
    requires HasNumbers(p)
  {
    var (boundA, providersA) := BindModelProvider(s.modelProviders, p.modelA, p.providerA);
    var (boundB, _) := BindModelProvider(providersA, p.modelB, p.providerB);
    || p.roundNumber in unplannedRounds
    || p.matchIndex >= maximumMatchIndex
    || MatchKey(p) in s.matchIndexes
    || PairKey(p.modelA, p.modelB) in s.pairedModels
    || NumberKey(p.roundNumber, p.modelA) in s.roundParticipants
    || NumberKey(p.roundNumber, p.modelB) in s.roundParticipants
    || !boundA
    || !boundB
    || (s.tournamentSkillId.Some? && p.skillId != s.tournamentSkillId.value)
  }

  function Remember(s: Seen, p: Pairing): Seen
    requires HasNumbers(p)
  {
    var (_, providersA) := BindModelProvider(s.modelProviders, p.modelA, p.providerA);
    var (_, providersB) := BindModelProvider(providersA, p.modelB, p.providerB);
    Seen(s.matchIndexes + {MatchKey(p)},
         s.roundParticipants + {NumberKey(p.roundNumber, p.modelA)} + {NumberKey(p.roundNumber, p.modelB)},
         s.pairedModels + {PairKey(p.modelA, p.modelB)},
         providersB,
         Some(p.skillId))
  }

  lemma KeyTestsMean(s: Seen, bound: set<(string, string)>, pairings: seq<Pairing>, p: Pairing)
    requires Numbered(pairings) && HasNumbers(p) && SeenOf(s, bound, pairings)
    ensures && MatchKey(p) !in s.matchIndexes
            && PairKey(p.modelA, p.modelB) !in s.pairedModels
            && NumberKey(p.roundNumber, p.modelA) !in s.roundParticipants
            && NumberKey(p.roundNumber, p.modelB) !in s.roundParticipants
        <==> forall i :: 0 <= i < |pairings| ==>
          && !(pairings[i].roundNumber == p.roundNumber && pairings[i].matchIndex == p.matchIndex)
          && PairKey(pairings[i].modelA, pairings[i].modelB) != PairKey(p.modelA, p.modelB)
          && !(pairings[i].roundNumber == p.roundNumber && SharePlayer(pairings[i], p))
  {
    MatchKeyFresh(s.matchIndexes, pairings, p);
    ParticipantFresh(s.roundParticipants, pairings, p.roundNumber, p.modelA);
    ParticipantFresh(s.roundParticipants, pairings, p.roundNumber, p.modelB);
    forall i | 0 <= i < |pairings|
      ensures pairings[i].roundNumber == p.roundNumber && SharePlayer(pairings[i], p) <==>
              Plays(pairings[i], p.roundNumber, p.modelA) || Plays(pairings[i], p.roundNumber, p.modelB)
    {}
  }

  lemma BindTestsMean(s: Seen, bound: set<(string, string)>, pairings: seq<Pairing>, p: Pairing)
    requires Numbered(pairings) && SeenOf(s, bound, pairings)
    ensures var (boundA, providersA) := BindModelProvider(s.modelProviders, p.modelA, p.providerA);
      var (boundB, providersB) := BindModelProvider(providersA, p.modelB, p.providerB);
      && (boundA && boundB <==> SameProvider(p.modelA, p.providerA, p.modelB, p.providerB) &&
                                forall i :: 0 <= i < |pairings| ==> ProvidersAgree(pairings[i], p))
      && (boundA && boundB ==> Holds(providersB, bound + {(p.modelA, p.providerA)} + {(p.modelB, p.providerB)}))
  {
    var (boundA, providersA) := BindModelProvider(s.modelProviders, p.modelA, p.providerA);
    BindOne(s.modelProviders, bound, p.modelA, p.providerA);
    BindingsAgree(bound, pairings, p);
    if boundA {
      BindOne(providersA, bound + {(p.modelA, p.providerA)}, p.modelB, p.providerB);
    }
  }

  /** A pairing passes the tests exactly when it fits the plan read so far. */
  lemma TestsMean(s: Seen, bound: set<(string, string)>, pairings: seq<Pairing>, p: Pairing, unplanned: seq<int>,
                  modelCount: nat)
    requires Numbered(pairings) && HasNumbers(p) && SeenOf(s, bound, pairings)
    ensures !Rejected(s, p, (set r | r in unplanned), CeilHalf(modelCount)) <==>
            Admissible(p, unplanned, modelCount) && CompatibleWithAll(pairings, p)
  {
    KeyTestsMean(s, bound, pairings, p);
    BindTestsMean(s, bound, pairings, p);
    assert s.tournamentSkillId.None? || s.tournamentSkillId.value == p.skillId <==>
           forall i :: 0 <= i < |pairings| ==> pairings[i].skillId == p.skillId by {
      if pairings != [] { assert s.tournamentSkillId == Some(pairings[0].skillId); }
    }
  }

  lemma RememberSeen(s: Seen, bound: set<(string, string)>, pairings: seq<Pairing>, p: Pairing, unplanned: seq<int>,
                     modelCount: nat)
    requires Numbered(pairings) && HasNumbers(p) && SeenOf(s, bound, pairings)
    requires !Rejected(s, p, (set r | r in unplanned), CeilHalf(modelCount))
    ensures Numbered(pairings + [p])
    ensures SeenOf(Remember(s, p), bound + {(p.modelA, p.providerA)} + {(p.modelB, p.providerB)}, pairings + [p])
  {
    TestsMean(s, bound, pairings, p, unplanned, modelCount);
    MatchKeysSnoc(s.matchIndexes, pairings, p);
    PairKeysSnoc(s.pairedModels, pairings, p);
    ParticipantsSnoc(s.roundParticipants, pairings, p);
    BindingsSnoc(bound, pairings, p);
    BindTestsMean(s, bound, pairings, p);
    assert SkillOf(Some(p.skillId), pairings + [p]);
  }

  /** The loop over the pairings in `validatePlanSchedule`. */
  method ReadPairings(pairings: seq<Pairing>, unplanned: seq<int>, modelCount: nat)
    returns (ok: bool, roundParticipants: set<string>)
    requires Numbered(pairings)
    ensures ok <==> PairingsConsistent(pairings, unplanned, modelCount)
    ensures ok ==> ParticipantsOf(roundParticipants, pairings)
  {
    var seen := Seen({}, {}, {}, map[], None);
    ghost var bound: set<(string, string)> := {};
    var unplannedRounds := set r | r in unplanned;
    var maximumMatchIndex := CeilHalf(modelCount);
    for n := 0 to |pairings|
      invariant SeenOf(seen, bound, pairings[..n])
      invariant PairingsConsistent(pairings[..n], unplanned, modelCount)
    {
      var p := pairings[n];
      assert pairings[..n + 1] == pairings[..n] + [p];
      TestsMean(seen, bound, pairings[..n], p, unplanned, modelCount);
      ConsistentSnoc(pairings[..n], p, unplanned, modelCount);
      if Rejected(seen, p, unplannedRounds, maximumMatchIndex) {
        if PairingsConsistent(pairings, unplanned, modelCount) {
          ConsistentPrefix(pairings, n + 1, unplanned, modelCount);
        }
        return false, {};
      }
      RememberSeen(seen, bound, pairings[..n], p, unplanned, modelCount);
      seen := Remember(seen, p);
      bound := bound + {(p.modelA, p.providerA)} + {(p.modelB, p.providerB)};
    }
    assert pairings[..|pairings|] == pairings;
    return true, seen.roundParticipants;
  }

  ghost predicate ByeParticipants(keys: set<string>, byes: seq<PlannedBye>, pairings: seq<Pairing>)
    requires Numbered(pairings)
  {
    forall round: nat, id ::
      NumberKey(round, id) in keys <==>
        (exists i :: 0 <= i < |pairings| && Plays(pairings[i], round, id)) || PlannedBye(round, id) in byes
  }

  lemma ByeParticipantsSnoc(keys: set<string>, byes: seq<PlannedBye>, pairings: seq<Pairing>, bye: PlannedBye)
    requires Numbered(pairings) && bye.roundNumber >= 0 && ByeParticipants(keys, byes, pairings)
    ensures ByeParticipants(keys + {NumberKey(bye.roundNumber, bye.modelId)}, byes + [bye], pairings)
  {
    forall round: nat, id
      ensures NumberKey(round, id) == NumberKey(bye.roundNumber, bye.modelId) <==> PlannedBye(round, id) == bye
    {
      NumberKeyInjective(round, id, bye.roundNumber, bye.modelId);
    }
  }

  ghost predicate ByeFits(bye: PlannedBye, byes: seq<PlannedBye>, pairings: seq<Pairing>, unplanned: seq<int>) {
    && bye.roundNumber !in unplanned
    && (forall i :: 0 <= i < |byes| ==> byes[i].roundNumber != bye.roundNumber)
    && (forall j :: 0 <= j < |pairings| ==> !Plays(pairings[j], bye.roundNumber, bye.modelId))
  }

  lemma ByesSnoc(bye: PlannedBye, byes: seq<PlannedBye>, pairings: seq<Pairing>, unplanned: seq<int>)
    ensures ByesConsistent(byes + [bye], pairings, unplanned) <==>
            ByesConsistent(byes, pairings, unplanned) && ByeFits(bye, byes, pairings, unplanned)
  {
    var all := byes + [bye];
    assert all[|byes|] == bye;
    assert forall i :: 0 <= i < |byes| ==> all[i] == byes[i];
  }

  lemma ByesPrefix(byes: seq<PlannedBye>, n: nat, pairings: seq<Pairing>, unplanned: seq<int>)
    requires n <= |byes| && ByesConsistent(byes, pairings, unplanned)
    ensures ByesConsistent(byes[..n], pairings, unplanned)
  {}

  ghost predicate RoundsOf(rounds: set<int>, byes: seq<PlannedBye>) {
    forall r :: r in rounds <==> exists i :: 0 <= i < |byes| && byes[i].roundNumber == r
  }

  lemma RoundsSnoc(rounds: set<int>, byes: seq<PlannedBye>, bye: PlannedBye)
    requires RoundsOf(rounds, byes)
    ensures RoundsOf(rounds + {bye.roundNumber}, byes + [bye])
  {
    var all := byes + [bye];
    forall r ensures r in rounds + {bye.roundNumber} <==> exists i :: 0 <= i < |all| && all[i].roundNumber == r {
      if r == bye.roundNumber {
        assert all[|byes|].roundNumber == r;
      } else if r in rounds {
        var i :| 0 <= i < |byes| && byes[i].roundNumber == r;
        assert all[i].roundNumber == r;
      }
    }
  }

  /** The three lookups of the loop reject a bye exactly when it does not fit. */
  lemma ByeTest(bye: PlannedBye, byes: seq<PlannedBye>, pairings: seq<Pairing>, unplanned: seq<int>, rounds: set<int>,
                keys: set<string>)
    requires Numbered(pairings) && bye.roundNumber >= 0 && RoundsOf(rounds, byes)
    requires ByeParticipants(keys, byes, pairings)
    ensures ByeFits(bye, byes, pairings, unplanned) <==>
            bye.roundNumber !in unplanned && bye.roundNumber !in rounds &&
            NumberKey(bye.roundNumber, bye.modelId) !in keys
  {
    var round: nat := bye.roundNumber;
    assert PlannedBye(round, bye.modelId) == bye;
    assert NumberKey(round, bye.modelId) in keys <==>
           (exists i :: 0 <= i < |pairings| && Plays(pairings[i], round, bye.modelId)) || bye in byes;
    if bye in byes {
      var i :| 0 <= i < |byes| && byes[i] == bye;
      assert byes[i].roundNumber == bye.roundNumber;
    }
  }

  /** The loop over the byes in `validatePlanSchedule`. */
  method ReadByes(byes: seq<PlannedBye>, pairings: seq<Pairing>, participants: set<string>, unplanned: seq<int>)
    returns (ok: bool)
    requires Numbered(pairings) && ParticipantsOf(participants, pairings)
    requires forall i :: 0 <= i < |byes| ==> byes[i].roundNumber >= 0
    ensures ok <==> ByesConsistent(byes, pairings, unplanned)
  {
    var byeRounds: set<int>, roundParticipants := {}, participants;
    var unplannedRounds := set r | r in unplanned;
    forall round: nat, id { ParticipantFresh(participants, pairings, round, id); }
    for n := 0 to |byes|
      invariant RoundsOf(byeRounds, byes[..n])
      invariant ByeParticipants(roundParticipants, byes[..n], pairings)
      invariant ByesConsistent(byes[..n], pairings, unplanned)
    {
      var bye := byes[n];
      assert byes[..n + 1] == byes[..n] + [bye];
      ByesSnoc(bye, byes[..n], pairings, unplanned);
      ByeTest(bye, byes[..n], pairings, unplanned, byeRounds, roundParticipants);
      if bye.roundNumber in unplannedRounds || bye.roundNumber in byeRounds ||
         NumberKey(bye.roundNumber, bye.modelId) in roundParticipants
      {
        if ByesConsistent(byes, pairings, unplanned) {
          ByesPrefix(byes, n + 1, pairings, unplanned);
        }
        return false;
      }
      ByeParticipantsSnoc(roundParticipants, byes[..n], pairings, bye);
      RoundsSnoc(byeRounds, byes[..n], bye);
      byeRounds := byeRounds + {bye.roundNumber};
      roundParticipants := roundParticipants + {NumberKey(bye.roundNumber, bye.modelId)};
    }
    assert byes[..|byes|] == byes;
    return true;
  }

  /** `validatePlanSchedule` accepts exactly the pairwise consistent schedules. */
  method ValidatePlanSchedule(pairings: seq<Pairing>, byes: seq<PlannedBye>, unplanned: seq<int>, modelCount: nat)
    returns (ok: bool)
    requires Numbered(pairings)
    requires forall i :: 0 <= i < |byes| ==> byes[i].roundNumber >= 0
    ensures ok <==> PairingsConsistent(pairings, unplanned, modelCount) && ByesConsistent(byes, pairings, unplanned)
  {
    var participants;
    ok, participants := ReadPairings(pairings, unplanned, modelCount);
    if ok {
      ok := ReadByes(byes, pairings, participants, unplanned);
    }
  }
}
