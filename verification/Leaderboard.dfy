/** The report leaderboard: one entry per category and skill, ranked. */
module Leaderboard {
  import opened Base
  import opened Keys
  import opened Sorting
  import opened Aggregation
  import opened ReportStatistics

  /** What a report sees of an eligible run. */
  datatype Observation = Observation(category: string, skillId: string, scenarioId: string, modelId: string,
                                     providerId: string, passed: bool, score: real, wallClockMs: real,
                                     cacheHitRatio: real, verifiedCost: Option<real>)

  datatype SampleMean = SampleMean(mean: real, sampleCount: nat)

  datatype Entry = Entry(category: string, skillId: string, scenarioIds: seq<string>, modelIds: seq<string>,
                         providerIds: seq<string>, eligibleRunCount: nat, passCount: nat, failedBenchmarkCount: int,
                         passRate: real, score: ObservedStatistics, duration: SampleMean,
                         cacheHitRatio: Option<SampleMean>, verifiedActualCost: Option<SampleMean>)

  datatype Ranked = Ranked(rank: nat, entry: Entry)

  const GroupKey := (o: Observation) => o.category + "\0" + o.skillId
  const Passed := (o: Observation) => o.passed
  const CacheSample := (o: Observation) => 0.0 <= o.cacheHitRatio <= 1.0
  const CostSample := (o: Observation) => o.verifiedCost.Some?
  const ScoreOf := (o: Observation) => o.score
  const DurationOf := (o: Observation) => o.wallClockMs
  const CacheOf := (o: Observation) => o.cacheHitRatio
  const CostOf := (o: Observation) => if o.verifiedCost.Some? then o.verifiedCost.value else 0.0
  const ScenarioOf := (o: Observation) => o.scenarioId
  const ModelOf := (o: Observation) => o.modelId
  const ProviderOf := (o: Observation) => o.providerId
  const ByText := (a: string, b: string) => StrLe(a, b)

  /** `average`, over at least one sample. */
  function Average(samples: seq<Observation>, f: Observation -> real): SampleMean
    requires samples != []
  {
    SampleMean(SumBy(samples, f) / |samples| as real, |samples|)
  }

  function AverageIfAny(samples: seq<Observation>, f: Observation -> real): Option<SampleMean> {
    if samples == [] then None else Some(Average(samples, f))
  }

  function UniqueSorted(values: seq<string>): seq<string> {
    Sort(Dedupe(values), ByText)
  }

  function PassRate(passCount: nat, total: nat): real
    requires total > 0
  {
    passCount as real / total as real * 100.0
  }

  /** Some run of the group has another category or skill than the first. */
  predicate Contradictory(group: seq<Observation>) {
    exists i :: 0 < i < |group| && (group[i].category != group[0].category || group[i].skillId != group[0].skillId)
  }

  /** `buildLeaderboardEntry` */
  function EntryOf(group: seq<Observation>): Entry
    requires group != []
  {
    var passCount := |Matching(group, Passed)|;
    Entry(group[0].category, group[0].skillId, UniqueSorted(MapSeq(group, ScenarioOf)),
          UniqueSorted(MapSeq(group, ModelOf)), UniqueSorted(MapSeq(group, ProviderOf)), |group|, passCount,
          |group| - passCount, PassRate(passCount, |group|), Observe(MapSeq(group, ScoreOf)),
          Average(group, DurationOf), AverageIfAny(Matching(group, CacheSample), CacheOf),
          AverageIfAny(Matching(group, CostSample), CostOf))
  }

  // ----- the comparator

  /** `localeCompare` as an order: `locale(a, b)` says that `a` comes no later than `b`. */
  ghost predicate TotalOrder(locale: (string, string) -> bool) {
    && TotalPreorder(locale)
    && forall a, b :: locale(a, b) && locale(b, a) ==> a == b
  }

  /** `compareLeaderboardEntries` finds `a` no later than `b`. */
  predicate NoLater(a: Entry, b: Entry, locale: (string, string) -> bool) {
    if a.passRate != b.passRate then a.passRate > b.passRate
    else if a.score.mean != b.score.mean then a.score.mean > b.score.mean
    else if a.eligibleRunCount != b.eligibleRunCount then a.eligibleRunCount > b.eligibleRunCount
    else if a.category != b.category then locale(a.category, b.category)
    else locale(a.skillId, b.skillId)
  }

  function Comparator(locale: (string, string) -> bool): (Entry, Entry) -> bool {
    (a: Entry, b: Entry) => NoLater(a, b, locale)
  }

  lemma ComparatorTransitive(a: Entry, b: Entry, c: Entry, locale: (string, string) -> bool)
    requires TotalOrder(locale) && NoLater(a, b, locale) && NoLater(b, c, locale)
    ensures NoLater(a, c, locale)
  {
  }

  /** The comparator is a total preorder, and ties only entries of the same category and skill. */
  lemma ComparatorStrict(locale: (string, string) -> bool)
    requires TotalOrder(locale)
    ensures TotalPreorder(Comparator(locale))
    ensures forall a, b :: NoLater(a, b, locale) && NoLater(b, a, locale) ==>
            a.category == b.category && a.skillId == b.skillId
  {
    var le := Comparator(locale);
    forall a, b, c | le(a, b) && le(b, c) ensures le(a, c) {
      ComparatorTransitive(a, b, c, locale);
    }
  }

  // ----- the leaderboard

  /** `buildLeaderboardEntry` of a group; `None` where it throws. */
  const BuildEntry := (group: seq<Observation>) => if group == [] || Contradictory(group) then None
                      else Some(EntryOf(group))

  /** The entries in the order in which their groups were opened. */
  function Unranked(runs: seq<Observation>): Option<seq<Entry>> {
    MapAll(GroupsOf(runs, GroupKey), BuildEntry)
  }

  function Rank(entries: seq<Entry>): (ranked: seq<Ranked>)
    ensures |ranked| == |entries|
    ensures forall i :: 0 <= i < |entries| ==> ranked[i] == Ranked(i + 1, entries[i])
  {
    seq(|entries|, i requires 0 <= i < |entries| => Ranked(i + 1, entries[i]))
  }

  /** `buildReportLeaderboard`; `None` where it throws. */
  function BuildLeaderboard(runs: seq<Observation>, locale: (string, string) -> bool): Option<seq<Ranked>> {
    var unranked := Unranked(runs);
    if unranked.None? then None else Some(Rank(Sort(unranked.value, Comparator(locale))))
  }

  /** `unranked.map((entry, index) => ...)` */
  method RankEntries(sorted: seq<Entry>) returns (ranked: seq<Ranked>)
    ensures ranked == Rank(sorted)
  {
    ranked := [];
    for index := 0 to |sorted|
      invariant |ranked| == index && forall j :: 0 <= j < index ==> ranked[j] == Ranked(j + 1, sorted[j])
    {
      ranked := ranked + [Ranked(index + 1, sorted[index])];
    }
  }

  /** The same leaderboard, by the loops of the source. */
  method BuildReportLeaderboard(runs: seq<Observation>, locale: (string, string) -> bool)
    returns (leaderboard: Option<seq<Ranked>>)
    ensures leaderboard == BuildLeaderboard(runs, locale)
  {
    var unranked := BuildGroups(runs, GroupKey, BuildEntry);
    if unranked.None? {
      return None;
    }
    var ranked := RankEntries(Sort(unranked.value, Comparator(locale)));
    return Some(ranked);
  }

  /** Runs with the same group key have the same category and skill. */
  predicate KeysFaithful(runs: seq<Observation>) {
    forall i, j :: 0 <= i < |runs| && 0 <= j < |runs| && GroupKey(runs[i]) == GroupKey(runs[j]) ==>
      runs[i].category == runs[j].category && runs[i].skillId == runs[j].skillId
  }

  lemma MixedGroupUnfaithful(runs: seq<Observation>, k: string)
    requires Contradictory(Group(runs, GroupKey, k))
    ensures !KeysFaithful(runs)
  {
    var group := Group(runs, GroupKey, k);
    var j :| 0 < j < |group| && (group[j].category != group[0].category || group[j].skillId != group[0].skillId);
    GroupMember(runs, GroupKey, k, group[0]);
    GroupMember(runs, GroupKey, k, group[j]);
  }

  lemma PureGroupAgrees(runs: seq<Observation>, a: Observation, b: Observation)
    requires a in runs && b in runs && GroupKey(a) == GroupKey(b) && !Contradictory(Group(runs, GroupKey, GroupKey(a)))
    ensures a.category == b.category && a.skillId == b.skillId
  {
    GroupMember(runs, GroupKey, GroupKey(a), a);
    GroupMember(runs, GroupKey, GroupKey(a), b);
  }

  /** Nothing throws exactly when no group is mixed. */
  lemma UnrankedExists(runs: seq<Observation>)
    ensures Unranked(runs).Some? <==>
            forall k :: k in KeysOf(runs, GroupKey) ==> !Contradictory(Group(runs, GroupKey, k))
  {
    KeysAre(runs, GroupKey);
    MapAllIs(GroupsOf(runs, GroupKey), BuildEntry);
    var order, groups := KeysOf(runs, GroupKey), GroupsOf(runs, GroupKey);
    forall i | 0 <= i < |order|
      ensures BuildEntry(groups[i]).None? <==> Contradictory(Group(runs, GroupKey, order[i]))
    {
      assert order[i] in order;
    }
  }

  /**
   * The builder throws exactly when two runs share a key and not their identity, as a NUL inside a name can make them.
   */
  lemma ThrowsExactly(runs: seq<Observation>, locale: (string, string) -> bool)
    ensures BuildLeaderboard(runs, locale).None? <==> !KeysFaithful(runs)
  {
    UnrankedExists(runs);
    if Unranked(runs).None? {
      var k :| k in KeysOf(runs, GroupKey) && Contradictory(Group(runs, GroupKey, k));
      MixedGroupUnfaithful(runs, k);
    } else {
      KeysAre(runs, GroupKey);
      forall i, j | 0 <= i < |runs| && 0 <= j < |runs| && GroupKey(runs[i]) == GroupKey(runs[j])
        ensures runs[i].category == runs[j].category && runs[i].skillId == runs[j].skillId
      {
        PureGroupAgrees(runs, runs[i], runs[j]);
      }
    }
  }

  /** A run of a skill, with nothing else to tell it by. */
  function RunOf(category: string, skillId: string): Observation {
    Observation(category, skillId, "s", "m", "p", true, 50.0, 1.0, 0.5, None)
  }

  /**
   * A NUL in one category and in the other skill makes two runs of different skills share a key: the builder throws.
   */
  lemma NulKeysThrow(a: string, b: string, c: string, locale: (string, string) -> bool)
    ensures BuildLeaderboard([RunOf(a + "\0" + b, c), RunOf(a, b + "\0" + c)], locale).None?
  {
    var runs := [RunOf(a + "\0" + b, c), RunOf(a, b + "\0" + c)];
    assert a + "\0" + b + "\0" + c == a + "\0" + (b + "\0" + c);
    assert GroupKey(runs[0]) == GroupKey(runs[1]);
    assert |runs[0].category| > |runs[1].category|;
    ThrowsExactly(runs, locale);
  }

  /** Categories without NUL are enough. */
  lemma NulFreeFaithful(runs: seq<Observation>)
    requires forall i :: 0 <= i < |runs| ==> '\0' !in runs[i].category
    ensures KeysFaithful(runs)
  {
    forall i, j | 0 <= i < |runs| && 0 <= j < |runs| && GroupKey(runs[i]) == GroupKey(runs[j])
      ensures runs[i].category == runs[j].category && runs[i].skillId == runs[j].skillId
    {
      SeparatorSplits(runs[i].category, runs[i].skillId, runs[j].category, runs[j].skillId, '\0');
    }
  }
}
