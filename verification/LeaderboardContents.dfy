/** What an entry of the leaderboard reports about the runs of its category and skill, counted from the runs. */
module LeaderboardContents {
  import opened Base
  import opened Sorting
  import opened Aggregation
  import opened ReportStatistics
  import opened StatisticsTheorems
  import opened Leaderboard
  import opened LeaderboardTheorems

  /** The runs of one category and skill, in order. */
  function RunsOf(runs: seq<Observation>, category: string, skillId: string): seq<Observation> {
    if runs == [] then []
    else
      var last := runs[|runs| - 1];
      RunsOf(runs[..|runs| - 1], category, skillId)
        + if last.category == category && last.skillId == skillId then [last] else []
  }

  function Passes(runs: seq<Observation>): nat {
    if runs == [] then 0 else Passes(runs[..|runs| - 1]) + if runs[|runs| - 1].passed then 1 else 0
  }

  function ScoreTotal(runs: seq<Observation>): real {
    if runs == [] then 0.0 else ScoreTotal(runs[..|runs| - 1]) + runs[|runs| - 1].score
  }

  function DurationTotal(runs: seq<Observation>): real {
    if runs == [] then 0.0 else DurationTotal(runs[..|runs| - 1]) + runs[|runs| - 1].wallClockMs
  }

  /** The runs whose cost is verified, and what they cost. */
  function CostedRuns(runs: seq<Observation>): nat {
    if runs == [] then 0 else CostedRuns(runs[..|runs| - 1]) + if runs[|runs| - 1].verifiedCost.Some? then 1 else 0
  }

  function CostTotal(runs: seq<Observation>): real {
    if runs == [] then 0.0
    else
      var last := runs[|runs| - 1];
      CostTotal(runs[..|runs| - 1]) + if last.verifiedCost.Some? then last.verifiedCost.value else 0.0
  }

  /** The runs with a cache ratio in range, and their ratios. */
  predicate CacheInRange(o: Observation) {
    0.0 <= o.cacheHitRatio <= 1.0
  }

  function CachedRuns(runs: seq<Observation>): nat {
    if runs == [] then 0 else CachedRuns(runs[..|runs| - 1]) + if CacheInRange(runs[|runs| - 1]) then 1 else 0
  }

  function CacheTotal(runs: seq<Observation>): real {
    if runs == [] then 0.0
    else
      var last := runs[|runs| - 1];
      CacheTotal(runs[..|runs| - 1]) + if CacheInRange(last) then last.cacheHitRatio else 0.0
  }

  // ----- the model's filters and sums are these

  lemma {:induction false} PassesAre(runs: seq<Observation>)
    ensures |Matching(runs, Passed)| == Passes(runs)
  {
    if runs != [] {
      PassesAre(runs[..|runs| - 1]);
    }
  }

  lemma {:induction false} ScoresAre(runs: seq<Observation>)
    ensures Total(MapSeq(runs, ScoreOf)) == ScoreTotal(runs)
  {
    if runs != [] {
      ScoresAre(runs[..|runs| - 1]);
      assert MapSeq(runs, ScoreOf)[..|runs| - 1] == MapSeq(runs[..|runs| - 1], ScoreOf);
    }
  }

  lemma {:induction false} DurationsAre(runs: seq<Observation>)
    ensures SumBy(runs, DurationOf) == DurationTotal(runs)
  {
    if runs != [] {
      DurationsAre(runs[..|runs| - 1]);
    }
  }

  lemma {:induction false} CostsAre(runs: seq<Observation>)
    ensures |Matching(runs, CostSample)| == CostedRuns(runs)
    ensures SumBy(Matching(runs, CostSample), CostOf) == CostTotal(runs)
  {
    if runs != [] {
      var front, last := runs[..|runs| - 1], runs[|runs| - 1];
      CostsAre(front);
      assert Matching(front, CostSample) + [] == Matching(front, CostSample);
      SumByAppend(Matching(front, CostSample), [last], CostOf);
      assert SumBy([last], CostOf) == CostOf(last);
    }
  }

  lemma {:induction false} CachesAre(runs: seq<Observation>)
    ensures |Matching(runs, CacheSample)| == CachedRuns(runs)
    ensures SumBy(Matching(runs, CacheSample), CacheOf) == CacheTotal(runs)
  {
    if runs != [] {
      var front, last := runs[..|runs| - 1], runs[|runs| - 1];
      CachesAre(front);
      assert Matching(front, CacheSample) + [] == Matching(front, CacheSample);
      SumByAppend(Matching(front, CacheSample), [last], CacheOf);
      assert SumBy([last], CacheOf) == CacheOf(last);
    }
  }

  // ----- the group of a key is the runs of its category and skill

  lemma {:induction false} GroupIsRunsOf(runs: seq<Observation>, k: string, category: string, skillId: string)
    requires forall i :: 0 <= i < |runs| ==>
      (GroupKey(runs[i]) == k <==> runs[i].category == category && runs[i].skillId == skillId)
    ensures Group(runs, GroupKey, k) == RunsOf(runs, category, skillId)
  {
    if runs != [] {
      var front, last := runs[..|runs| - 1], runs[|runs| - 1];
      GroupIsRunsOf(front, k, category, skillId);
      GroupSnoc(front, last, GroupKey, k);
      assert runs == front + [last];
    }
  }

  lemma KeyMeansSkill(runs: seq<Observation>, k: string, e: Entry)
    requires KeysFaithful(runs) && IsEntryOf(runs, k, e)
    ensures Group(runs, GroupKey, k) == RunsOf(runs, e.category, e.skillId)
  {
    var first := Group(runs, GroupKey, k)[0];
    GroupMember(runs, GroupKey, k, first);
    EntryShowsKey(runs, k, e);
    var j :| 0 <= j < |runs| && runs[j] == first;
    forall i | 0 <= i < |runs|
      ensures GroupKey(runs[i]) == k <==> runs[i].category == e.category && runs[i].skillId == e.skillId
    {
      if GroupKey(runs[i]) == k {
        assert GroupKey(runs[i]) == GroupKey(runs[j]);
      }
    }
    GroupIsRunsOf(runs, k, e.category, e.skillId);
  }

  /** A mean over `n` samples that add up to `total`; missing without samples. */
  predicate MeanOver(mean: Option<SampleMean>, n: nat, total: real) {
    if n == 0 then mean == None else mean == Some(SampleMean(total / n as real, n))
  }

  /** What an entry says about the runs of its skill. */
  predicate Reports(e: Entry, runs: seq<Observation>)
    requires runs != []
  {
    var n := |runs|;
    && e.eligibleRunCount == n && e.passCount == Passes(runs) && e.failedBenchmarkCount == n - Passes(runs)
    && e.passRate == Passes(runs) as real / n as real * 100.0
    && e.score.mean == ScoreTotal(runs) / n as real && e.score.sampleCount == n
    && e.duration == SampleMean(DurationTotal(runs) / n as real, n)
    && MeanOver(e.cacheHitRatio, CachedRuns(runs), CacheTotal(runs))
    && MeanOver(e.verifiedActualCost, CostedRuns(runs), CostTotal(runs))
  }

  /** An entry names each scenario, model and provider of these runs once, and no others. */
  ghost predicate Names(e: Entry, runs: seq<Observation>) {
    && Distinct(e.scenarioIds) && Distinct(e.modelIds) && Distinct(e.providerIds)
    && (forall x :: x in e.scenarioIds <==> exists j :: 0 <= j < |runs| && runs[j].scenarioId == x)
    && (forall x :: x in e.modelIds <==> exists j :: 0 <= j < |runs| && runs[j].modelId == x)
    && (forall x :: x in e.providerIds <==> exists j :: 0 <= j < |runs| && runs[j].providerId == x)
  }

  lemma EntryReports(group: seq<Observation>)
    requires group != []
    ensures Reports(EntryOf(group), group)
  {
    PassesAre(group);
    ScoresAre(group);
    MeanIs(MapSeq(group, ScoreOf));
    DurationsAre(group);
    CachesAre(group);
    CostsAre(group);
  }

  lemma NamesAre(runs: seq<Observation>, name: Observation -> string)
    ensures Distinct(UniqueSorted(MapSeq(runs, name)))
    ensures forall x :: x in UniqueSorted(MapSeq(runs, name)) <==> exists j :: 0 <= j < |runs| && name(runs[j]) == x
  {
    var values := MapSeq(runs, name);
    UniqueSortedIs(values);
    forall x ensures x in values <==> exists j :: 0 <= j < |runs| && name(runs[j]) == x {
      if x in values {
        var j :| 0 <= j < |values| && values[j] == x;
        assert name(runs[j]) == x;
      }
      if j :| 0 <= j < |runs| && name(runs[j]) == x {
        assert values[j] == x;
      }
    }
  }

  lemma EntryNames(group: seq<Observation>)
    requires group != []
    ensures Names(EntryOf(group), group)
  {
    NamesAre(group, ScenarioOf);
    NamesAre(group, ModelOf);
    NamesAre(group, ProviderOf);
  }

  /** Every entry on the board reports and names the runs of its category and skill, and there are some. */
  lemma BoardReports(runs: seq<Observation>, locale: (string, string) -> bool, i: nat)
    requires TotalOrder(locale) && BuildLeaderboard(runs, locale).Some? && i < |BuildLeaderboard(runs, locale).value|
    ensures
      var e := BuildLeaderboard(runs, locale).value[i].entry;
      var own := RunsOf(runs, e.category, e.skillId);
      own != [] && Reports(e, own) && Names(e, own)
  {
    var e := BuildLeaderboard(runs, locale).value[i].entry;
    ThrowsExactly(runs, locale);
    BoardEntry(runs, locale, i);
    UnrankedAre(runs);
    var entries := Unranked(runs).value;
    var j :| 0 <= j < |entries| && entries[j] == e;
    var k := KeysOf(runs, GroupKey)[j];
    KeyMeansSkill(runs, k, e);
    EntryReports(Group(runs, GroupKey, k));
    EntryNames(Group(runs, GroupKey, k));
  }

  lemma EntryOfRun(runs: seq<Observation>, o: Observation) returns (e: Entry)
    requires Unranked(runs).Some? && KeysFaithful(runs) && o in runs
    ensures e in Unranked(runs).value && e.category == o.category && e.skillId == o.skillId
  {
    KeysAre(runs, GroupKey);
    UnrankedAre(runs);
    var order := KeysOf(runs, GroupKey);
    var j :| 0 <= j < |order| && order[j] == GroupKey(o);
    e := Unranked(runs).value[j];
    FirstOfKey(runs, o, Group(runs, GroupKey, order[j])[0]);
  }

  lemma FirstOfKey(runs: seq<Observation>, o: Observation, first: Observation)
    requires KeysFaithful(runs) && o in runs && first in Group(runs, GroupKey, GroupKey(o))
    ensures first.category == o.category && first.skillId == o.skillId
  {
    GroupMember(runs, GroupKey, GroupKey(o), first);
  }

  /** Every run is reported by an entry of its category and skill. */
  lemma BoardComplete(runs: seq<Observation>, locale: (string, string) -> bool, o: Observation) returns (i: nat)
    requires TotalOrder(locale) && BuildLeaderboard(runs, locale).Some? && o in runs
    ensures i < |BuildLeaderboard(runs, locale).value|
    ensures var e := BuildLeaderboard(runs, locale).value[i].entry; e.category == o.category && e.skillId == o.skillId
  {
    ThrowsExactly(runs, locale);
    var e := EntryOfRun(runs, o);
    i := EntryOnBoard(runs, locale, e);
  }

  lemma EntryOnBoard(runs: seq<Observation>, locale: (string, string) -> bool, e: Entry) returns (i: nat)
    requires TotalOrder(locale) && BuildLeaderboard(runs, locale).Some? && e in Unranked(runs).value
    ensures i < |BuildLeaderboard(runs, locale).value| && BuildLeaderboard(runs, locale).value[i].entry == e
  {
    var entries, le := Unranked(runs).value, Comparator(locale);
    ComparatorStrict(locale);
    SortCorrect(entries, le);
    SameMembers(Sort(entries, le), entries, e);
    i :| 0 <= i < |entries| && Sort(entries, le)[i] == e;
  }
}
