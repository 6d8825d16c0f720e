/** Leaderboards conserve their runs and do not depend on the order in which the runs come. */
module LeaderboardTheorems {
  import opened Base
  import opened Sorting
  import opened Aggregation
  import opened ReportStatistics
  import opened Leaderboard

  // ----- an entry does not depend on the order of its group

  lemma TextOrder()
    ensures TotalPreorder(ByText) && forall a, b :: ByText(a, b) && ByText(b, a) ==> a == b
  {
    forall a, b ensures ByText(a, b) || ByText(b, a) {
      StrLeTotal(a, b);
    }
    forall a, b, c | ByText(a, b) && ByText(b, c) ensures ByText(a, c) {
      StrLeTransitive(a, b, c);
    }
    forall a, b | ByText(a, b) && ByText(b, a) ensures a == b {
      StrLeAntisymmetric(a, b);
    }
  }

  /** `[...new Set(values)].sort()`: every value once, in order. */
  lemma UniqueSortedIs(values: seq<string>)
    ensures Sorted(UniqueSorted(values), ByText) && Distinct(UniqueSorted(values))
    ensures forall x :: x in UniqueSorted(values) <==> x in values
  {
    TextOrder();
    DedupeIs(values);
    SortCorrect(Dedupe(values), ByText);
    DistinctKept(Dedupe(values), UniqueSorted(values));
    forall x ensures x in UniqueSorted(values) <==> x in values {
      SameMembers(Dedupe(values), UniqueSorted(values), x);
    }
  }

  lemma UniqueSortedPermutation(a: seq<string>, b: seq<string>)
    requires multiset(a) == multiset(b)
    ensures UniqueSorted(a) == UniqueSorted(b)
  {
    TextOrder();
    DedupePermutation(a, b);
    SortOfPermutation(Dedupe(a), Dedupe(b), ByText);
  }

  lemma NamesPermutation(g: seq<Observation>, h: seq<Observation>, f: Observation -> string)
    requires multiset(g) == multiset(h)
    ensures UniqueSorted(MapSeq(g, f)) == UniqueSorted(MapSeq(h, f))
  {
    MapPermutation(g, h, f);
    UniqueSortedPermutation(MapSeq(g, f), MapSeq(h, f));
  }

  lemma AveragePermutation(g: seq<Observation>, h: seq<Observation>, f: Observation -> real)
    requires multiset(g) == multiset(h)
    ensures AverageIfAny(g, f) == AverageIfAny(h, f)
  {
    SameSize(g, h);
    SumByPermutation(g, h, f);
  }

  lemma SamplesPermutation(g: seq<Observation>, h: seq<Observation>, p: Observation -> bool, f: Observation -> real)
    requires multiset(g) == multiset(h)
    ensures |Matching(g, p)| == |Matching(h, p)| && AverageIfAny(Matching(g, p), f) == AverageIfAny(Matching(h, p), f)
  {
    MatchingPermutation(g, h, p);
    SameSize(Matching(g, p), Matching(h, p));
    AveragePermutation(Matching(g, p), Matching(h, p), f);
  }

  lemma ScoresPermutation(g: seq<Observation>, h: seq<Observation>)
    requires multiset(g) == multiset(h) && g != [] && h != []
    ensures Observe(MapSeq(g, ScoreOf)) == Observe(MapSeq(h, ScoreOf))
  {
    MapPermutation(g, h, ScoreOf);
    ObservePermutation(MapSeq(g, ScoreOf), MapSeq(h, ScoreOf));
  }

  lemma SameIdentity(g: seq<Observation>, h: seq<Observation>)
    requires multiset(g) == multiset(h) && g != [] && h != [] && !Contradictory(g)
    ensures h[0].category == g[0].category && h[0].skillId == g[0].skillId
  {
    SameMembers(g, h, h[0]);
  }

  lemma AllNames(g: seq<Observation>, h: seq<Observation>)
    requires multiset(g) == multiset(h)
    ensures UniqueSorted(MapSeq(g, ScenarioOf)) == UniqueSorted(MapSeq(h, ScenarioOf))
    ensures UniqueSorted(MapSeq(g, ModelOf)) == UniqueSorted(MapSeq(h, ModelOf))
    ensures UniqueSorted(MapSeq(g, ProviderOf)) == UniqueSorted(MapSeq(h, ProviderOf))
  {
    NamesPermutation(g, h, ScenarioOf);
    NamesPermutation(g, h, ModelOf);
    NamesPermutation(g, h, ProviderOf);
  }

  lemma AllSamples(g: seq<Observation>, h: seq<Observation>)
    requires multiset(g) == multiset(h)
    ensures |Matching(g, Passed)| == |Matching(h, Passed)|
    ensures AverageIfAny(Matching(g, CacheSample), CacheOf) == AverageIfAny(Matching(h, CacheSample), CacheOf)
    ensures AverageIfAny(Matching(g, CostSample), CostOf) == AverageIfAny(Matching(h, CostSample), CostOf)
    ensures |g| == |h| && AverageIfAny(g, DurationOf) == AverageIfAny(h, DurationOf)
  {
    SameSize(g, h);
    SamplesPermutation(g, h, Passed, ScoreOf);
    SamplesPermutation(g, h, CacheSample, CacheOf);
    SamplesPermutation(g, h, CostSample, CostOf);
    AveragePermutation(g, h, DurationOf);
  }

  lemma EntryPermutation(g: seq<Observation>, h: seq<Observation>)
    requires multiset(g) == multiset(h) && g != [] && h != [] && !Contradictory(g)
    ensures EntryOf(g) == EntryOf(h)
  {
    SameIdentity(g, h);
    AllNames(g, h);
    AllSamples(g, h);
    ScoresPermutation(g, h);
  }

  // ----- the unranked entries

  /** The entry of one key. */
  predicate IsEntryOf(runs: seq<Observation>, k: string, e: Entry) {
    Group(runs, GroupKey, k) != [] && e == EntryOf(Group(runs, GroupKey, k))
  }

  lemma UnrankedAre(runs: seq<Observation>)
    requires Unranked(runs).Some?
    ensures |Unranked(runs).value| == |KeysOf(runs, GroupKey)|
    ensures forall i :: 0 <= i < |Unranked(runs).value| ==>
            IsEntryOf(runs, KeysOf(runs, GroupKey)[i], Unranked(runs).value[i])
  {
    KeysAre(runs, GroupKey);
    var order, groups, entries := KeysOf(runs, GroupKey), GroupsOf(runs, GroupKey), Unranked(runs).value;
    MapAllIs(groups, BuildEntry);
    forall i | 0 <= i < |entries| ensures IsEntryOf(runs, order[i], entries[i]) {
      assert BuildEntry(groups[i]) == Some(entries[i]);
    }
  }

  /** An entry shows its key. */
  lemma EntryShowsKey(runs: seq<Observation>, k: string, e: Entry)
    requires IsEntryOf(runs, k, e)
    ensures e.category + "\0" + e.skillId == k
  {
    var first := Group(runs, GroupKey, k)[0];
    GroupMember(runs, GroupKey, k, first);
  }

  lemma DistinctEntries(runs: seq<Observation>)
    requires Unranked(runs).Some?
    ensures Distinct(Unranked(runs).value)
  {
    UnrankedAre(runs);
    KeysAre(runs, GroupKey);
    var order, entries := KeysOf(runs, GroupKey), Unranked(runs).value;
    forall i, j | 0 <= i < j < |entries| ensures entries[i] != entries[j] {
      EntryShowsKey(runs, order[i], entries[i]);
      EntryShowsKey(runs, order[j], entries[j]);
    }
  }

  lemma SameKeys(a: seq<Observation>, b: seq<Observation>, k: string)
    requires multiset(a) == multiset(b) && k in KeysOf(a, GroupKey)
    ensures k in KeysOf(b, GroupKey)
  {
    MapPermutation(a, b, GroupKey);
    DedupePermutation(MapSeq(a, GroupKey), MapSeq(b, GroupKey));
    SameMembers(KeysOf(a, GroupKey), KeysOf(b, GroupKey), k);
  }

  lemma PureGroup(runs: seq<Observation>, k: string)
    requires Unranked(runs).Some? && k in KeysOf(runs, GroupKey)
    ensures !Contradictory(Group(runs, GroupKey, k)) && Group(runs, GroupKey, k) != []
  {
    UnrankedExists(runs);
    KeysAre(runs, GroupKey);
  }

  /** Every entry of one run order is an entry of the other. */
  lemma EntryCarriesOver(a: seq<Observation>, b: seq<Observation>, e: Entry)
    requires multiset(a) == multiset(b) && Unranked(a).Some? && Unranked(b).Some? && e in Unranked(a).value
    ensures e in Unranked(b).value
  {
    UnrankedAre(a);
    UnrankedAre(b);
    var i :| 0 <= i < |Unranked(a).value| && Unranked(a).value[i] == e;
    var k := KeysOf(a, GroupKey)[i];
    assert k in KeysOf(a, GroupKey);
    SameKeys(a, b, k);
    var j :| 0 <= j < |KeysOf(b, GroupKey)| && KeysOf(b, GroupKey)[j] == k;
    PureGroup(a, k);
    PureGroup(b, k);
    GroupPermutation(a, b, GroupKey, k);
    EntryPermutation(Group(a, GroupKey, k), Group(b, GroupKey, k));
    assert IsEntryOf(b, k, Unranked(b).value[j]);
  }

  lemma UnrankedPermutation(a: seq<Observation>, b: seq<Observation>)
    requires multiset(a) == multiset(b) && Unranked(a).Some? && Unranked(b).Some?
    ensures multiset(Unranked(a).value) == multiset(Unranked(b).value)
  {
    DistinctEntries(a);
    DistinctEntries(b);
    forall e ensures e in Unranked(a).value <==> e in Unranked(b).value {
      if e in Unranked(a).value {
        EntryCarriesOver(a, b, e);
      }
      if e in Unranked(b).value {
        EntryCarriesOver(b, a, e);
      }
    }
    DistinctPermutation(Unranked(a).value, Unranked(b).value);
  }

  lemma EntriesToldApart(runs: seq<Observation>, locale: (string, string) -> bool)
    requires TotalOrder(locale) && Unranked(runs).Some?
    ensures TellsApart(Unranked(runs).value, Comparator(locale))
  {
    ComparatorStrict(locale);
    UnrankedAre(runs);
    KeysAre(runs, GroupKey);
    var order, entries, le := KeysOf(runs, GroupKey), Unranked(runs).value, Comparator(locale);
    forall i, j | 0 <= i < |entries| && 0 <= j < |entries| && le(entries[i], entries[j]) && le(entries[j], entries[i])
      ensures entries[i] == entries[j]
    {
      EntryShowsKey(runs, order[i], entries[i]);
      EntryShowsKey(runs, order[j], entries[j]);
      assert order[i] == order[j];
    }
  }

  // ----- the theorems

  lemma FaithfulPermutation(a: seq<Observation>, b: seq<Observation>)
    requires multiset(a) == multiset(b) && KeysFaithful(a)
    ensures KeysFaithful(b)
  {
    forall i, j | 0 <= i < |b| && 0 <= j < |b| && GroupKey(b[i]) == GroupKey(b[j])
      ensures b[i].category == b[j].category && b[i].skillId == b[j].skillId
    {
      SameMembers(a, b, b[i]);
      SameMembers(a, b, b[j]);
    }
  }

  /** The leaderboard is the same for every order of the runs. */
  lemma OrderIndependent(a: seq<Observation>, b: seq<Observation>, locale: (string, string) -> bool)
    requires multiset(a) == multiset(b) && TotalOrder(locale)
    ensures BuildLeaderboard(a, locale) == BuildLeaderboard(b, locale)
  {
    ThrowsExactly(a, locale);
    ThrowsExactly(b, locale);
    if KeysFaithful(a) {
      FaithfulPermutation(a, b);
      ComparatorStrict(locale);
      UnrankedPermutation(a, b);
      EntriesToldApart(a, locale);
      SortOfPermutation(Unranked(a).value, Unranked(b).value, Comparator(locale));
    } else if KeysFaithful(b) {
      FaithfulPermutation(b, a);
    }
  }

  const CountOf := (e: Entry) => e.eligibleRunCount as real

  /** `leaderboard.reduce((sum, entry) => sum + entry.eligibleRunCount, 0)` */
  function RunsCounted(leaderboard: seq<Ranked>): real {
    SumBy(MapSeq(leaderboard, (r: Ranked) => r.entry), CountOf)
  }

  lemma RankKeepsEntries(entries: seq<Entry>)
    ensures MapSeq(Rank(entries), (r: Ranked) => r.entry) == entries
  {
  }

  lemma {:induction false} CountsAreGroups(runs: seq<Observation>, entries: seq<Entry>, order: seq<string>)
    requires |entries| == |order| && forall i :: 0 <= i < |order| ==> IsEntryOf(runs, order[i], entries[i])
    ensures SumBy(entries, CountOf) == GroupTotal(runs, GroupKey, order) as real
  {
    if entries != [] {
      var n := |entries| - 1;
      CountsAreGroups(runs, entries[..n], order[..n]);
      assert IsEntryOf(runs, order[n], entries[n]);
    }
  }

  /** Grouping partitions the runs: the leaderboard counts each of them once. */
  lemma LeaderboardCountsRuns(runs: seq<Observation>, locale: (string, string) -> bool)
    requires TotalOrder(locale) && BuildLeaderboard(runs, locale).Some?
    ensures RunsCounted(BuildLeaderboard(runs, locale).value) == |runs| as real
  {
    var entries := Unranked(runs).value;
    ComparatorStrict(locale);
    SortCorrect(entries, Comparator(locale));
    RankKeepsEntries(Sort(entries, Comparator(locale)));
    SumByPermutation(Sort(entries, Comparator(locale)), entries, CountOf);
    UnrankedAre(runs);
    CountsAreGroups(runs, entries, KeysOf(runs, GroupKey));
    KeysAre(runs, GroupKey);
    GroupsCoverExactly(runs, GroupKey, KeysOf(runs, GroupKey));
  }

  lemma RankedByComparator(runs: seq<Observation>, locale: (string, string) -> bool, i: nat, j: nat)
    requires TotalOrder(locale) && BuildLeaderboard(runs, locale).Some?
    requires i < j < |BuildLeaderboard(runs, locale).value|
    ensures
      var board := BuildLeaderboard(runs, locale).value;
      && board[i].rank == i + 1 && NoLater(board[i].entry, board[j].entry, locale)
      && !NoLater(board[j].entry, board[i].entry, locale)
  {
    var entries, le := Unranked(runs).value, Comparator(locale);
    var sorted := Sort(entries, le);
    ComparatorStrict(locale);
    SortCorrect(entries, le);
    DistinctEntries(runs);
    EntriesToldApart(runs, locale);
    DistinctKept(entries, sorted);
    assert le(sorted[i], sorted[j]);
    SameMembers(sorted, entries, sorted[i]);
    SameMembers(sorted, entries, sorted[j]);
  }

  /**
   * `a` stands before `b`: the higher pass rate first, then the higher mean score, then more runs, then category and
   * skill in the order of the locale.
   */
  predicate Before(a: Entry, b: Entry, locale: (string, string) -> bool) {
    && a.passRate >= b.passRate
    && (a.passRate == b.passRate ==> a.score.mean >= b.score.mean)
    && (a.passRate == b.passRate && a.score.mean == b.score.mean ==> a.eligibleRunCount >= b.eligibleRunCount)
    && (a.passRate == b.passRate && a.score.mean == b.score.mean && a.eligibleRunCount == b.eligibleRunCount ==>
        locale(a.category, b.category) && (a.category == b.category ==> locale(a.skillId, b.skillId)))
  }

  lemma ComparatorBefore(a: Entry, b: Entry, locale: (string, string) -> bool)
    requires TotalOrder(locale) && NoLater(a, b, locale) && !NoLater(b, a, locale)
    ensures Before(a, b, locale)
  {
    assert locale(a.category, a.category);
  }

  /** Two entries never share category and skill. */
  lemma SkillsDistinct(runs: seq<Observation>, a: Entry, b: Entry)
    requires Unranked(runs).Some? && a in Unranked(runs).value && b in Unranked(runs).value && a != b
    ensures a.category != b.category || a.skillId != b.skillId
  {
    UnrankedAre(runs);
    KeysAre(runs, GroupKey);
    var order, entries := KeysOf(runs, GroupKey), Unranked(runs).value;
    var i :| 0 <= i < |entries| && entries[i] == a;
    var j :| 0 <= j < |entries| && entries[j] == b;
    EntryShowsKey(runs, order[i], a);
    EntryShowsKey(runs, order[j], b);
    assert order[i] != order[j];
  }

  lemma BoardEntry(runs: seq<Observation>, locale: (string, string) -> bool, i: nat)
    requires TotalOrder(locale) && BuildLeaderboard(runs, locale).Some? && i < |BuildLeaderboard(runs, locale).value|
    ensures BuildLeaderboard(runs, locale).value[i].entry in Unranked(runs).value
  {
    var entries, le := Unranked(runs).value, Comparator(locale);
    ComparatorStrict(locale);
    SortCorrect(entries, le);
    SameMembers(Sort(entries, le), entries, Sort(entries, le)[i]);
  }

  /** Ranks run from one, and the entries, of different skills, stand best first. */
  lemma RanksStrict(runs: seq<Observation>, locale: (string, string) -> bool, i: nat, j: nat)
    requires TotalOrder(locale) && BuildLeaderboard(runs, locale).Some?
    requires i < j < |BuildLeaderboard(runs, locale).value|
    ensures
      var board := BuildLeaderboard(runs, locale).value;
      && board[i].rank == i + 1 && board[j].rank == j + 1 && Before(board[i].entry, board[j].entry, locale)
      && (board[i].entry.category != board[j].entry.category || board[i].entry.skillId != board[j].entry.skillId)
  {
    RankedByComparator(runs, locale, i, j);
    var board := BuildLeaderboard(runs, locale).value;
    ComparatorBefore(board[i].entry, board[j].entry, locale);
    BoardEntry(runs, locale, i);
    BoardEntry(runs, locale, j);
    SkillsDistinct(runs, board[i].entry, board[j].entry);
  }

  lemma DistinctKept<T(!new)>(a: seq<T>, b: seq<T>)
    requires Distinct(a) && multiset(a) == multiset(b)
    ensures Distinct(b)
  {
    forall i, j | 0 <= i < j < |b| ensures b[i] != b[j] {
      if b[i] == b[j] {
        assert b == b[..i] + [b[i]] + b[i + 1..j] + [b[j]] + b[j + 1..];
        assert multiset(b)[b[i]] >= 2;
        DistinctCounts(a, b[i]);
      }
    }
  }
}
