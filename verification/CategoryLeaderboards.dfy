/** Category leaderboards: the leaderboard cut by category, each part ranked anew. */
module CategoryLeaderboards {
  import opened Base
  import opened Sorting
  import opened Aggregation
  import opened Leaderboard
  import opened LeaderboardTheorems

  datatype CategoryLeaderboard = CategoryLeaderboard(category: string, entries: seq<Ranked>, totalEligibleRuns: real,
                                                     topSkillId: Option<string>)

  const CategoryOf := (e: Entry) => e.category

  /** One category of `buildCategoryLeaderboards`. */
  function BoardOf(entries: seq<Entry>, category: string, locale: (string, string) -> bool): CategoryLeaderboard {
    var ranked := Rank(Sort(Group(entries, CategoryOf, category), Comparator(locale)));
    CategoryLeaderboard(category, ranked, RunsCounted(ranked),
                        if |ranked| > 0 then Some(ranked[0].entry.skillId) else None)
  }

  /** `buildCategoryLeaderboards`: the categories in their order, each with its entries ranked from one. */
  function CategoryBoards(entries: seq<Entry>, locale: (string, string) -> bool): seq<CategoryLeaderboard> {
    MapSeq(Sort(KeysOf(entries, CategoryOf), locale), (category: string) => BoardOf(entries, category, locale))
  }

  /** The entries of a leaderboard, best first. */
  function BoardEntries(runs: seq<Observation>, locale: (string, string) -> bool): seq<Entry>
    requires BuildLeaderboard(runs, locale).Some?
  {
    Sort(Unranked(runs).value, Comparator(locale))
  }

  lemma SortedIsKept(s: seq<Entry>, le: (Entry, Entry) -> bool)
    requires TotalPreorder(le) && Sorted(s, le) && TellsApart(s, le)
    ensures Sort(s, le) == s
  {
    SortCorrect(s, le);
    SortedUnique(s, Sort(s, le), le);
  }

  lemma BoardFacts(runs: seq<Observation>, locale: (string, string) -> bool)
    requires TotalOrder(locale) && BuildLeaderboard(runs, locale).Some?
    ensures TotalPreorder(Comparator(locale)) && Sorted(BoardEntries(runs, locale), Comparator(locale))
    ensures TellsApart(BoardEntries(runs, locale), Comparator(locale))
  {
    var entries, le := Unranked(runs).value, Comparator(locale);
    ComparatorStrict(locale);
    SortCorrect(entries, le);
    EntriesToldApart(runs, locale);
    var sorted := Sort(entries, le);
    forall i, j | 0 <= i < |sorted| && 0 <= j < |sorted| && le(sorted[i], sorted[j]) && le(sorted[j], sorted[i])
      ensures sorted[i] == sorted[j]
    {
      SameMembers(sorted, entries, sorted[i]);
      SameMembers(sorted, entries, sorted[j]);
    }
  }

  /** Ranking a category anew keeps the order of the whole leaderboard. */
  lemma CategoryKeepsOrder(runs: seq<Observation>, locale: (string, string) -> bool, category: string)
    requires TotalOrder(locale) && BuildLeaderboard(runs, locale).Some?
    ensures BoardOf(BoardEntries(runs, locale), category, locale).entries
            == Rank(Group(BoardEntries(runs, locale), CategoryOf, category))
  {
    var entries, le := BoardEntries(runs, locale), Comparator(locale);
    BoardFacts(runs, locale);
    GroupKeepsOrder(entries, CategoryOf, category, le);
    var group := Group(entries, CategoryOf, category);
    forall i, j | 0 <= i < |group| && 0 <= j < |group| && le(group[i], group[j]) && le(group[j], group[i])
      ensures group[i] == group[j]
    {
      GroupMember(entries, CategoryOf, category, group[i]);
      GroupMember(entries, CategoryOf, category, group[j]);
    }
    SortedIsKept(group, le);
  }

  /** A category leaderboard ranks its own entries from one, best first, and names the skill of the first. */
  lemma CategoryRanksStrict(runs: seq<Observation>, locale: (string, string) -> bool, category: string, i: nat, j: nat)
    requires TotalOrder(locale) && BuildLeaderboard(runs, locale).Some?
    requires i < j < |BoardOf(BoardEntries(runs, locale), category, locale).entries|
    ensures
      var board := BoardOf(BoardEntries(runs, locale), category, locale);
      && board.entries[i].rank == i + 1 && board.entries[j].rank == j + 1
      && board.entries[i].entry.category == board.entries[j].entry.category == category
      && Before(board.entries[i].entry, board.entries[j].entry, locale)
      && board.topSkillId == Some(board.entries[0].entry.skillId)
  {
    var entries := BoardEntries(runs, locale);
    var group := Group(entries, CategoryOf, category);
    CategoryKeepsOrder(runs, locale, category);
    AllBefore(runs, locale);
    GroupMember(entries, CategoryOf, category, group[i]);
    GroupMember(entries, CategoryOf, category, group[j]);
    GroupKeepsOrder(entries, CategoryOf, category, (a: Entry, b: Entry) => Before(a, b, locale));
  }

  lemma AllBefore(runs: seq<Observation>, locale: (string, string) -> bool)
    requires TotalOrder(locale) && BuildLeaderboard(runs, locale).Some?
    ensures Sorted(BoardEntries(runs, locale), (a: Entry, b: Entry) => Before(a, b, locale))
  {
    var entries := BoardEntries(runs, locale);
    forall i, j | 0 <= i < j < |entries| ensures Before(entries[i], entries[j], locale) {
      RanksStrict(runs, locale, i, j);
    }
  }

  // ----- nothing is counted twice or lost between categories

  function GroupSum(entries: seq<Entry>, categories: seq<string>): real {
    if categories == [] then 0.0
    else
      GroupSum(entries, categories[..|categories| - 1]) +
      SumBy(Group(entries, CategoryOf, categories[|categories| - 1]), CountOf)
  }

  lemma {:induction false} GroupSumEmpty(categories: seq<string>)
    ensures GroupSum([], categories) == 0.0
  {
    if categories != [] {
      GroupSumEmpty(categories[..|categories| - 1]);
    }
  }

  lemma GroupPush(entries: seq<Entry>, e: Entry, category: string)
    ensures SumBy(Group(entries + [e], CategoryOf, category), CountOf)
            == SumBy(Group(entries, CategoryOf, category), CountOf)
              + if CategoryOf(e) == category then CountOf(e) else 0.0
  {
    GroupSnoc(entries, e, CategoryOf, category);
    var group := Group(entries, CategoryOf, category);
    assert (group + [e])[..|group|] == group && group + [] == group;
  }

  lemma {:induction false} GroupSumPush(entries: seq<Entry>, e: Entry, categories: seq<string>)
    requires Distinct(categories)
    ensures GroupSum(entries + [e], categories) == GroupSum(entries, categories)
            + if CategoryOf(e) in categories then CountOf(e) else 0.0
  {
    if categories != [] {
      var front, last := categories[..|categories| - 1], categories[|categories| - 1];
      GroupSumPush(entries, e, front);
      GroupPush(entries, e, last);
      assert categories == front + [last];
    }
  }

  lemma {:induction false} GroupSumAll(entries: seq<Entry>, categories: seq<string>)
    requires Distinct(categories) && forall i :: 0 <= i < |entries| ==> CategoryOf(entries[i]) in categories
    ensures GroupSum(entries, categories) == SumBy(entries, CountOf)
  {
    if entries == [] {
      GroupSumEmpty(categories);
    } else {
      var front, e := entries[..|entries| - 1], entries[|entries| - 1];
      GroupSumAll(front, categories);
      GroupSumPush(front, e, categories);
      assert entries == front + [e];
    }
  }

  const TotalOf := (b: CategoryLeaderboard) => b.totalEligibleRuns

  lemma BoardTotal(entries: seq<Entry>, category: string, locale: (string, string) -> bool)
    requires TotalOrder(locale)
    ensures BoardOf(entries, category, locale).totalEligibleRuns == SumBy(Group(entries, CategoryOf, category), CountOf)
  {
    var group, le := Group(entries, CategoryOf, category), Comparator(locale);
    ComparatorStrict(locale);
    SortCorrect(group, le);
    RankKeepsEntries(Sort(group, le));
    SumByPermutation(Sort(group, le), group, CountOf);
  }

  lemma {:induction false} BoardTotals(entries: seq<Entry>, categories: seq<string>, locale: (string, string) -> bool)
    requires TotalOrder(locale)
    ensures SumBy(MapSeq(categories, (category: string) => BoardOf(entries, category, locale)), TotalOf)
            == GroupSum(entries, categories)
  {
    if categories != [] {
      var n := |categories| - 1;
      var f := (category: string) => BoardOf(entries, category, locale);
      BoardTotals(entries, categories[..n], locale);
      BoardTotal(entries, categories[n], locale);
      assert MapSeq(categories, f)[..n] == MapSeq(categories[..n], f);
    }
  }

  /** The totals of the category leaderboards add up to the runs. */
  lemma CategoriesCountRuns(runs: seq<Observation>, locale: (string, string) -> bool)
    requires TotalOrder(locale) && BuildLeaderboard(runs, locale).Some?
    ensures SumBy(CategoryBoards(BoardEntries(runs, locale), locale), TotalOf) == |runs| as real
  {
    var entries := BoardEntries(runs, locale);
    var keys := KeysOf(entries, CategoryOf);
    var categories := Sort(keys, locale);
    KeysAre(entries, CategoryOf);
    SortCorrect(keys, locale);
    SortedKeys(keys, categories, entries);
    BoardTotals(entries, categories, locale);
    GroupSumAll(entries, categories);
    LeaderboardCountsRuns(runs, locale);
    RankKeepsEntries(entries);
  }

  lemma SortedKeys(keys: seq<string>, categories: seq<string>, entries: seq<Entry>)
    requires multiset(keys) == multiset(categories) && Distinct(keys)
    requires forall i :: 0 <= i < |entries| ==> CategoryOf(entries[i]) in keys
    ensures Distinct(categories) && forall i :: 0 <= i < |entries| ==> CategoryOf(entries[i]) in categories
  {
    DistinctKept(keys, categories);
    forall i | 0 <= i < |entries| ensures CategoryOf(entries[i]) in categories {
      SameMembers(keys, categories, CategoryOf(entries[i]));
    }
  }

  // ----- which boards there are, and what stands on them

  ghost predicate HasBoard(boards: seq<CategoryLeaderboard>, category: string) {
    exists i :: 0 <= i < |boards| && boards[i].category == category
  }

  ghost predicate Stands(board: CategoryLeaderboard, e: Entry) {
    exists i :: 0 <= i < |board.entries| && board.entries[i].entry == e
  }

  /** There is one board for each category that an entry has, and the boards come in the order of their categories. */
  lemma BoardsInOrder(entries: seq<Entry>, locale: (string, string) -> bool, category: string)
    requires TotalOrder(locale)
    ensures
      var boards := CategoryBoards(entries, locale);
      && (HasBoard(boards, category) <==> exists k :: 0 <= k < |entries| && entries[k].category == category)
      && forall i, j :: 0 <= i < j < |boards| ==>
           boards[i].category != boards[j].category && locale(boards[i].category, boards[j].category)
  {
    var keys := KeysOf(entries, CategoryOf);
    var categories, boards := Sort(keys, locale), CategoryBoards(entries, locale);
    KeysAre(entries, CategoryOf);
    SortCorrect(keys, locale);
    SortedKeys(keys, categories, entries);
    assert forall i :: 0 <= i < |boards| ==> boards[i].category == categories[i];
    SameMembers(keys, categories, category);
    if category in categories {
      var i :| 0 <= i < |categories| && categories[i] == category;
      assert boards[i].category == category;
      var e := Group(entries, CategoryOf, category)[0];
      GroupMember(entries, CategoryOf, category, e);
    }
  }

  /** On a board stand exactly the entries of its category; it names a top skill unless it is empty. */
  lemma BoardHolds(entries: seq<Entry>, locale: (string, string) -> bool, category: string, e: Entry)
    requires TotalOrder(locale)
    ensures
      var board := BoardOf(entries, category, locale);
      && board.category == category && (Stands(board, e) <==> e in entries && e.category == category)
      && (board.topSkillId == if board.entries == [] then None else Some(board.entries[0].entry.skillId))
      && board.totalEligibleRuns == RunsCounted(board.entries)
  {
    var group := Group(entries, CategoryOf, category);
    var sorted, board := Sort(group, Comparator(locale)), BoardOf(entries, category, locale);
    ComparatorStrict(locale);
    SortCorrect(group, Comparator(locale));
    SameMembers(group, sorted, e);
    GroupMember(entries, CategoryOf, category, e);
    if e in sorted {
      var i :| 0 <= i < |sorted| && sorted[i] == e;
      assert board.entries[i].entry == e;
    }
  }
}
