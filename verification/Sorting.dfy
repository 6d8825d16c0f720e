/** Stable sorting by an order relation, as `Array.prototype.sort` and `ORDER BY` do it. */
module Sorting {

  ghost predicate TotalPreorder<T(!new)>(le: (T, T) -> bool) {
    && (forall a, b :: le(a, b) || le(b, a))
    && (forall a, b, c :: le(a, b) && le(b, c) ==> le(a, c))
  }

  ghost predicate Sorted<T>(s: seq<T>, le: (T, T) -> bool) {
    forall i, j :: 0 <= i < j < |s| ==> le(s[i], s[j])
  }

  /** Puts `x` behind everything that does not come strictly after it. */
  function Insert<T>(s: seq<T>, x: T, le: (T, T) -> bool): (t: seq<T>)
    ensures |t| == |s| + 1
  {
    if s == [] || le(s[|s| - 1], x) then s + [x]
    else Insert(s[..|s| - 1], x, le) + [s[|s| - 1]]
  }

  function Sort<T>(s: seq<T>, le: (T, T) -> bool): (t: seq<T>)
    ensures |t| == |s|
  {
    if s == [] then [] else Insert(Sort(s[..|s| - 1], le), s[|s| - 1], le)
  }

  lemma {:induction false} InsertSorted<T(!new)>(s: seq<T>, x: T, le: (T, T) -> bool)
    requires TotalPreorder(le) && Sorted(s, le)
    ensures Sorted(Insert(s, x, le), le)
    ensures multiset(Insert(s, x, le)) == multiset(s) + multiset{x}
  {
    if s == [] {
    } else if le(s[|s| - 1], x) {
      forall i | 0 <= i < |s| ensures le(s[i], x) { assert i == |s| - 1 || le(s[i], s[|s| - 1]); }
    } else {
      var front, last := s[..|s| - 1], s[|s| - 1];
      assert s == front + [last];
      InsertSorted(front, x, le);
      var t := Insert(front, x, le);
      forall i | 0 <= i < |t|
        ensures le(t[i], last)
      {
        assert t[i] in multiset(t);
        assert t[i] in front || t[i] == x;
      }
    }
  }

  /** The result is sorted and a permutation. */
  lemma {:induction false} SortCorrect<T(!new)>(s: seq<T>, le: (T, T) -> bool)
    requires TotalPreorder(le)
    ensures Sorted(Sort(s, le), le)
    ensures multiset(Sort(s, le)) == multiset(s)
  {
    if s != [] {
      var front, last := s[..|s| - 1], s[|s| - 1];
      SortCorrect(front, le);
      InsertSorted(Sort(front, le), last, le);
      assert s == front + [last];
    }
  }

  /** The order tells different elements of `s` apart. */
  ghost predicate TellsApart<T>(s: seq<T>, le: (T, T) -> bool) {
    forall i, j :: 0 <= i < |s| && 0 <= j < |s| && le(s[i], s[j]) && le(s[j], s[i]) ==> s[i] == s[j]
  }

  lemma SameLast<T(!new)>(s: seq<T>, t: seq<T>, le: (T, T) -> bool)
    requires Sorted(s, le) && Sorted(t, le) && multiset(s) == multiset(t) && TellsApart(s, le) && |s| == |t| > 0
    ensures s[|s| - 1] == t[|t| - 1]
  {
    var n := |s| - 1;
    assert s[n] in multiset(t) && t[n] in multiset(s);
    var i :| 0 <= i <= n && t[i] == s[n];
    var j :| 0 <= j <= n && s[j] == t[n];
    if i < n && j < n {
      assert le(t[i], t[n]) && le(s[j], s[n]);
    }
  }

  lemma SameSize<T>(s: seq<T>, t: seq<T>)
    requires multiset(s) == multiset(t)
    ensures |s| == |t|
  {
    assert |s| == |multiset(s)| && |t| == |multiset(t)|;
  }

  lemma WithoutLast<T>(s: seq<T>)
    requires |s| > 0
    ensures multiset(s[..|s| - 1]) == multiset(s) - multiset{s[|s| - 1]}
  {
    assert s == s[..|s| - 1] + [s[|s| - 1]];
  }

  /** Two sorted permutations of the same elements are equal when the order tells those elements apart. */
  lemma {:induction false} SortedUnique<T(!new)>(s: seq<T>, t: seq<T>, le: (T, T) -> bool)
    requires Sorted(s, le) && Sorted(t, le) && multiset(s) == multiset(t) && TellsApart(s, le)
    ensures s == t
  {
    SameSize(s, t);
    if s != [] {
      SameLast(s, t, le);
      WithoutLast(s);
      WithoutLast(t);
      SortedUnique(s[..|s| - 1], t[..|t| - 1], le);
      assert s == s[..|s| - 1] + [s[|s| - 1]] && t == t[..|t| - 1] + [t[|t| - 1]];
    }
  }

  /** Sorting depends on the elements only, not on the order in which they come. */
  lemma SortOfPermutation<T(!new)>(s: seq<T>, t: seq<T>, le: (T, T) -> bool)
    requires TotalPreorder(le) && multiset(s) == multiset(t) && TellsApart(s, le)
    ensures Sort(s, le) == Sort(t, le)
  {
    SortCorrect(s, le);
    SortCorrect(t, le);
    var u := Sort(s, le);
    forall i, j | 0 <= i < |u| && 0 <= j < |u| && le(u[i], u[j]) && le(u[j], u[i])
      ensures u[i] == u[j]
    {
      assert u[i] in multiset(s) && u[j] in multiset(s);
      var i' :| 0 <= i' < |s| && s[i'] == u[i];
      var j' :| 0 <= j' < |s| && s[j'] == u[j];
    }
    SortedUnique(u, Sort(t, le), le);
  }
}
