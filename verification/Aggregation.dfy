/** Filtering, grouping, summing and removing duplicates: what does not depend on the order of the input. */
module Aggregation {
  import opened Base
  import opened Sorting

  function Matching<T>(s: seq<T>, p: T -> bool): seq<T> {
    if s == [] then [] else Matching(s[..|s| - 1], p) + if p(s[|s| - 1]) then [s[|s| - 1]] else []
  }

  function MapSeq<T, U>(s: seq<T>, f: T -> U): (t: seq<U>)
    ensures |t| == |s| && forall i :: 0 <= i < |s| ==> t[i] == f(s[i])
  {
    seq(|s|, i requires 0 <= i < |s| => f(s[i]))
  }

  function SumBy<T>(s: seq<T>, f: T -> real): real {
    if s == [] then 0.0 else SumBy(s[..|s| - 1], f) + f(s[|s| - 1])
  }

  function Dedupe<T(==)>(s: seq<T>): seq<T> {
    if s == [] then []
    else
      var front := Dedupe(s[..|s| - 1]);
      if s[|s| - 1] in front then front else front + [s[|s| - 1]]
  }

  // ----- filtering

  lemma {:induction false} MatchingCounts<T(!new)>(s: seq<T>, p: T -> bool, x: T)
    ensures multiset(Matching(s, p))[x] == if p(x) then multiset(s)[x] else 0
  {
    if s != [] {
      MatchingCounts(s[..|s| - 1], p, x);
      assert s == s[..|s| - 1] + [s[|s| - 1]];
    }
  }

  lemma MatchingMember<T(!new)>(s: seq<T>, p: T -> bool, x: T)
    ensures x in Matching(s, p) <==> x in s && p(x)
  {
    MatchingCounts(s, p, x);
    assert x in s <==> x in multiset(s);
    assert x in Matching(s, p) <==> x in multiset(Matching(s, p));
  }

  lemma MatchingPermutation<T(!new)>(a: seq<T>, b: seq<T>, p: T -> bool)
    requires multiset(a) == multiset(b)
    ensures multiset(Matching(a, p)) == multiset(Matching(b, p))
  {
    forall x ensures multiset(Matching(a, p))[x] == multiset(Matching(b, p))[x] {
      MatchingCounts(a, p, x);
      MatchingCounts(b, p, x);
    }
  }

  lemma {:induction false} MatchingAll<T(!new)>(s: seq<T>, p: T -> bool)
    ensures |Matching(s, p)| <= |s|
    ensures |Matching(s, p)| == |s| <==> forall i :: 0 <= i < |s| ==> p(s[i])
  {
    if s != [] {
      MatchingAll(s[..|s| - 1], p);
    }
  }

  // ----- sums and maps over permutations

  lemma {:induction false} SumByAppend<T>(a: seq<T>, b: seq<T>, f: T -> real)
    ensures SumBy(a + b, f) == SumBy(a, f) + SumBy(b, f)
  {
    if b == [] {
      assert a + b == a;
    } else {
      SumByAppend(a, b[..|b| - 1], f);
      assert (a + b)[..|a + b| - 1] == a + b[..|b| - 1];
    }
  }

  lemma CutOut<T>(s: seq<T>, i: nat)
    requires i < |s|
    ensures multiset(s[..i] + s[i + 1..]) == multiset(s) - multiset{s[i]}
  {
    assert s == s[..i] + [s[i]] + s[i + 1..];
  }

  /** Taking the last element of `a` out of a permutation of `a`. */
  lemma TakenOut<T(!new)>(a: seq<T>, b: seq<T>) returns (i: nat)
    requires multiset(a) == multiset(b) && a != []
    ensures i < |b| && b[i] == a[|a| - 1]
    ensures multiset(a[..|a| - 1]) == multiset(b[..i] + b[i + 1..])
  {
    SameMembers(a, b, a[|a| - 1]);
    i :| 0 <= i < |b| && b[i] == a[|a| - 1];
    CutOut(b, i);
    WithoutLast(a);
  }

  lemma {:induction false} SumByPermutation<T(!new)>(a: seq<T>, b: seq<T>, f: T -> real)
    requires multiset(a) == multiset(b)
    ensures SumBy(a, f) == SumBy(b, f)
  {
    SameSize(a, b);
    if a != [] {
      var i := TakenOut(a, b);
      SumByPermutation(a[..|a| - 1], b[..i] + b[i + 1..], f);
      SumByAppend(b[..i], b[i + 1..], f);
      SumByAppend(b[..i] + [b[i]], b[i + 1..], f);
      SumByAppend(b[..i], [b[i]], f);
      assert b == b[..i] + [b[i]] + b[i + 1..];
      assert SumBy([b[i]], f) == f(b[i]);
    }
  }

  lemma MapSeqParts<T, U>(a: seq<T>, b: seq<T>, f: T -> U)
    ensures MapSeq(a + b, f) == MapSeq(a, f) + MapSeq(b, f)
  {
  }

  lemma {:induction false} MapPermutation<T(!new), U(!new)>(a: seq<T>, b: seq<T>, f: T -> U)
    requires multiset(a) == multiset(b)
    ensures multiset(MapSeq(a, f)) == multiset(MapSeq(b, f))
  {
    SameSize(a, b);
    if a != [] {
      var i := TakenOut(a, b);
      var front, left, right := a[..|a| - 1], b[..i], b[i + 1..];
      MapPermutation(front, left + right, f);
      MapSeqParts(left, right, f);
      assert MapSeq(a, f) == MapSeq(front, f) + [f(a[|a| - 1])];
      assert MapSeq(b, f) == MapSeq(left, f) + [f(b[i])] + MapSeq(right, f);
    }
  }

  // ----- removing duplicates

  lemma {:induction false} DedupeIs<T(!new)>(s: seq<T>)
    ensures Distinct(Dedupe(s)) && forall x :: x in Dedupe(s) <==> x in s
  {
    if s != [] {
      DedupeIs(s[..|s| - 1]);
      assert s == s[..|s| - 1] + [s[|s| - 1]];
    }
  }

  lemma {:induction false} DistinctCounts<T(!new)>(s: seq<T>, x: T)
    requires Distinct(s)
    ensures multiset(s)[x] == if x in s then 1 else 0
  {
    if s != [] {
      DistinctCounts(s[..|s| - 1], x);
      assert s == s[..|s| - 1] + [s[|s| - 1]];
    }
  }

  /** Two lists without duplicates and with the same elements are permutations of each other. */
  lemma DistinctPermutation<T(!new)>(a: seq<T>, b: seq<T>)
    requires Distinct(a) && Distinct(b) && forall x :: x in a <==> x in b
    ensures multiset(a) == multiset(b)
  {
    forall x ensures multiset(a)[x] == multiset(b)[x] {
      DistinctCounts(a, x);
      DistinctCounts(b, x);
    }
  }

  lemma SameMembers<T(!new)>(a: seq<T>, b: seq<T>, x: T)
    requires multiset(a) == multiset(b)
    ensures x in a <==> x in b
  {
    assert x in a <==> x in multiset(a);
    assert x in b <==> x in multiset(b);
  }

  lemma DedupePermutation<T(!new)>(a: seq<T>, b: seq<T>)
    requires multiset(a) == multiset(b)
    ensures multiset(Dedupe(a)) == multiset(Dedupe(b))
  {
    DedupeIs(a);
    DedupeIs(b);
    forall x ensures x in Dedupe(a) <==> x in Dedupe(b) {
      SameMembers(a, b, x);
    }
    DistinctPermutation(Dedupe(a), Dedupe(b));
  }

  // ----- groups

  /** The group of a key, in input order. */
  function Group<T, K(==)>(values: seq<T>, key: T -> K, k: K): seq<T> {
    Matching(values, (v: T) => key(v) == k)
  }

  lemma GroupMember<T(!new), K(!new)>(values: seq<T>, key: T -> K, k: K, x: T)
    ensures x in Group(values, key, k) <==> x in values && key(x) == k
  {
    MatchingMember(values, (v: T) => key(v) == k, x);
  }

  lemma GroupPermutation<T(!new), K(!new)>(a: seq<T>, b: seq<T>, key: T -> K, k: K)
    requires multiset(a) == multiset(b)
    ensures multiset(Group(a, key, k)) == multiset(Group(b, key, k))
  {
    MatchingPermutation(a, b, (v: T) => key(v) == k);
  }

  lemma GroupSnoc<T(!new), K(!new)>(values: seq<T>, v: T, key: T -> K, k: K)
    ensures Group(values + [v], key, k) == Group(values, key, k) + if key(v) == k then [v] else []
  {
    assert (values + [v])[..|values|] == values;
  }

  lemma {:induction false} MatchingKeepsOrder<T(!new)>(s: seq<T>, p: T -> bool, le: (T, T) -> bool)
    requires Sorted(s, le)
    ensures Sorted(Matching(s, p), le)
  {
    if s != [] {
      var front, last := s[..|s| - 1], s[|s| - 1];
      MatchingKeepsOrder(front, p, le);
      forall i | 0 <= i < |Matching(front, p)| ensures le(Matching(front, p)[i], last) {
        var x := Matching(front, p)[i];
        MatchingMember(front, p, x);
        assert x in front;
      }
    }
  }

  lemma GroupKeepsOrder<T(!new), K(!new)>(values: seq<T>, key: T -> K, k: K, le: (T, T) -> bool)
    requires Sorted(values, le)
    ensures Sorted(Group(values, key, k), le)
  {
    MatchingKeepsOrder(values, (v: T) => key(v) == k, le);
  }

  /** The sizes of the groups of the given keys, added up. */
  function GroupTotal<T, K(==)>(values: seq<T>, key: T -> K, ks: seq<K>): nat {
    if ks == [] then 0 else GroupTotal(values, key, ks[..|ks| - 1]) + |Group(values, key, ks[|ks| - 1])|
  }

  lemma {:induction false} NoGroups<T(!new), K(!new)>(key: T -> K, ks: seq<K>)
    ensures GroupTotal([], key, ks) == 0
  {
    if ks != [] {
      NoGroups(key, ks[..|ks| - 1]);
    }
  }

  /** One more value adds one to the total exactly when its key is listed. */
  lemma {:induction false} GroupTotalStep<T(!new), K(!new)>(values: seq<T>, v: T, key: T -> K, ks: seq<K>)
    requires Distinct(ks)
    ensures GroupTotal(values + [v], key, ks) == GroupTotal(values, key, ks) + if key(v) in ks then 1 else 0
  {
    if ks != [] {
      var front, k := ks[..|ks| - 1], ks[|ks| - 1];
      GroupTotalStep(values, v, key, front);
      assert (values + [v])[..|values|] == values;
      assert ks == front + [k];
      assert key(v) == k ==> key(v) !in front;
    }
  }

  /** Groups partition the values whose keys are listed. */
  lemma {:induction false} GroupsPartition<T(!new), K(!new)>(values: seq<T>, key: T -> K, ks: seq<K>)
    requires Distinct(ks)
    ensures GroupTotal(values, key, ks) == |Matching(values, (v: T) => key(v) in ks)|
  {
    if values == [] {
      NoGroups(key, ks);
    } else {
      var front, v := values[..|values| - 1], values[|values| - 1];
      GroupsPartition(front, key, ks);
      GroupTotalStep(front, v, key, ks);
      assert values == front + [v];
    }
  }

  /** The totals match the number of values exactly when every key is listed. */
  lemma GroupsCoverExactly<T(!new), K(!new)>(values: seq<T>, key: T -> K, ks: seq<K>)
    requires Distinct(ks)
    ensures GroupTotal(values, key, ks) == |values| <==> forall i :: 0 <= i < |values| ==> key(values[i]) in ks
  {
    GroupsPartition(values, key, ks);
    MatchingAll(values, (v: T) => key(v) in ks);
  }

  function KeysOf<T, K(==)>(values: seq<T>, key: T -> K): seq<K> {
    Dedupe(MapSeq(values, key))
  }

  lemma KeysAre<T(!new), K(!new)>(values: seq<T>, key: T -> K)
    ensures Distinct(KeysOf(values, key))
    ensures forall i :: 0 <= i < |values| ==> key(values[i]) in KeysOf(values, key)
    ensures forall k :: k in KeysOf(values, key) ==> Group(values, key, k) != []
  {
    var keys := MapSeq(values, key);
    DedupeIs(keys);
    forall i | 0 <= i < |values| ensures key(values[i]) in KeysOf(values, key) {
      assert keys[i] in keys;
    }
    forall k | k in KeysOf(values, key) ensures Group(values, key, k) != [] {
      var i :| 0 <= i < |keys| && keys[i] == k;
      GroupMember(values, key, k, values[i]);
    }
  }

  /**
   * `groupValues`: one pass that opens a group at the first value of each key; `order` is the insertion order of the
   * keys.
   */
  method GroupValues<T(!new), K(!new, ==)>(values: seq<T>, key: T -> K) returns (order: seq<K>, groups: map<K, seq<T>>)
    ensures order == KeysOf(values, key)
    ensures forall k :: k in groups <==> k in order
    ensures forall k :: k in groups ==> groups[k] == Group(values, key, k)
  {
    order, groups := [], map[];
    for i := 0 to |values|
      invariant order == KeysOf(values[..i], key)
      invariant forall k :: k in groups <==> k in order
      invariant forall k :: k in groups ==> groups[k] == Group(values[..i], key, k)
      invariant forall k :: k !in groups ==> Group(values[..i], key, k) == []
    {
      var groupKey := key(values[i]);
      GroupStep(values, i, key);
      if groupKey !in groups {
        order := order + [groupKey];
        groups := groups[groupKey := [values[i]]];
      } else {
        groups := groups[groupKey := groups[groupKey] + [values[i]]];
      }
    }
    assert values[..|values|] == values;
  }

  lemma GroupStep<T(!new), K(!new)>(values: seq<T>, i: nat, key: T -> K)
    requires i < |values|
    ensures KeysOf(values[..i + 1], key)
            == if key(values[i]) in KeysOf(values[..i], key) then KeysOf(values[..i], key)
              else KeysOf(values[..i], key) + [key(values[i])]
    ensures forall k ::
              Group(values[..i + 1], key, k) ==
              Group(values[..i], key, k) + if key(values[i]) == k then [values[i]] else []
  {
    assert values[..i + 1][..i] == values[..i];
    assert MapSeq(values[..i + 1], key)[..i] == MapSeq(values[..i], key);
  }

  /** `[...groups.values()]` */
  function GroupsOf<T, K(==)>(values: seq<T>, key: T -> K): (groups: seq<seq<T>>)
    ensures |groups| == |KeysOf(values, key)|
    ensures forall i :: 0 <= i < |groups| ==> groups[i] == Group(values, key, KeysOf(values, key)[i])
  {
    var order := KeysOf(values, key);
    seq(|order|, i requires 0 <= i < |order| => Group(values, key, order[i]))
  }

  /** A map that stops at the first error. */
  function MapAll<T, U>(s: seq<T>, build: T -> Option<U>): Option<seq<U>> {
    if s == [] then Some([])
    else
      var front, last := MapAll(s[..|s| - 1], build), build(s[|s| - 1]);
      if front.None? || last.None? then None else Some(front.value + [last.value])
  }

  lemma {:induction false} MapAllIs<T, U>(s: seq<T>, build: T -> Option<U>)
    ensures MapAll(s, build).None? <==> exists i :: 0 <= i < |s| && build(s[i]).None?
    ensures MapAll(s, build).Some? ==> |MapAll(s, build).value| == |s|
    ensures MapAll(s, build).Some? ==> forall i :: 0 <= i < |s| ==> build(s[i]) == Some(MapAll(s, build).value[i])
  {
    if s != [] {
      MapAllIs(s[..|s| - 1], build);
    }
  }

  /** `[...groups.values()].map(build)` over the groups of `groupValues`, a throwing builder giving `None`. */
  method BuildGroups<T(!new), K(!new, ==), U>(values: seq<T>, key: T -> K, build: seq<T> -> Option<U>)
    returns (built: Option<seq<U>>)
    ensures built == MapAll(GroupsOf(values, key), build)
  {
    var order, groups := GroupValues(values, key);
    ghost var all := GroupsOf(values, key);
    var entries: seq<U> := [];
    for i := 0 to |order|
      invariant MapAll(all[..i], build) == Some(entries)
    {
      assert all[..i + 1][..i] == all[..i];
      var entry := build(groups[order[i]]);
      if entry.None? {
        MapAllIs(all, build);
        return None;
      }
      entries := entries + [entry.value];
    }
    assert all[..|order|] == all;
    return Some(entries);
  }
}
