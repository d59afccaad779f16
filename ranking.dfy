/** Ranking by a numeric key, descending, as `array.sort((a, b) => key(b) - key(a))` does.
    ECMAScript requires `Array.prototype.sort` to be stable and to reorder the array in
    place, so the order it leaves is the unique stable descending order; `SortDesc` is that
    order, defined by insertion, and `SortInPlace` reaches it on the caller's array. */
module Ranking {
  import opened Seqs

  predicate SortedDesc<T>(s: seq<T>, key: T -> int) {
    forall i, j :: 0 <= i < j < |s| ==> key(s[i]) >= key(s[j])
  }

  /** The elements whose key is `v`. */
  function KeyIs<T>(key: T -> int, v: int): T -> bool {
    x => key(x) == v
  }

  /** Puts `x` after every trailing element whose key is smaller, scanning from the right:
      it lands behind all elements with a key at least its own. */
  function InsertDesc<T>(s: seq<T>, x: T, key: T -> int): (r: seq<T>)
    ensures |r| == |s| + 1
  {
    if s == [] then [x]
    else if key(s[|s| - 1]) >= key(x) then s + [x]
    else InsertDesc(s[..|s| - 1], x, key) + [s[|s| - 1]]
  }

  /** The stable descending order of `s`. */
  function SortDesc<T>(s: seq<T>, key: T -> int): (r: seq<T>)
    ensures |r| == |s|
  {
    if s == [] then [] else InsertDesc(SortDesc(s[..|s| - 1], key), s[|s| - 1], key)
  }

  /** Filtering a list extended by one element. */
  lemma FilterSnoc<T>(s: seq<T>, x: T, p: T -> bool)
    ensures Filter(s + [x], p) == Filter(s, p) + (if p(x) then [x] else [])
  {
    FilterAppend(s, [x], p);
    assert [x][1..] == [];
  }

  lemma {:induction false} InsertDescSorted<T>(s: seq<T>, x: T, key: T -> int)
    requires SortedDesc(s, key)
    ensures SortedDesc(InsertDesc(s, x, key), key)
    ensures forall i :: 0 <= i < |s| + 1 ==> InsertDesc(s, x, key)[i] in s + [x]
  {
    if s != [] && key(s[|s| - 1]) < key(x) {
      var init, last := s[..|s| - 1], s[|s| - 1];
      assert SortedDesc(init, key);
      InsertDescSorted(init, x, key);
      var r := InsertDesc(init, x, key);
      assert init + [last] == s;
      forall i | 0 <= i < |r| ensures key(r[i]) >= key(last) {
        assert r[i] in init + [x];
      }
      assert InsertDesc(s, x, key) == r + [last];
    }
  }

  lemma {:induction false} InsertDescMultiset<T>(s: seq<T>, x: T, key: T -> int)
    ensures multiset(InsertDesc(s, x, key)) == multiset(s) + multiset{x}
  {
    if s != [] && key(s[|s| - 1]) < key(x) {
      var init := s[..|s| - 1];
      InsertDescMultiset(init, x, key);
      assert init + [s[|s| - 1]] == s;
    }
  }

  /** Inserting `x` leaves the elements of every other key in their order, and puts `x`
      behind the elements of its own key. */
  lemma {:induction false} InsertDescStable<T>(s: seq<T>, x: T, key: T -> int, v: int)
    ensures Filter(InsertDesc(s, x, key), KeyIs(key, v))
         == Filter(s, KeyIs(key, v)) + (if key(x) == v then [x] else [])
  {
    var p := KeyIs(key, v);
    if s == [] {
      FilterSnoc([], x, p);
      assert [] + [x] == [x];
    } else if key(s[|s| - 1]) >= key(x) {
      FilterSnoc(s, x, p);
    } else {
      var init, last := s[..|s| - 1], s[|s| - 1];
      assert init + [last] == s;
      InsertDescStable(init, x, key, v);
      FilterSnoc(InsertDesc(init, x, key), last, p);
      FilterSnoc(init, last, p);
    }
  }

  /** The ranked order is non-increasing in the key. */
  lemma {:induction false} SortDescSorted<T>(s: seq<T>, key: T -> int)
    ensures SortedDesc(SortDesc(s, key), key)
  {
    if s != [] {
      SortDescSorted(s[..|s| - 1], key);
      InsertDescSorted(SortDesc(s[..|s| - 1], key), s[|s| - 1], key);
    }
  }

  /** Ranking only reorders: the same multiset of elements. */
  lemma {:induction false} SortDescPermutes<T>(s: seq<T>, key: T -> int)
    ensures multiset(SortDesc(s, key)) == multiset(s)
  {
    if s != [] {
      SortDescPermutes(s[..|s| - 1], key);
      InsertDescMultiset(SortDesc(s[..|s| - 1], key), s[|s| - 1], key);
      assert s[..|s| - 1] + [s[|s| - 1]] == s;
    }
  }

  /** Ranking is stable: the elements sharing any one key keep their relative order. */
  lemma {:induction false} SortDescStable<T>(s: seq<T>, key: T -> int, v: int)
    ensures Filter(SortDesc(s, key), KeyIs(key, v)) == Filter(s, KeyIs(key, v))
  {
    if s != [] {
      var init, last := s[..|s| - 1], s[|s| - 1];
      assert init + [last] == s;
      SortDescStable(init, key, v);
      InsertDescStable(SortDesc(init, key), last, key, v);
      FilterSnoc(init, last, KeyIs(key, v));
    }
  }

  /** Two lists sorted by the key whose equal-key groups coincide are equal: only one
      order is both descending and stable, whatever algorithm produced it. */
  lemma {:induction false} StableSortedUnique<T>(a: seq<T>, b: seq<T>, key: T -> int)
    requires SortedDesc(a, key) && SortedDesc(b, key)
    requires forall v :: Filter(a, KeyIs(key, v)) == Filter(b, KeyIs(key, v))
    ensures a == b
    decreases |a| + |b|
  {
    if a == [] || b == [] {
      if a != [] {
        EmptyGroups(b, a, key);
      } else if b != [] {
        EmptyGroups(a, b, key);
      }
    } else {
      var la, lb := a[|a| - 1], b[|b| - 1];
      var ia, ib := a[..|a| - 1], b[..|b| - 1];
      assert ia + [la] == a && ib + [lb] == b;
      forall v ensures Filter(a, KeyIs(key, v)) == Filter(ia, KeyIs(key, v)) + (if key(la) == v then [la] else []) {
        FilterSnoc(ia, la, KeyIs(key, v));
      }
      forall v ensures Filter(b, KeyIs(key, v)) == Filter(ib, KeyIs(key, v)) + (if key(lb) == v then [lb] else []) {
        FilterSnoc(ib, lb, KeyIs(key, v));
      }
      // Each last element holds the smallest key of its list, and both lists hold it.
      LastKeyIsMin(a, b, key);
      LastKeyIsMin(b, a, key);
      assert key(la) == key(lb);
      var m := key(la);
      var ga := Filter(a, KeyIs(key, m));
      assert ga == Filter(ia, KeyIs(key, m)) + [la];
      assert Filter(b, KeyIs(key, m)) == Filter(ib, KeyIs(key, m)) + [lb];
      assert ga[|ga| - 1] == la;
      assert la == lb;
      forall v ensures Filter(ia, KeyIs(key, v)) == Filter(ib, KeyIs(key, v)) {
        var fa, fb := Filter(ia, KeyIs(key, v)), Filter(ib, KeyIs(key, v));
        var suffix := if key(la) == v then [la] else [];
        assert fa + suffix == fb + suffix;
        assert fa == (fa + suffix)[..|fa|];
        assert |fa| == |fb|;
        assert fb == (fb + suffix)[..|fb|];
      }
      assert SortedDesc(ia, key) && SortedDesc(ib, key);
      StableSortedUnique(ia, ib, key);
    }
  }

  /** A non-empty list has a non-empty key group, so another list with the same groups
      is not empty. */
  lemma EmptyGroups<T>(e: seq<T>, b: seq<T>, key: T -> int)
    requires e == [] && b != []
    ensures exists v :: Filter(e, KeyIs(key, v)) != Filter(b, KeyIs(key, v))
  {
    var v := key(b[0]);
    assert KeyIs(key, v)(b[0]);
    assert Filter(b, KeyIs(key, v)) == [b[0]] + Filter(b[1..], KeyIs(key, v));
  }

  /** In a sorted list the last key is the smallest; when another list has the same group
      for the key of its last element, that key is no smaller. */
  lemma LastKeyIsMin<T>(a: seq<T>, b: seq<T>, key: T -> int)
    requires a != [] && b != []
    requires SortedDesc(a, key)
    requires Filter(a, KeyIs(key, key(b[|b| - 1]))) == Filter(b, KeyIs(key, key(b[|b| - 1])))
    ensures key(b[|b| - 1]) >= key(a[|a| - 1])
  {
    var lb := b[|b| - 1];
    var p := KeyIs(key, key(lb));
    assert p(lb);
    LastPassingIsKept(b, p);
    KeptIsMember(a, p, lb);
    SortedLastIsMin(a, key, lb);
  }

  /** A last element that passes the filter is in its output. */
  lemma LastPassingIsKept<T>(s: seq<T>, p: T -> bool)
    requires s != [] && p(s[|s| - 1])
    ensures s[|s| - 1] in Filter(s, p)
  {
    FilterMembers(s, p);
  }

  /** Whatever the filter outputs comes from its input. */
  lemma KeptIsMember<T>(s: seq<T>, p: T -> bool, x: T)
    requires x in Filter(s, p)
    ensures x in s
  {
    FilterMultiset(s, p);
    assert x in multiset(Filter(s, p));
  }

  /** No element of a descending list has a key below the last one's. */
  lemma SortedLastIsMin<T>(s: seq<T>, key: T -> int, x: T)
    requires SortedDesc(s, key) && x in s
    ensures key(x) >= key(s[|s| - 1])
  {
    var i :| 0 <= i < |s| && s[i] == x;
    if i < |s| - 1 {
      assert key(s[i]) >= key(s[|s| - 1]);
    }
  }

  /** Ranking a ranked list changes nothing. */
  lemma SortDescIdempotent<T>(s: seq<T>, key: T -> int)
    ensures SortDesc(SortDesc(s, key), key) == SortDesc(s, key)
  {
    var once := SortDesc(s, key);
    SortDescSorted(s, key);
    SortDescSorted(once, key);
    forall v ensures Filter(SortDesc(once, key), KeyIs(key, v)) == Filter(once, KeyIs(key, v)) {
      SortDescStable(once, key, v);
    }
    StableSortedUnique(SortDesc(once, key), once, key);
  }

  /** Filtering a ranked list leaves it ranked. */
  lemma FilterKeepsSorted<T>(s: seq<T>, key: T -> int, p: T -> bool)
    requires SortedDesc(s, key)
    ensures SortedDesc(Filter(s, p), key)
  {
    var idx := FilterIsSubsequence(s, p);
    var f := Filter(s, p);
    forall i, j | 0 <= i < j < |f| ensures key(f[i]) >= key(f[j]) {
      assert f[i] == s[idx[i]] && f[j] == s[idx[j]] && idx[i] < idx[j];
    }
  }

  /** The first `n` of the ranked order (`.slice(0, n)`). */
  function TopN<T>(s: seq<T>, key: T -> int, n: nat): (r: seq<T>)
    ensures |r| == if n < |s| then n else |s|
  {
    var ranked := SortDesc(s, key);
    if n < |s| then ranked[..n] else ranked
  }

  /** What the top-N list promises: it is ordered by the key, every shown element comes
      from the input and none shown ranks below one left out; within a key it keeps the
      input's order. */
  lemma TopNProperties<T>(s: seq<T>, key: T -> int, n: nat)
    ensures SortedDesc(TopN(s, key, n), key)
    ensures multiset(TopN(s, key, n)) <= multiset(s)
    ensures forall i, j :: 0 <= i < |TopN(s, key, n)| <= j < |s| ==>
      key(TopN(s, key, n)[i]) >= key(SortDesc(s, key)[j])
    ensures multiset(TopN(s, key, n)) + multiset(SortDesc(s, key)[|TopN(s, key, n)|..]) == multiset(s)
    ensures forall v :: Filter(TopN(s, key, n), KeyIs(key, v)) <= Filter(s, KeyIs(key, v))
  {
    var ranked := SortDesc(s, key);
    var top := TopN(s, key, n);
    SortDescSorted(s, key);
    SortDescPermutes(s, key);
    var k := |top|;
    assert ranked == top + ranked[k..];
    forall v ensures Filter(top, KeyIs(key, v)) <= Filter(s, KeyIs(key, v)) {
      SortDescStable(s, key, v);
      FilterAppend(top, ranked[k..], KeyIs(key, v));
    }
  }

  /** Sorts the caller's array in place into the stable descending order: insertion sort,
      shifting each new element left past the strictly smaller keys. */
  method SortInPlace<T>(a: array<T>, key: T -> int)
    modifies a
    ensures a[..] == SortDesc(old(a[..]), key)
  {
    ghost var orig := a[..];
    var i := 0;
    while i < a.Length
      invariant 0 <= i <= a.Length
      invariant a[..i] == SortDesc(orig[..i], key)
      invariant a[i..] == orig[i..]
    {
      InsertLast(a, i, key);
      assert orig[..i + 1][..i] == orig[..i];
      assert a[i + 1..] == orig[i + 1..] by {
        assert orig[i + 1..] == orig[i..][1..];
      }
      i := i + 1;
    }
    assert orig[..a.Length] == orig;
  }

  /** The inner loop: moves `a[i]` left into the sorted prefix `a[..i]`, past every
      element with a strictly smaller key. */
  method InsertLast<T>(a: array<T>, i: nat, key: T -> int)
    requires i < a.Length
    modifies a
    ensures a[..i + 1] == InsertDesc(old(a[..i]), old(a[i]), key)
    ensures a[i + 1..] == old(a[i + 1..])
  {
    ghost var sorted := a[..i];
    var x := a[i];
    var j := i;
    while j > 0 && key(a[j - 1]) < key(x)
      invariant 0 <= j <= i
      invariant forall k :: 0 <= k < j ==> a[k] == sorted[k]
      invariant forall k :: j < k <= i ==> a[k] == sorted[k - 1]
      invariant forall k :: i < k < a.Length ==> a[k] == old(a[k])
      invariant forall k :: j <= k < i ==> key(sorted[k]) < key(x)
    {
      a[j] := a[j - 1];
      j := j - 1;
    }
    InsertDescAt(sorted, x, key, j);
    a[j] := x;
    assert a[..i + 1] == sorted[..j] + [x] + sorted[j..];
  }

  /** Where `x` lands: behind a prefix ending in a key at least its own, ahead of a
      suffix of strictly smaller keys. */
  lemma {:induction false} InsertDescAt<T>(sorted: seq<T>, x: T, key: T -> int, j: nat)
    requires j <= |sorted|
    requires j == 0 || key(sorted[j - 1]) >= key(x)
    requires forall k :: j <= k < |sorted| ==> key(sorted[k]) < key(x)
    ensures InsertDesc(sorted, x, key) == sorted[..j] + [x] + sorted[j..]
    decreases |sorted|
  {
    if |sorted| == j {
      assert sorted[..j] == sorted && sorted[j..] == [];
      if j > 0 {
        assert key(sorted[|sorted| - 1]) >= key(x);
      }
    } else {
      var init, last := sorted[..|sorted| - 1], sorted[|sorted| - 1];
      assert j == 0 || init[j - 1] == sorted[j - 1];
      InsertDescAt(init, x, key, j);
      assert init[..j] == sorted[..j];
      assert init[j..] + [last] == sorted[j..];
    }
  }
}
