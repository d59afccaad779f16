/** Sequence combinators shared by the components: the stable `Array.prototype.filter`
    and the numeric `reduce` that sums a key over a list. */
module Seqs {

  /** `s.filter(p)`: the elements of `s` that satisfy `p`, in their original order. */
  function Filter<T>(s: seq<T>, p: T -> bool): (r: seq<T>)
    ensures |r| <= |s|
    ensures forall i :: 0 <= i < |r| ==> p(r[i])
  {
    if s == [] then [] else (if p(s[0]) then [s[0]] else []) + Filter(s[1..], p)
  }

  /** An element is in the output iff it is in the input and passes. */
  lemma {:induction false} FilterMembers<T>(s: seq<T>, p: T -> bool)
    ensures forall i :: 0 <= i < |Filter(s, p)| ==> Filter(s, p)[i] in s
    ensures forall i :: 0 <= i < |s| && p(s[i]) ==> s[i] in Filter(s, p)
  {
    if s != [] {
      FilterMembers(s[1..], p);
      var t := Filter(s[1..], p);
      assert forall i :: 0 <= i < |t| ==> t[i] in s[1..];
      forall i | 0 < i < |s| && p(s[i]) ensures s[i] in Filter(s, p) {
        assert s[i] == s[1..][i - 1];
      }
    }
  }

  /** True iff the indices strictly increase, so they select a subsequence. */
  ghost predicate StrictlyIncreasing(idx: seq<nat>) {
    forall i, j :: 0 <= i < j < |idx| ==> idx[i] < idx[j]
  }

  /** Filtering distributes over concatenation. */
  lemma {:induction false} FilterAppend<T>(a: seq<T>, b: seq<T>, p: T -> bool)
    ensures Filter(a + b, p) == Filter(a, p) + Filter(b, p)
  {
    if a == [] {
      assert a + b == b;
    } else {
      assert (a + b)[1..] == a[1..] + b;
      FilterAppend(a[1..], b, p);
    }
  }

  /** The filter's output is a subsequence of its input: there are strictly increasing
      positions of `s` that carry exactly the output, and every position whose element
      passes is one of them. Nothing is added, duplicated or reordered. */
  lemma {:induction false} FilterIsSubsequence<T>(s: seq<T>, p: T -> bool) returns (idx: seq<nat>)
    ensures |idx| == |Filter(s, p)|
    ensures StrictlyIncreasing(idx)
    ensures forall k :: 0 <= k < |idx| ==> idx[k] < |s| && Filter(s, p)[k] == s[idx[k]]
    ensures forall j :: 0 <= j < |s| && p(s[j]) ==> j in idx
  {
    if s == [] {
      idx := [];
    } else {
      var rest := FilterIsSubsequence(s[1..], p);
      var shifted := Shift(rest);
      ShiftFacts(s, p, rest);
      if p(s[0]) {
        idx := [0] + shifted;
        assert Filter(s, p) == [s[0]] + Filter(s[1..], p);
      } else {
        idx := shifted;
        assert Filter(s, p) == Filter(s[1..], p);
      }
    }
  }

  /** Every position moved one place to the right. */
  function Shift(idx: seq<nat>): (r: seq<nat>)
    ensures |r| == |idx| && forall k :: 0 <= k < |idx| ==> r[k] == idx[k] + 1
  {
    seq(|idx|, k requires 0 <= k < |idx| => idx[k] + 1)
  }

  /** The induction step of FilterIsSubsequence: positions in the tail, shifted by one,
      are positions in the whole list. */
  lemma ShiftFacts<T>(s: seq<T>, p: T -> bool, rest: seq<nat>)
    requires s != []
    requires |rest| == |Filter(s[1..], p)|
    requires StrictlyIncreasing(rest)
    requires forall k :: 0 <= k < |rest| ==> rest[k] < |s[1..]| && Filter(s[1..], p)[k] == s[1..][rest[k]]
    requires forall j :: 0 <= j < |s[1..]| && p(s[1..][j]) ==> j in rest
    ensures StrictlyIncreasing(Shift(rest)) && StrictlyIncreasing([0] + Shift(rest))
    ensures forall k :: 0 <= k < |rest| ==> Shift(rest)[k] < |s| && Filter(s[1..], p)[k] == s[Shift(rest)[k]]
    ensures forall j :: 0 < j < |s| && p(s[j]) ==> j in Shift(rest)
  {
    var sh := Shift(rest);
    assert StrictlyIncreasing(sh);
    forall i, j | 0 <= i < j < |sh| + 1 ensures ([0] + sh)[i] < ([0] + sh)[j] {
      assert ([0] + sh)[j] == sh[j - 1];
      if i > 0 {
        assert ([0] + sh)[i] == sh[i - 1];
      }
    }
    forall k | 0 <= k < |rest| ensures sh[k] < |s| && Filter(s[1..], p)[k] == s[sh[k]] {
      assert s[1..][rest[k]] == s[rest[k] + 1];
    }
    forall j | 0 < j < |s| && p(s[j]) ensures j in sh {
      assert s[1..][j - 1] == s[j];
      var k :| 0 <= k < |rest| && rest[k] == j - 1;
      assert sh[k] == j;
    }
  }

  /** Filtering twice with the same predicate is filtering once. */
  lemma {:induction false} FilterIdempotent<T>(s: seq<T>, p: T -> bool)
    ensures Filter(Filter(s, p), p) == Filter(s, p)
  {
    if s != [] {
      FilterIdempotent(s[1..], p);
      if p(s[0]) {
        var t := Filter(s[1..], p);
        var u := [s[0]] + t;
        assert Filter(s, p) == u;
        assert u[0] == s[0] && u[1..] == t;
        assert Filter(u, p) == [s[0]] + Filter(t, p);
      } else {
        assert Filter(s, p) == Filter(s[1..], p);
      }
    }
  }

  /** A predicate that every element satisfies leaves the list unchanged. */
  lemma {:induction false} FilterAllPass<T>(s: seq<T>, p: T -> bool)
    requires forall i :: 0 <= i < |s| ==> p(s[i])
    ensures Filter(s, p) == s
  {
    if s != [] {
      FilterAllPass(s[1..], p);
      assert [s[0]] + s[1..] == s;
    }
  }

  /** The filter keeps each element at most as often as the input holds it. */
  lemma {:induction false} FilterMultiset<T>(s: seq<T>, p: T -> bool)
    ensures multiset(Filter(s, p)) <= multiset(s)
  {
    if s != [] {
      FilterMultiset(s[1..], p);
      assert s == [s[0]] + s[1..];
    }
  }

  /** Lists holding the same elements, in any order, filter to the same elements. */
  lemma {:induction false} FilterPermutation<T>(a: seq<T>, b: seq<T>, p: T -> bool)
    requires multiset(a) == multiset(b)
    ensures multiset(Filter(a, p)) == multiset(Filter(b, p))
    decreases |a|
  {
    assert |a| == |multiset(a)| == |multiset(b)| == |b|;
    if a != [] {
      var x := a[0];
      assert a == [x] + a[1..];
      assert x in multiset(b);
      var i :| 0 <= i < |b| && b[i] == x;
      var rest := b[..i] + b[i + 1..];
      assert b == b[..i] + [x] + b[i + 1..];
      assert multiset(b) == multiset(rest) + multiset{x};
      assert multiset(a) == multiset(a[1..]) + multiset{x};
      assert multiset(rest) == multiset(b) - multiset{x};
      assert multiset(a[1..]) == multiset(a) - multiset{x};
      FilterPermutation(a[1..], rest, p);
      FilterAppend([x], a[1..], p);
      FilterAppend(b[..i], [x], p);
      FilterAppend(b[..i] + [x], b[i + 1..], p);
      FilterAppend(b[..i], b[i + 1..], p);
    }
  }

  /** Two predicates that agree on every element of `s` filter it alike. */
  lemma {:induction false} FilterExtensional<T>(s: seq<T>, p: T -> bool, q: T -> bool)
    requires forall i :: 0 <= i < |s| ==> p(s[i]) == q(s[i])
    ensures Filter(s, p) == Filter(s, q)
  {
    if s != [] {
      FilterExtensional(s[1..], p, q);
    }
  }

  /** Two filters applied one after the other can be applied in either order. */
  lemma {:induction false} FilterCommutes<T>(s: seq<T>, p: T -> bool, q: T -> bool)
    ensures Filter(Filter(s, p), q) == Filter(Filter(s, q), p)
  {
    if s != [] {
      FilterCommutes(s[1..], p, q);
      var x := s[0];
      var ps := Filter(s, p);
      var qs := Filter(s, q);
      if p(x) {
        assert ps == [x] + Filter(s[1..], p);
        assert ps[0] == x && ps[1..] == Filter(s[1..], p);
      } else {
        assert ps == Filter(s[1..], p);
      }
      if q(x) {
        assert qs == [x] + Filter(s[1..], q);
        assert qs[0] == x && qs[1..] == Filter(s[1..], q);
      } else {
        assert qs == Filter(s[1..], q);
      }
    }
  }

  /** `s.reduce((sum, x) => sum + key(x), 0)`. */
  function Sum<T>(s: seq<T>, key: T -> int): int {
    if s == [] then 0 else key(s[0]) + Sum(s[1..], key)
  }

  /** Summing distributes over concatenation. */
  lemma {:induction false} SumAppend<T>(a: seq<T>, b: seq<T>, key: T -> int)
    ensures Sum(a + b, key) == Sum(a, key) + Sum(b, key)
  {
    if a == [] {
      assert a + b == b;
    } else {
      assert (a + b)[1..] == a[1..] + b;
      SumAppend(a[1..], b, key);
    }
  }

  /** A sum of non-negative keys is at least each summand, and zero only when every key is. */
  lemma {:induction false} SumBounds<T>(s: seq<T>, key: T -> int)
    requires forall i :: 0 <= i < |s| ==> key(s[i]) >= 0
    ensures Sum(s, key) >= 0
    ensures forall i :: 0 <= i < |s| ==> key(s[i]) <= Sum(s, key)
    ensures Sum(s, key) == 0 <==> forall i :: 0 <= i < |s| ==> key(s[i]) == 0
  {
    if s != [] {
      SumBounds(s[1..], key);
      forall i | 0 < i < |s| ensures key(s[i]) <= Sum(s, key) {
        assert s[i] == s[1..][i - 1];
      }
      if Sum(s, key) == 0 {
        forall i | 0 < i < |s| ensures key(s[i]) == 0 {
          assert s[i] == s[1..][i - 1];
        }
      }
      if forall i :: 0 <= i < |s| ==> key(s[i]) == 0 {
        forall i | 0 <= i < |s| - 1 ensures key(s[1..][i]) == 0 {
          assert s[1..][i] == s[i + 1];
        }
      }
    }
  }
}
