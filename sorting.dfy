/** `Array.prototype.sort` with a comparator `(a, b) => w(b) - w(a)`: the
    engine's sort is stable, so the result lists the elements by non-increasing
    weight and keeps elements of equal weight in their input order. It is
    modelled as insertion sort, which has exactly that behaviour. */
module Sorting {
  import opened Common

  /** Elements listed by non-increasing weight. */
  predicate SortedDesc<T>(s: seq<T>, w: T -> int) {
    forall i, j :: 0 <= i < j < |s| ==> w(s[i]) >= w(s[j])
  }

  /** No two elements of s share a key. */
  predicate DistinctBy<T, K(==)>(s: seq<T>, key: T -> K) {
    forall i, j :: 0 <= i < j < |s| ==> key(s[i]) != key(s[j])
  }

  /** The elements of s with weight c, in their order in s. */
  function WithWeight<T>(s: seq<T>, w: T -> int, c: int): (r: seq<T>)
    ensures |r| <= |s|
    ensures forall i :: 0 <= i < |r| ==> w(r[i]) == c
  {
    if |s| == 0 then []
    else (if w(s[0]) == c then [s[0]] else []) + WithWeight(s[1..], w, c)
  }

  /** Insert x in front of the first element that does not outweigh it. */
  function Insert<T>(x: T, s: seq<T>, w: T -> int): (r: seq<T>)
    ensures |r| == |s| + 1
    ensures multiset(r) == multiset(s) + multiset{x}
  {
    if |s| == 0 || w(x) >= w(s[0]) then [x] + s
    else
      assert s == [s[0]] + s[1..];
      [s[0]] + Insert(x, s[1..], w)
  }

  function SortDesc<T>(s: seq<T>, w: T -> int): (r: seq<T>)
    ensures |r| == |s|
    ensures multiset(r) == multiset(s)
  {
    if |s| == 0 then []
    else
      assert s == [s[0]] + s[1..];
      Insert(s[0], SortDesc(s[1..], w), w)
  }

  // ---------------------------------------------------------------------------

  lemma {:induction false} InsertSorted<T>(x: T, s: seq<T>, w: T -> int)
    requires SortedDesc(s, w)
    ensures SortedDesc(Insert(x, s, w), w)
    decreases |s|
  {
    if |s| > 0 && w(x) < w(s[0]) {
      InsertSorted(x, s[1..], w);
      var r := Insert(x, s[1..], w);
      forall j | 0 <= j < |r| ensures w(s[0]) >= w(r[j]) {
        assert r[j] in multiset(s[1..]) + multiset{x};
        if r[j] != x {
          var k :| 0 <= k < |s[1..]| && s[1..][k] == r[j];
          assert s[1..][k] == s[k + 1];
        }
      }
    }
  }

  /** The sort lists the elements by non-increasing weight. */
  lemma {:induction false} SortDescSorted<T>(s: seq<T>, w: T -> int)
    ensures SortedDesc(SortDesc(s, w), w)
    decreases |s|
  {
    if |s| > 0 {
      SortDescSorted(s[1..], w);
      InsertSorted(s[0], SortDesc(s[1..], w), w);
    }
  }

  lemma {:induction false} InsertWithWeight<T>(x: T, s: seq<T>, w: T -> int, c: int)
    ensures WithWeight(Insert(x, s, w), w, c) == WithWeight([x] + s, w, c)
    decreases |s|
  {
    if |s| > 0 && w(x) < w(s[0]) {
      InsertWithWeight(x, s[1..], w, c);
      var r := Insert(x, s[1..], w);
      assert ([s[0]] + r)[1..] == r;
      assert ([x] + s)[1..] == s;
      assert ([x] + s[1..])[1..] == s[1..];
      assert s == [s[0]] + s[1..];
    }
  }

  /** Stability: among elements of equal weight the sort keeps the input order. */
  lemma {:induction false} SortDescStable<T>(s: seq<T>, w: T -> int, c: int)
    ensures WithWeight(SortDesc(s, w), w, c) == WithWeight(s, w, c)
    decreases |s|
  {
    if |s| > 0 {
      var t := SortDesc(s[1..], w);
      InsertWithWeight(s[0], t, w, c);
      SortDescStable(s[1..], w, c);
      assert ([s[0]] + t)[1..] == t;
    }
  }

  lemma {:induction false} InsertDistinctBy<T, K>(x: T, s: seq<T>, w: T -> int, key: T -> K)
    requires DistinctBy(s, key)
    requires forall i :: 0 <= i < |s| ==> key(s[i]) != key(x)
    ensures DistinctBy(Insert(x, s, w), key)
    decreases |s|
  {
    if |s| > 0 && w(x) >= w(s[0]) {
      var r := [x] + s;
      forall i, j | 0 <= i < j < |r| ensures key(r[i]) != key(r[j]) {
        if i > 0 { assert r[i] == s[i - 1] && r[j] == s[j - 1]; }
      }
    } else if |s| > 0 {
      InsertDistinctBy(x, s[1..], w, key);
      var t := Insert(x, s[1..], w);
      forall j | 0 <= j < |t| ensures key(t[j]) != key(s[0]) {
        assert t[j] in multiset(t);
        assert t[j] == x || t[j] in s[1..];
      }
      var r := [s[0]] + t;
      forall i, j | 0 <= i < j < |r| ensures key(r[i]) != key(r[j]) {
        if i > 0 { assert r[i] == t[i - 1] && r[j] == t[j - 1]; }
      }
    }
  }

  /** Sorting keeps keys distinct. */
  lemma {:induction false} SortDescDistinctBy<T, K>(s: seq<T>, w: T -> int, key: T -> K)
    requires DistinctBy(s, key)
    ensures DistinctBy(SortDesc(s, w), key)
    decreases |s|
  {
    if |s| > 0 {
      var t := SortDesc(s[1..], w);
      assert DistinctBy(s[1..], key) by {
        forall i, j | 0 <= i < j < |s[1..]| ensures key(s[1..][i]) != key(s[1..][j]) {
          assert s[1..][i] == s[i + 1] && s[1..][j] == s[j + 1];
        }
      }
      SortDescDistinctBy(s[1..], w, key);
      forall j | 0 <= j < |t| ensures key(t[j]) != key(s[0]) {
        assert t[j] in multiset(t);
        var k :| 0 <= k < |s[1..]| && s[1..][k] == t[j];
        assert s[k + 1] == t[j];
      }
      InsertDistinctBy(s[0], t, w, key);
    }
  }

  /** The sort lists the same elements. */
  lemma SortDescSameElements<T>(s: seq<T>, w: T -> int)
    ensures forall x :: x in SortDesc(s, w) <==> x in s
  {
    var r := SortDesc(s, w);
    forall x ensures x in r <==> x in s {
      assert x in r <==> x in multiset(r);
      assert x in s <==> x in multiset(s);
    }
  }

  /** The first k elements of the sorted list are the k heaviest: nothing
      after them outweighs any of them. */
  lemma TakeIsTop<T>(s: seq<T>, w: T -> int, k: nat)
    requires SortedDesc(s, w)
    ensures forall i, j :: 0 <= i < |Take(s, k)| <= j < |s| ==> w(Take(s, k)[i]) >= w(s[j])
  {
  }

  /** Filtering keeps a sorted list sorted. */
  lemma {:induction false} FilterSorted<T>(xs: seq<T>, p: T -> bool, w: T -> int)
    requires SortedDesc(xs, w)
    ensures SortedDesc(Filter(xs, p), w)
    decreases |xs|
  {
    if |xs| > 0 {
      var init := xs[..|xs| - 1];
      assert SortedDesc(init, w) by {
        forall i, j | 0 <= i < j < |init| ensures w(init[i]) >= w(init[j]) {
          assert init[i] == xs[i] && init[j] == xs[j];
        }
      }
      FilterSorted(init, p, w);
      var r := Filter(init, p);
      forall i | 0 <= i < |r| ensures w(r[i]) >= w(xs[|xs| - 1]) {
        var k :| 0 <= k < |init| && init[k] == r[i];
        assert init[k] == xs[k];
      }
    }
  }
}
