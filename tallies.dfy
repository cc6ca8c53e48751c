/** Count rollups. The analytics endpoint returns several lists of
    `{ <label>: K, count: n }` objects (traffic sources, devices, browsers,
    operating systems, countries, daily and hourly views); they differ only in
    the name of the label field, and are all `Tally` values here. */
module Tallies {
  import opened Common
  import opened Grouping
  import opened Sorting

  datatype Tally<K> = Tally(key: K, count: nat)

  function TallyKey<K>(t: Tally<K>): K { t.key }
  function TallyCount<K>(t: Tally<K>): int { t.count }

  /** r counts the elements of xs: one entry per distinct element, carrying its
      number of occurrences, in some order. */
  ghost predicate TallyOf<K(!new)>(r: seq<Tally<K>>, xs: seq<K>) {
    && (forall i :: 0 <= i < |r| ==> r[i].key in xs && r[i].count == Occ(xs, r[i].key))
    && DistinctBy(r, TallyKey)
    && (forall x :: x in xs ==> exists i :: 0 <= i < |r| && r[i].key == x)
  }

  /** The sum of the counts. */
  function TallySum<K>(r: seq<Tally<K>>): nat {
    if |r| == 0 then 0 else TallySum(r[..|r| - 1]) + r[|r| - 1].count
  }

  /** Items whose key is the label and that carry no payload and no value. */
  function LabelItems<K>(xs: seq<K>): (r: seq<Item<K, ()>>)
    ensures KeysOf(r) == xs
  {
    var r := seq(|xs|, i requires 0 <= i < |xs| => Item(xs[i], (), 0));
    assert KeysOf(r) == xs;
    r
  }

  /** The `reduce` into `{ [label]: count }` followed by `Object.entries`. */
  function CountBy<K(==,!new)>(xs: seq<K>): seq<Tally<K>> {
    var g := Groups(LabelItems(xs));
    seq(|g|, i requires 0 <= i < |g| => Tally(g[i].key, g[i].count))
  }

  /** CountBy counts, and lists the labels in the order of their first occurrence. */
  lemma CountByIsTally<K(!new)>(xs: seq<K>)
    ensures TallyOf(CountBy(xs), xs)
    ensures forall i :: 0 <= i < |CountBy(xs)| ==> CountBy(xs)[i].key == Dedup(xs)[i]
    ensures |CountBy(xs)| == |Dedup(xs)|
  {
    var items := LabelItems(xs);
    GroupsSpec(items);
    var g := Groups(items);
    var r := CountBy(xs);
    forall x | x in xs ensures exists i :: 0 <= i < |r| && r[i].key == x {
      var n :| 0 <= n < |xs| && xs[n] == x;
      assert KeysOf(items)[n] == items[n].key;
      var i :| 0 <= i < |g| && g[i].key == items[n].key;
      assert r[i].key == x;
    }
  }

  /** The counts of a tally add up to the number of elements counted. */
  lemma TallySumIsLength<K(!new)>(r: seq<Tally<K>>, xs: seq<K>)
    requires TallyOf(r, xs)
    ensures TallySum(r) == |xs|
  {
    var ks := TallyKeys(r);
    TallySumIsTotalOcc(r, ks, xs);
    TallyKeysCover(r, xs);
    TotalOccCovering(ks, xs);
  }

  function TallyKeys<K>(r: seq<Tally<K>>): (ks: seq<K>)
    ensures |ks| == |r|
    ensures forall i :: 0 <= i < |r| ==> ks[i] == r[i].key
  {
    seq(|r|, i requires 0 <= i < |r| => r[i].key)
  }

  lemma TallyKeysCover<K(!new)>(r: seq<Tally<K>>, xs: seq<K>)
    requires TallyOf(r, xs)
    ensures Distinct(TallyKeys(r))
    ensures forall k :: k in xs ==> k in TallyKeys(r)
  {
    var ks := TallyKeys(r);
    forall k | k in xs ensures k in ks {
      var i :| 0 <= i < |r| && r[i].key == k;
      assert ks[i] == k;
    }
    forall i, j | 0 <= i < j < |ks| ensures ks[i] != ks[j] {
      assert TallyKey(r[i]) != TallyKey(r[j]);
    }
  }

  lemma {:induction false} TallySumIsTotalOcc<K(!new)>(r: seq<Tally<K>>, ks: seq<K>, xs: seq<K>)
    requires |r| == |ks|
    requires forall i :: 0 <= i < |r| ==> r[i].count == Occ(xs, ks[i])
    ensures TallySum(r) == TotalOcc(ks, xs)
    decreases |r|
  {
    if |r| > 0 {
      TallySumIsTotalOcc(r[..|r| - 1], ks[..|ks| - 1], xs);
    }
  }

  /** Listing a tally in another order leaves it a tally of the same elements. */
  lemma SortedTally<K(!new)>(r: seq<Tally<K>>, xs: seq<K>, w: Tally<K> -> int)
    requires TallyOf(r, xs)
    ensures TallyOf(SortDesc(r, w), xs)
    ensures SortedDesc(SortDesc(r, w), w)
  {
    var s := SortDesc(r, w);
    SortDescSorted(r, w);
    SortDescDistinctBy(r, w, TallyKey);
    forall i | 0 <= i < |s| ensures s[i].key in xs && s[i].count == Occ(xs, s[i].key) {
      assert s[i] in multiset(s);
    }
    forall x | x in xs ensures exists i :: 0 <= i < |s| && s[i].key == x {
      var j :| 0 <= j < |r| && r[j].key == x;
      assert r[j] in multiset(s);
      var i :| 0 <= i < |s| && s[i] == r[j];
    }
  }

  /** A prefix of a tally still counts correctly, without repeats. */
  lemma TakeTally<K(!new)>(r: seq<Tally<K>>, xs: seq<K>, n: nat)
    requires TallyOf(r, xs)
    ensures var t := Take(r, n);
      && |t| == Min(|r|, n)
      && (forall i :: 0 <= i < |t| ==> t[i].key in xs && t[i].count == Occ(xs, t[i].key) >= 1)
      && DistinctBy(t, TallyKey)
  {
    var t := Take(r, n);
    forall i | 0 <= i < |t| ensures t[i].key in xs && t[i].count == Occ(xs, t[i].key) >= 1 {
      assert t[i] == r[i];
    }
    forall i, j | 0 <= i < j < |t| ensures TallyKey(t[i]) != TallyKey(t[j]) {
      assert t[i] == r[i] && t[j] == r[j];
    }
  }

  /** Once a tally is sorted, a label its prefix drops has a count no larger
      than any count the prefix keeps. */
  lemma TakeTallyTop<K(!new)>(r: seq<Tally<K>>, xs: seq<K>, n: nat, x: K, i: nat)
    requires TallyOf(r, xs) && SortedDesc(r, TallyCount)
    requires x in xs && i < |Take(r, n)|
    requires forall j :: 0 <= j < |Take(r, n)| ==> Take(r, n)[j].key != x
    ensures Take(r, n)[i].count >= Occ(xs, x)
  {
    var t := Take(r, n);
    var k :| 0 <= k < |r| && r[k].key == x;
    assert k >= |t|;
    assert t[i] == r[i];
    assert TallyCount(r[i]) >= TallyCount(r[k]);
  }
}
