/** The group-by reductions of the analytics endpoint. Each rollup there is a
    `reduce` over the event list into a dictionary object: the first event with
    a new key creates the key's accumulator, every event with that key bumps its
    count and adds its value, and `Object.values` / `Object.entries` later list
    the accumulators in the order their keys were first inserted.

    `Groups` states the result of such a reduction directly (one bucket per
    distinct key, in first-seen order, with the key's occurrence count, value
    sum and the payload of its first event); `GroupByReduce` is the reduction
    itself, a loop over a dictionary, proved to compute `Groups`. */
module Grouping {
  import opened Common

  /** One event as seen by a reduction: its grouping key, the labels the
      accumulator keeps from the first event of the group, and the value added
      to the group's sum. */
  datatype Item<K, P> = Item(key: K, payload: P, value: int)

  /** One accumulator of a reduction. */
  datatype Bucket<K, P> = Bucket(key: K, first: P, count: nat, sum: int)

  function KeysOf<K, P>(items: seq<Item<K, P>>): (r: seq<K>)
    ensures |r| == |items|
    ensures forall i :: 0 <= i < |items| ==> r[i] == items[i].key
  {
    seq(|items|, i requires 0 <= i < |items| => items[i].key)
  }

  /** The distinct elements of xs in the order of their first occurrence. */
  function Dedup<K(==,!new)>(xs: seq<K>): (r: seq<K>)
    ensures Distinct(r)
    ensures forall k :: k in r <==> k in xs
  {
    if |xs| == 0 then []
    else
      var d := Dedup(xs[..|xs| - 1]);
      if xs[|xs| - 1] in d then d else d + [xs[|xs| - 1]]
  }

  /** Sum of the values of the items with key k. */
  function SumFor<K(==,!new), P>(items: seq<Item<K, P>>, k: K): int {
    if |items| == 0 then 0
    else
      var last := items[|items| - 1];
      SumFor(items[..|items| - 1], k) + (if last.key == k then last.value else 0)
  }

  /** Payload of the first item with key k. */
  function FirstPayload<K(==,!new), P>(items: seq<Item<K, P>>, k: K): P
    requires k in KeysOf(items)
  {
    var init := items[..|items| - 1];
    if k in KeysOf(init) then FirstPayload(init, k) else items[|items| - 1].payload
  }

  /** What every reduction computes: one bucket per distinct key, in first-seen
      order. */
  function Groups<K(==,!new), P>(items: seq<Item<K, P>>): seq<Bucket<K, P>> {
    var keys := Dedup(KeysOf(items));
    seq(|keys|, i requires 0 <= i < |keys| =>
      Bucket(keys[i], FirstPayload(items, keys[i]), Occ(KeysOf(items), keys[i]), SumFor(items, keys[i])))
  }

  // ---------------------------------------------------------------------------
  // The reduction as a loop over a dictionary.

  /** `items.reduce((acc, it) => { if (!acc[k]) acc[k] = {...}; acc[k].count += 1;
      acc[k].sum += it.value; return acc }, {})` followed by `Object.values(acc)`:
      `order` is the insertion order of the dictionary's keys. */
  method GroupByReduce<K(==,!new), P>(items: seq<Item<K, P>>) returns (r: seq<Bucket<K, P>>)
    ensures r == Groups(items)
  {
    var acc: map<K, Bucket<K, P>> := map[];
    var order: seq<K> := [];
    for n := 0 to |items|
      invariant Describes(acc, order, items[..n])
    {
      ghost var acc0, order0 := acc, order;
      var it := items[n];
      if it.key !in acc {
        acc := acc[it.key := Bucket(it.key, it.payload, 0, 0)];
        order := order + [it.key];
      }
      var b := acc[it.key];
      acc := acc[it.key := b.(count := b.count + 1, sum := b.sum + it.value)];
      ReduceStep(acc0, order0, items, n, acc, order);
    }
    assert items[..|items|] == items;
    r := seq(|order|, i requires 0 <= i < |order| => acc[order[i]]);
  }

  /** The accumulator of the one bucket for key k after reducing pre. */
  function BucketFor<K(==,!new), P>(pre: seq<Item<K, P>>, k: K): Bucket<K, P>
    requires k in KeysOf(pre)
  {
    Bucket(k, FirstPayload(pre, k), Occ(KeysOf(pre), k), SumFor(pre, k))
  }

  /** The dictionary acc with key order `order` holds the buckets of pre. */
  ghost predicate Describes<K(!new), P>(acc: map<K, Bucket<K, P>>, order: seq<K>, pre: seq<Item<K, P>>) {
    && order == Dedup(KeysOf(pre))
    && (forall k :: k in acc <==> k in KeysOf(pre))
    && (forall k :: k in acc ==> k in KeysOf(pre) && acc[k] == BucketFor(pre, k))
  }

  /** Reducing one more item keeps the dictionary in step with Groups. */
  lemma ReduceStep<K(!new), P>(acc: map<K, Bucket<K, P>>, order: seq<K>, items: seq<Item<K, P>>, n: nat,
                         acc': map<K, Bucket<K, P>>, order': seq<K>)
    requires n < |items|
    requires Describes(acc, order, items[..n])
    requires order' == if items[n].key in acc then order else order + [items[n].key]
    requires acc' == acc[items[n].key :=
      if items[n].key in acc then acc[items[n].key].(count := acc[items[n].key].count + 1,
                                                     sum := acc[items[n].key].sum + items[n].value)
      else Bucket(items[n].key, items[n].payload, 1, items[n].value)]
    ensures Describes(acc', order', items[..n + 1])
  {
    var pre, post, it := items[..n], items[..n + 1], items[n];
    var kp, kq := KeysOf(pre), KeysOf(post);
    assert post[..n] == pre;
    assert kq == kp + [it.key];
    DedupSnoc(kp, it.key);
    assert it.key in Dedup(kp) <==> it.key in acc;
    assert order' == Dedup(kq);
    forall k ensures k in acc' <==> k in kq {
      assert k in kq <==> k in kp || k == it.key;
    }
    forall k | k in acc' ensures k in kq && acc'[k] == BucketFor(post, k) {
      EntryStep(acc, items, n, k, acc'[k]);
    }
  }

  lemma DedupSnoc<K(!new)>(xs: seq<K>, x: K)
    ensures Dedup(xs + [x]) == if x in Dedup(xs) then Dedup(xs) else Dedup(xs) + [x]
  {
    assert (xs + [x])[..|xs|] == xs;
  }

  /** The accumulator entry for one key after reducing one more item. */
  lemma EntryStep<K(!new), P>(acc: map<K, Bucket<K, P>>, items: seq<Item<K, P>>, n: nat, k: K, b: Bucket<K, P>)
    requires n < |items|
    requires forall k :: k in acc <==> k in KeysOf(items[..n])
    requires forall k :: k in acc ==> acc[k] == BucketFor(items[..n], k)
    requires k in acc || k == items[n].key
    requires k != items[n].key ==> b == acc[k]
    requires k == items[n].key && k in acc ==>
               b == acc[k].(count := acc[k].count + 1, sum := acc[k].sum + items[n].value)
    requires k == items[n].key && k !in acc ==> b == Bucket(k, items[n].payload, 1, items[n].value)
    ensures k in KeysOf(items[..n + 1]) && b == BucketFor(items[..n + 1], k)
  {
    var pre, post, it := items[..n], items[..n + 1], items[n];
    assert post[..n] == pre;
    assert KeysOf(post) == KeysOf(pre) + [it.key];
    if k in acc {
      BucketForStep(items, n, k);
    } else {
      assert Occ(KeysOf(pre), k) == 0;
      SumForAbsent(pre, k);
      assert KeysOf(post)[..n] == KeysOf(pre);
    }
  }

  /** How one more item changes the bucket of a key that had already occurred. */
  lemma BucketForStep<K(!new), P>(items: seq<Item<K, P>>, n: nat, k: K)
    requires n < |items| && k in KeysOf(items[..n])
    ensures var it := items[n];
      BucketFor(items[..n + 1], k) ==
        BucketFor(items[..n], k).(count := Occ(KeysOf(items[..n]), k) + (if it.key == k then 1 else 0),
                                  sum := SumFor(items[..n], k) + (if it.key == k then it.value else 0))
  {
    var pre, post := items[..n], items[..n + 1];
    assert post[..n] == pre;
    assert KeysOf(post)[..n] == KeysOf(pre);
  }

  /** A key that never occurs has sum 0. */
  lemma {:induction false} SumForAbsent<K(!new), P>(items: seq<Item<K, P>>, k: K)
    requires k !in KeysOf(items)
    ensures SumFor(items, k) == 0
    decreases |items|
  {
    if |items| > 0 {
      var init := items[..|items| - 1];
      assert KeysOf(init) == KeysOf(items)[..|items| - 1];
      assert KeysOf(items)[|items| - 1] == items[|items| - 1].key;
      SumForAbsent(init, k);
    }
  }

  // ---------------------------------------------------------------------------
  // Properties of Groups.

  /** Every bucket describes its key's group: the key occurs, the count is its
      number of occurrences (so at least 1) and the sum is the sum of the group;
      the keys are distinct and they are exactly the keys of the items. */
  lemma GroupsSpec<K(!new), P>(items: seq<Item<K, P>>)
    ensures var g := Groups(items);
      && (forall i :: 0 <= i < |g| ==>
           && g[i].key in KeysOf(items)
           && g[i].count == Occ(KeysOf(items), g[i].key) >= 1
           && g[i].sum == SumFor(items, g[i].key))
      && (forall i, j :: 0 <= i < j < |g| ==> g[i].key != g[j].key)
      && (forall n :: 0 <= n < |items| ==> exists i :: 0 <= i < |g| && g[i].key == items[n].key)
  {
    var g := Groups(items);
    var xs := KeysOf(items);
    var keys := Dedup(xs);
    assert |g| == |keys|;
    forall i | 0 <= i < |g|
      ensures g[i].key == keys[i] && g[i].key in xs
      ensures g[i].count == Occ(xs, g[i].key) >= 1
    {
      assert keys[i] in keys;
    }
    forall n | 0 <= n < |items|
      ensures exists i :: 0 <= i < |g| && g[i].key == items[n].key
    {
      assert xs[n] == items[n].key;
      assert xs[n] in keys;
      var i :| 0 <= i < |keys| && keys[i] == items[n].key;
      assert g[i].key == items[n].key;
    }
  }

  /** Sum of the counts of a list of buckets. */
  function SumCounts<K, P>(bs: seq<Bucket<K, P>>): nat {
    if |bs| == 0 then 0 else SumCounts(bs[..|bs| - 1]) + bs[|bs| - 1].count
  }

  /** Every item is counted in exactly one bucket: the counts add up to the
      number of items, and there are no more buckets than items. */
  lemma GroupsCountsSum<K(!new), P>(items: seq<Item<K, P>>)
    ensures SumCounts(Groups(items)) == |items|
    ensures |Groups(items)| <= |items|
  {
    var xs := KeysOf(items);
    var ks := Dedup(xs);
    var g := Groups(items);
    SumCountsIsTotalOcc(g, ks, xs);
    TotalOccCovering(ks, xs);
    TotalOccAtLeast(ks, xs);
  }

  /** Sum over ks of the occurrence counts in xs. */
  function TotalOcc<K(==,!new)>(ks: seq<K>, xs: seq<K>): nat {
    if |ks| == 0 then 0 else TotalOcc(ks[..|ks| - 1], xs) + Occ(xs, ks[|ks| - 1])
  }

  lemma {:induction false} SumCountsIsTotalOcc<K(!new), P>(bs: seq<Bucket<K, P>>, ks: seq<K>, xs: seq<K>)
    requires |bs| == |ks|
    requires forall i :: 0 <= i < |bs| ==> bs[i].count == Occ(xs, ks[i])
    ensures SumCounts(bs) == TotalOcc(ks, xs)
    decreases |bs|
  {
    if |bs| > 0 {
      SumCountsIsTotalOcc(bs[..|bs| - 1], ks[..|ks| - 1], xs);
    }
  }

  /** When the distinct keys ks cover xs, the occurrences of all keys add up to |xs|. */
  lemma {:induction false} TotalOccCovering<K(!new)>(ks: seq<K>, xs: seq<K>)
    requires Distinct(ks)
    requires forall k :: k in xs ==> k in ks
    ensures TotalOcc(ks, xs) == |xs|
    decreases |xs|
  {
    if |xs| == 0 {
      TotalOccEmpty(ks, xs);
    } else {
      var ys, x := xs[..|xs| - 1], xs[|xs| - 1];
      assert xs == ys + [x];
      TotalOccCovering(ks, ys);
      TotalOccSnoc(ks, ys, x);
      OccDistinctOne(ks, x);
    }
  }

  lemma {:induction false} TotalOccEmpty<K(!new)>(ks: seq<K>, xs: seq<K>)
    requires |xs| == 0
    ensures TotalOcc(ks, xs) == 0
    decreases |ks|
  {
    if |ks| > 0 {
      TotalOccEmpty(ks[..|ks| - 1], xs);
    }
  }

  /** Appending x to xs adds the number of times x occurs among the keys. */
  lemma {:induction false} TotalOccSnoc<K(!new)>(ks: seq<K>, ys: seq<K>, x: K)
    ensures TotalOcc(ks, ys + [x]) == TotalOcc(ks, ys) + Occ(ks, x)
    decreases |ks|
  {
    if |ks| > 0 {
      TotalOccSnoc(ks[..|ks| - 1], ys, x);
      assert (ys + [x])[..|ys + [x]| - 1] == ys;
    }
  }

  /** A key occurs exactly once in a duplicate-free list that contains it. */
  lemma {:induction false} OccDistinctOne<K(!new)>(ks: seq<K>, x: K)
    requires Distinct(ks) && x in ks
    ensures Occ(ks, x) == 1
    decreases |ks|
  {
    var init := ks[..|ks| - 1];
    if ks[|ks| - 1] == x {
      assert x !in init;
    } else {
      assert x in init;
      OccDistinctOne(init, x);
    }
  }

  /** Each key drawn from xs contributes at least one occurrence. */
  lemma {:induction false} TotalOccAtLeast<K(!new)>(ks: seq<K>, xs: seq<K>)
    requires forall k :: k in ks ==> k in xs
    ensures TotalOcc(ks, xs) >= |ks|
    decreases |ks|
  {
    if |ks| > 0 {
      assert ks[|ks| - 1] in ks;
      TotalOccAtLeast(ks[..|ks| - 1], xs);
    }
  }

  /** Position of the first occurrence of k in xs. */
  function FirstIndex<K(==)>(xs: seq<K>, k: K): (n: nat)
    requires k in xs
    ensures n < |xs| && xs[n] == k
    ensures forall m :: 0 <= m < n ==> xs[m] != k
  {
    var init := xs[..|xs| - 1];
    if k in init then FirstIndex(init, k) else |xs| - 1
  }

  /** The payload a bucket keeps is the payload of the first item of its group. */
  lemma {:induction false} FirstPayloadIsFirst<K(!new), P>(items: seq<Item<K, P>>, k: K)
    requires k in KeysOf(items)
    ensures FirstPayload(items, k) == items[FirstIndex(KeysOf(items), k)].payload
    decreases |items|
  {
    var init := items[..|items| - 1];
    assert KeysOf(init) == KeysOf(items)[..|items| - 1];
    if k in KeysOf(init) {
      FirstPayloadIsFirst(init, k);
    }
  }

  /** The count in the bucket for k, or 0 when k never occurs (`acc[k] || 0`). */
  function CountOf<K(==,!new), P>(g: seq<Bucket<K, P>>, k: K): nat {
    if |g| == 0 then 0 else if g[0].key == k then g[0].count else CountOf(g[1..], k)
  }

  /** Looking a key up in the buckets gives its number of occurrences. */
  lemma CountOfGroups<K(!new), P>(items: seq<Item<K, P>>, k: K)
    ensures CountOf(Groups(items), k) == Occ(KeysOf(items), k)
  {
    var g := Groups(items);
    GroupsSpec(items);
    CountOfLookup(g, k);
  }

  lemma {:induction false} CountOfLookup<K(!new), P>(g: seq<Bucket<K, P>>, k: K)
    requires forall i, j :: 0 <= i < j < |g| ==> g[i].key != g[j].key
    ensures forall i :: 0 <= i < |g| && g[i].key == k ==> CountOf(g, k) == g[i].count
    ensures (forall i :: 0 <= i < |g| ==> g[i].key != k) ==> CountOf(g, k) == 0
    decreases |g|
  {
    if |g| > 0 {
      CountOfLookup(g[1..], k);
    }
  }
}
