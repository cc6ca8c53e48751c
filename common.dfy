/** Shared value wrappers and sequence helpers used by every other module. */
module Common {

  /** A JavaScript value that may be `null` or `undefined` (None) or present. */
  datatype Option<+T> = None | Some(value: T) {
    function GetOr(default: T): T {
      match this
      case Some(v) => v
      case None => default
    }
  }

  function Min(a: int, b: int): int {
    if a <= b then a else b
  }

  /** `xs.slice(0, n)`: the first n elements, or all of them when there are fewer. */
  function Take<T>(xs: seq<T>, n: nat): (r: seq<T>)
    ensures |r| == Min(|xs|, n)
    ensures r == xs[..|r|]
    ensures |xs| <= n ==> r == xs
  {
    if |xs| <= n then xs else xs[..n]
  }

  /** Number of occurrences of x in xs. */
  function Occ<T(==)>(xs: seq<T>, x: T): (r: nat)
    ensures r <= |xs|
    ensures r == 0 <==> x !in xs
  {
    if |xs| == 0 then 0
    else Occ(xs[..|xs| - 1], x) + (if xs[|xs| - 1] == x then 1 else 0)
  }

  lemma OccAppend<T>(xs: seq<T>, ys: seq<T>, x: T)
    ensures Occ(xs + ys, x) == Occ(xs, x) + Occ(ys, x)
    decreases |ys|
  {
    if |ys| == 0 {
      assert xs + ys == xs;
    } else {
      assert (xs + ys)[..|xs + ys| - 1] == xs + ys[..|ys| - 1];
      OccAppend(xs, ys[..|ys| - 1], x);
    }
  }

  lemma OccSingle<T>(y: T, x: T)
    ensures Occ([y], x) == if y == x then 1 else 0
  {
    assert [y][..0] == [];
  }

  /** Elements are pairwise distinct. */
  predicate Distinct<T(==)>(xs: seq<T>) {
    forall i, j :: 0 <= i < j < |xs| ==> xs[i] != xs[j]
  }

  /** `xs.filter(p)`: the elements satisfying p, in their order in xs. */
  function Filter<T>(xs: seq<T>, p: T -> bool): (r: seq<T>)
    ensures |r| <= |xs|
    ensures forall i :: 0 <= i < |r| ==> p(r[i]) && r[i] in xs
    ensures forall i :: 0 <= i < |xs| && p(xs[i]) ==> xs[i] in r
  {
    if |xs| == 0 then []
    else
      var r := Filter(xs[..|xs| - 1], p);
      assert forall i :: 0 <= i < |xs| - 1 ==> xs[..|xs| - 1][i] == xs[i];
      if p(xs[|xs| - 1]) then r + [xs[|xs| - 1]] else r
  }
}
