/**
  Totals of a numeric column over a table of rows.

  `Sum` adds a column up row by row and `Over` over row numbers.  The lemmas say how a total reacts
  when a row is added or replaced, when two tables are joined, when two columns agree or one is the sum
  of two others, and that a total of a column that is nowhere negative only grows.  Everything derived
  in the books is such a total.
*/
module Sums {

  function Sum<T>(xs: seq<T>, f: T -> real): real {
    if |xs| == 0 then 0.0 else Sum(xs[..|xs| - 1], f) + f(xs[|xs| - 1])
  }

  lemma SumAppend<T>(xs: seq<T>, x: T, f: T -> real)
    ensures Sum(xs + [x], f) == Sum(xs, f) + f(x)
  {
    assert (xs + [x])[..|xs|] == xs;
  }

  lemma SumOne<T>(x: T, f: T -> real)
    ensures Sum([x], f) == f(x)
  {
    assert [x][..0] == [];
  }

  lemma {:induction false} SumConcat<T>(xs: seq<T>, ys: seq<T>, f: T -> real)
    ensures Sum(xs + ys, f) == Sum(xs, f) + Sum(ys, f)
  {
    if |ys| == 0 {
      assert xs + ys == xs;
    } else {
      var last := |ys| - 1;
      SumConcat(xs, ys[..last], f);
      assert xs + ys == (xs + ys[..last]) + [ys[last]];
      SumAppend(xs + ys[..last], ys[last], f);
    }
  }

  /** Rewriting one row moves the total by exactly the change in that row. */
  lemma {:induction false} SumUpdate<T>(xs: seq<T>, k: nat, x: T, f: T -> real)
    requires k < |xs|
    ensures Sum(xs[k := x], f) == Sum(xs, f) - f(xs[k]) + f(x)
  {
    var last := |xs| - 1;
    if k == last {
      assert xs[k := x][..last] == xs[..last];
    } else {
      SumUpdate(xs[..last], k, x, f);
      assert xs[k := x][..last] == xs[..last][k := x];
    }
  }

  /** Tables that agree row by row have the same total. */
  lemma {:induction false} SumPointwise<S, T>(xs: seq<S>, ys: seq<T>, f: S -> real, g: T -> real)
    requires |xs| == |ys|
    requires forall k :: 0 <= k < |xs| ==> f(xs[k]) == g(ys[k])
    ensures Sum(xs, f) == Sum(ys, g)
  {
    if |xs| > 0 {
      SumPointwise(xs[..|xs| - 1], ys[..|ys| - 1], f, g);
    }
  }

  lemma {:induction false} SumZero<T>(xs: seq<T>, f: T -> real)
    requires forall k :: 0 <= k < |xs| ==> f(xs[k]) == 0.0
    ensures Sum(xs, f) == 0.0
  {
    if |xs| > 0 { SumZero(xs[..|xs| - 1], f); }
  }

  /** The total of row-by-row sums is the sum of the totals. */
  lemma {:induction false} SumPlus<S, T, U>(xs: seq<S>, ys: seq<T>, zs: seq<U>, f: S -> real, g: T -> real,
                                            h: U -> real)
    requires |xs| == |ys| == |zs|
    requires forall k :: 0 <= k < |xs| ==> f(xs[k]) == g(ys[k]) + h(zs[k])
    ensures Sum(xs, f) == Sum(ys, g) + Sum(zs, h)
  {
    if |xs| > 0 {
      var n := |xs| - 1;
      SumPlus(xs[..n], ys[..n], zs[..n], f, g, h);
    }
  }

  /** A column without negative entries: every prefix total is between zero and the whole total. */
  lemma {:induction false} SumPrefix<T>(xs: seq<T>, k: nat, f: T -> real)
    requires k <= |xs|
    requires forall j :: 0 <= j < |xs| ==> f(xs[j]) >= 0.0
    ensures 0.0 <= Sum(xs[..k], f) <= Sum(xs, f)
    decreases |xs|
  {
    if k < |xs| {
      var ys := xs[..|xs| - 1];
      SumPrefix(ys, k, f);
      assert ys[..k] == xs[..k];
    } else {
      assert xs[..k] == xs;
      if |xs| > 0 { SumPrefix(xs[..|xs| - 1], |xs| - 1, f); }
    }
  }

  /** Any single entry of a column without negative entries is at most the total. */
  lemma SumAtLeast<T>(xs: seq<T>, k: nat, f: T -> real)
    requires k < |xs|
    requires forall j :: 0 <= j < |xs| ==> f(xs[j]) >= 0.0
    ensures f(xs[k]) <= Sum(xs, f)
  {
    SumPrefix(xs, k + 1, f);
    SumPrefix(xs[..k + 1], k, f);
    assert xs[..k + 1][..k] == xs[..k];
  }

  // ----- Totals over row numbers -----

  function Over(n: nat, f: nat -> real): real {
    if n == 0 then 0.0 else Over(n - 1, f) + f(n - 1)
  }

  lemma {:induction false} OverPlus(n: nat, f: nat -> real, g: nat -> real, h: nat -> real)
    requires forall x: nat :: x < n ==> f(x) == g(x) + h(x)
    ensures Over(n, f) == Over(n, g) + Over(n, h)
  {
    if n > 0 { OverPlus(n - 1, f, g, h); }
  }

  lemma {:induction false} OverZero(n: nat, f: nat -> real)
    requires forall x: nat :: x < n ==> f(x) == 0.0
    ensures Over(n, f) == 0.0
  {
    if n > 0 { OverZero(n - 1, f); }
  }

  lemma {:induction false} OverPointwise(n: nat, f: nat -> real, g: nat -> real)
    requires forall x: nat :: x < n ==> f(x) == g(x)
    ensures Over(n, f) == Over(n, g)
  {
    if n > 0 { OverPointwise(n - 1, f, g); }
  }

  /** A single row stands out. */
  lemma {:induction false} OverSpike(n: nat, k: nat, f: nat -> real, v: real)
    requires k < n && forall x: nat :: x < n ==> f(x) == if x == k then v else 0.0
    ensures Over(n, f) == v
  {
    if k == n - 1 { OverZero(n - 1, f); } else { OverSpike(n - 1, k, f, v); }
  }

  lemma {:induction false} SumIsOver<T>(xs: seq<T>, f: T -> real, g: nat -> real)
    requires forall x: nat :: x < |xs| ==> f(xs[x]) == g(x)
    ensures Sum(xs, f) == Over(|xs|, g)
  {
    if |xs| > 0 {
      var n := |xs| - 1;
      SumIsOver(xs[..n], f, g);
    }
  }
}
