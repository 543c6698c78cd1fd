/**
 * Indicator series as pandas holds them: a value per bar, or NaN while the
 * indicator's look-back window is still filling. Every comparison with NaN
 * is false, so a warm-up bar can never satisfy a signal condition.
 */
module Series {
  import opened Wrappers

  /** `a < b` on pandas floats. */
  predicate Lt(a: Option<real>, b: Option<real>)
  {
    a.Some? && b.Some? && a.value < b.value
  }

  /** `a <= b` on pandas floats. */
  predicate Le(a: Option<real>, b: Option<real>)
  {
    a.Some? && b.Some? && a.value <= b.value
  }

  /** `a > b` on pandas floats. */
  predicate Gt(a: Option<real>, b: Option<real>)
  {
    a.Some? && b.Some? && a.value > b.value
  }

  /** `a >= b` on pandas floats. */
  predicate Ge(a: Option<real>, b: Option<real>)
  {
    a.Some? && b.Some? && a.value >= b.value
  }

  /** `a * k`: NaN stays NaN. */
  function Scale(a: Option<real>, k: real): (r: Option<real>)
    ensures r.Some? <==> a.Some?
    ensures r.Some? ==> r.value == a.value * k
  {
    match a
    case None => None
    case Some(x) => Some(x * k)
  }

  /** The sum of a window of closes. */
  function Sum(xs: seq<real>): real
  {
    if |xs| == 0 then 0.0 else Sum(xs[..|xs| - 1]) + xs[|xs| - 1]
  }

  /** Short windows add up the obvious way. */
  lemma SumSmall(a: real, b: real, c: real)
    ensures Sum([a, b]) == a + b
    ensures Sum([a, b, c]) == a + b + c
  {
    assert [a, b, c][..2] == [a, b];
    assert [a, b][..1] == [a];
    assert [a][..0] == [];
    assert Sum([a]) == a;
    assert Sum([a, b]) == Sum([a]) + b;
    assert Sum([a, b, c]) == Sum([a, b]) + c;
  }

  /** A sum of values that all lie in `[lo, hi]` lies in `[|xs| * lo, |xs| * hi]`. */
  lemma {:induction false} SumBounds(xs: seq<real>, lo: real, hi: real)
    requires forall i :: 0 <= i < |xs| ==> lo <= xs[i] <= hi
    ensures |xs| as real * lo <= Sum(xs) <= |xs| as real * hi
  {
    if |xs| > 0 {
      SumBounds(xs[..|xs| - 1], lo, hi);
    }
  }

  /** `xs.rolling(window=w).mean()`: NaN until `w` values are available, then the mean of the last `w`. */
  function RollingMean(xs: seq<real>, w: nat): (ma: seq<Option<real>>)
    requires w >= 1
    ensures |ma| == |xs|
    ensures forall i :: 0 <= i < |ma| ==> (ma[i].None? <==> i + 1 < w)
  {
    seq(|xs|, i requires 0 <= i < |xs| =>
      if i + 1 < w then None else Some(Sum(xs[i + 1 - w..i + 1]) / w as real))
  }

  /** A defined average lies between the lowest and the highest value of its window. */
  lemma RollingMeanBounded(xs: seq<real>, w: nat, i: nat, lo: real, hi: real)
    requires w >= 1 && w <= i + 1 < |xs| + 1
    requires forall j :: i + 1 - w <= j <= i ==> lo <= xs[j] <= hi
    ensures RollingMean(xs, w)[i].Some?
    ensures lo <= RollingMean(xs, w)[i].value <= hi
  {
    var window := xs[i + 1 - w..i + 1];
    SumBounds(window, lo, hi);
    MeanBetween(Sum(window), w as real, lo, hi);
  }

  /** A sum of non-negative values is non-negative, and it is zero only when every value is. */
  lemma {:induction false} SumNonnegative(xs: seq<real>)
    requires forall i :: 0 <= i < |xs| ==> xs[i] >= 0.0
    ensures Sum(xs) >= 0.0
    ensures Sum(xs) == 0.0 ==> forall i :: 0 <= i < |xs| ==> xs[i] == 0.0
  {
    if |xs| > 0 {
      SumNonnegative(xs[..|xs| - 1]);
      assert forall i :: 0 <= i < |xs| - 1 ==> xs[..|xs| - 1][i] == xs[i];
    }
  }

  /** The rolling mean of non-negative values is non-negative wherever it is defined. */
  lemma RollingMeanNonnegative(xs: seq<real>, w: nat, i: nat)
    requires w >= 1 && i < |xs|
    requires forall j :: 0 <= j < |xs| ==> xs[j] >= 0.0
    ensures RollingMean(xs, w)[i].Some? ==> RollingMean(xs, w)[i].value >= 0.0
  {
    if w <= i + 1 {
      SumNonnegative(xs[i + 1 - w..i + 1]);
    }
  }

  /** A defined rolling mean of non-negative values is zero only when its whole window is. */
  lemma RollingMeanZero(xs: seq<real>, w: nat, i: nat)
    requires w >= 1 && w <= i + 1 && i < |xs|
    requires forall j :: 0 <= j < |xs| ==> xs[j] >= 0.0
    ensures RollingMean(xs, w)[i] == Some(0.0) ==> forall j :: i + 1 - w <= j <= i ==> xs[j] == 0.0
  {
    var window := xs[i + 1 - w..i + 1];
    SumNonnegative(window);
    if RollingMean(xs, w)[i] == Some(0.0) {
      assert Sum(window) / w as real == 0.0;
      assert Sum(window) == 0.0;
      forall j | i + 1 - w <= j <= i
        ensures xs[j] == 0.0
      {
        assert window[j - (i + 1 - w)] == xs[j];
      }
    }
  }

  /** If `n lo <= s <= n hi` with `n > 0`, the mean `s / n` lies in `[lo, hi]`. */
  lemma MeanBetween(s: real, n: real, lo: real, hi: real)
    requires n > 0.0 && n * lo <= s <= n * hi
    ensures lo <= s / n <= hi
  {
    var m := s / n;
    assert m * n == s;
    assert (m - lo) * n >= 0.0;
    assert (hi - m) * n >= 0.0;
  }
}
