/**
 * Numeric helpers over exact reals: the clamp used by every score, sums,
 * means, the population variance of np.std, maxima, and np.percentile's
 * default linear interpolation on the sorted samples.
 */
module Reals {
  import opened Common

  /** min(1.0, max(0.0, x)) */
  function Clamp01(x: real): (r: real)
    ensures 0.0 <= r <= 1.0
    ensures 0.0 <= x <= 1.0 ==> r == x
    ensures x >= 1.0 ==> r == 1.0
    ensures x <= 0.0 ==> r == 0.0
  {
    if x < 0.0 then 0.0 else if x > 1.0 then 1.0 else x
  }

  /** max(0, x) */
  function Max0(x: real): (r: real)
    ensures r >= 0.0 && r >= x
    ensures r == x || r == 0.0
  {
    if x < 0.0 then 0.0 else x
  }

  ghost predicate AllIn(s: seq<real>, lo: real, hi: real) {
    forall i :: 0 <= i < |s| ==> lo <= s[i] <= hi
  }

  lemma AllInSnoc(s: seq<real>, x: real, lo: real, hi: real)
    requires AllIn(s, lo, hi) && lo <= x <= hi
    ensures AllIn(s + [x], lo, hi)
  {
    assert forall i :: 0 <= i < |s| ==> (s + [x])[i] == s[i];
  }

  function Sum(s: seq<real>): real {
    if s == [] then 0.0 else Sum(s[..|s| - 1]) + s[|s| - 1]
  }

  /** np.mean of a non-empty sequence. */
  function Mean(s: seq<real>): real
    requires |s| > 0
  {
    Sum(s) / |s| as real
  }

  function SumSquaredDeviations(s: seq<real>, m: real): real {
    if s == [] then 0.0 else SumSquaredDeviations(s[..|s| - 1], m) + (s[|s| - 1] - m) * (s[|s| - 1] - m)
  }

  /** np.var (ddof = 0), the square of np.std. */
  function Variance(s: seq<real>): (r: real)
    requires |s| > 0
    ensures r >= 0.0
  {
    SquaredDeviationsNonNegative(s, Mean(s));
    SumSquaredDeviations(s, Mean(s)) / |s| as real
  }

  lemma {:induction false} SquaredDeviationsNonNegative(s: seq<real>, m: real)
    ensures SumSquaredDeviations(s, m) >= 0.0
  {
    if s != [] {
      SquaredDeviationsNonNegative(s[..|s| - 1], m);
      var d := s[|s| - 1] - m;
      assert d * d >= 0.0 by {
        if d < 0.0 { assert d * d == (-d) * (-d); }
      }
    }
  }

  /** max() of a non-empty sequence. */
  function MaxOf(s: seq<real>): (r: real)
    requires |s| > 0
    ensures r in s
    ensures forall i :: 0 <= i < |s| ==> s[i] <= r
  {
    if |s| == 1 then s[0]
    else
      var m := MaxOf(s[..|s| - 1]);
      if s[|s| - 1] > m then s[|s| - 1] else m
  }

  lemma {:induction false} SumSnoc(s: seq<real>, x: real)
    ensures Sum(s + [x]) == Sum(s) + x
  {
    assert (s + [x])[..|s + [x]| - 1] == s;
  }

  /** A sum of |s| values each at most hi is at most |s|·hi. */
  lemma {:induction false} SumAtMost(s: seq<real>, hi: real)
    requires forall i :: 0 <= i < |s| ==> s[i] <= hi
    ensures Sum(s) <= |s| as real * hi
  {
    if s != [] {
      SumAtMost(s[..|s| - 1], hi);
    }
  }

  /** A sum of |s| values each at least lo is at least |s|·lo. */
  lemma {:induction false} SumAtLeast(s: seq<real>, lo: real)
    requires forall i :: 0 <= i < |s| ==> lo <= s[i]
    ensures |s| as real * lo <= Sum(s)
  {
    if s != [] {
      SumAtLeast(s[..|s| - 1], lo);
    }
  }

  /** A sum of |s| values in [lo, hi] lies in [|s|·lo, |s|·hi]. */
  lemma SumBounds(s: seq<real>, lo: real, hi: real)
    requires AllIn(s, lo, hi)
    ensures |s| as real * lo <= Sum(s) <= |s| as real * hi
  {
    SumAtMost(s, hi);
    SumAtLeast(s, lo);
  }

  lemma MulNonNegative(a: real, b: real)
    requires a >= 0.0 && b >= 0.0
    ensures a * b >= 0.0
  {
  }

  /** Dividing by a positive count keeps an upper bound: a ≤ n·b gives a/n ≤ b. */
  lemma DivAtMost(a: real, n: real, b: real)
    requires n > 0.0 && a <= n * b
    ensures a / n <= b
  {
    var d := a / n;
    assert d * n == a;
  }

  /** Dividing by a positive count keeps a lower bound: n·b ≤ a gives b ≤ a/n. */
  lemma DivAtLeast(a: real, n: real, b: real)
    requires n > 0.0 && n * b <= a
    ensures b <= a / n
  {
    DivAtMost(-a, n, -b);
    assert -a / n == -(a / n);
  }

  /** Dividing by a positive count keeps a strict lower bound. */
  lemma DivAbove(a: real, n: real, b: real)
    requires n > 0.0 && n * b < a
    ensures b < a / n
  {
    var d := a / n;
    assert d * n == a;
  }

  /** Dividing by a non-zero value and multiplying back restores it. */
  lemma DivTimes(a: real, d: real)
    requires d != 0.0
    ensures (a / d) * d == a
  {
  }

  /** A product is zero exactly when one of its factors is. */
  lemma ZeroProduct(a: real, b: real)
    ensures a * b == 0.0 <==> a == 0.0 || b == 0.0
  {
    if a != 0.0 && a * b == 0.0 {
      assert b == (a * b) / a;
    }
  }

  /** The mean of values in [lo, hi] lies in [lo, hi]. */
  lemma MeanBounds(s: seq<real>, lo: real, hi: real)
    requires |s| > 0 && AllIn(s, lo, hi)
    ensures lo <= Mean(s) <= hi
  {
    SumBounds(s, lo, hi);
    DivAtLeast(Sum(s), |s| as real, lo);
    DivAtMost(Sum(s), |s| as real, hi);
  }

  /** A sum of values all strictly above v exceeds |s|·v. */
  lemma {:induction false} SumAbove(s: seq<real>, v: real)
    requires |s| > 0
    requires forall i :: 0 <= i < |s| ==> s[i] > v
    ensures Sum(s) > |s| as real * v
  {
    if |s| > 1 {
      SumAbove(s[..|s| - 1], v);
    }
  }

  /** The mean of values all strictly above v is strictly above v. */
  lemma MeanAbove(s: seq<real>, v: real)
    requires |s| > 0
    requires forall i :: 0 <= i < |s| ==> s[i] > v
    ensures Mean(s) > v
  {
    SumAbove(s, v);
    DivAbove(Sum(s), |s| as real, v);
  }

  /** The mean of values at most m is at most m. */
  lemma MeanAtMost(s: seq<real>, m: real)
    requires |s| > 0
    requires forall i :: 0 <= i < |s| ==> s[i] <= m
    ensures Mean(s) <= m
  {
    SumAtMost(s, m);
    DivAtMost(Sum(s), |s| as real, m);
  }

  /** The mean of equal values is that value. */
  lemma MeanOfUniform(s: seq<real>, v: real)
    requires |s| > 0
    requires forall i :: 0 <= i < |s| ==> s[i] == v
    ensures Mean(s) == v
  {
    MeanAtMost(s, v);
    SumAtLeast(s, v);
    DivAtLeast(Sum(s), |s| as real, v);
  }

  /** The mean never exceeds the maximum. */
  lemma MeanAtMostMax(s: seq<real>)
    requires |s| > 0
    ensures Mean(s) <= MaxOf(s)
  {
    MeanAtMost(s, MaxOf(s));
  }

  /** Summing pointwise-smaller values gives a smaller sum. */
  lemma {:induction false} SumMonotone(a: seq<real>, b: seq<real>)
    requires |a| == |b|
    requires forall i :: 0 <= i < |a| ==> a[i] <= b[i]
    ensures Sum(a) <= Sum(b)
  {
    if a != [] {
      SumMonotone(a[..|a| - 1], b[..|b| - 1]);
    }
  }

  /** The product of a list of factors, multiplied left to right. */
  function Product(fs: seq<real>): real {
    if fs == [] then 1.0 else Product(fs[..|fs| - 1]) * fs[|fs| - 1]
  }

  lemma {:induction false} ProductNonNegative(fs: seq<real>)
    requires forall i :: 0 <= i < |fs| ==> fs[i] >= 0.0
    ensures Product(fs) >= 0.0
  {
    if fs != [] {
      ProductNonNegative(fs[..|fs| - 1]);
      MulNonNegative(Product(fs[..|fs| - 1]), fs[|fs| - 1]);
    }
  }

  /** A zero factor makes the whole product zero. */
  lemma {:induction false} ProductZero(fs: seq<real>, k: nat)
    requires k < |fs| && fs[k] == 0.0
    ensures Product(fs) == 0.0
  {
    if k < |fs| - 1 {
      ProductZero(fs[..|fs| - 1], k);
    }
  }

  /** Raising non-negative factors never lowers the product. */
  lemma {:induction false} ProductMonotone(a: seq<real>, b: seq<real>)
    requires |a| == |b|
    requires forall i :: 0 <= i < |a| ==> 0.0 <= a[i] <= b[i]
    ensures 0.0 <= Product(a) <= Product(b)
  {
    if a != [] {
      var n := |a| - 1;
      ProductMonotone(a[..n], b[..n]);
      var pa, pb := Product(a[..n]), Product(b[..n]);
      MulNonNegative(pa, a[n]);
      MulNonNegative(pb - pa, a[n]);
      MulNonNegative(pb, b[n] - a[n]);
      assert pb * b[n] - pa * a[n] == (pb - pa) * a[n] + pb * (b[n] - a[n]);
    }
  }

  // ---------------------------------------------------------------------
  // Sorting and np.percentile

  ghost predicate Sorted(s: seq<real>) {
    forall i, j :: 0 <= i < j < |s| ==> s[i] <= s[j]
  }

  function Insert(x: real, s: seq<real>): (r: seq<real>)
    requires Sorted(s)
    ensures Sorted(r)
    ensures multiset(r) == multiset(s) + multiset{x}
    ensures |r| == |s| + 1
  {
    if s == [] then [x]
    else if x <= s[0] then [x] + s
    else
      var t := Insert(x, s[1..]);
      InsertAbove(x, s, t);
      [s[0]] + t
  }

  lemma InsertAbove(x: real, s: seq<real>, t: seq<real>)
    requires Sorted(s) && |s| > 0 && s[0] < x
    requires Sorted(t) && multiset(t) == multiset(s[1..]) + multiset{x}
    ensures Sorted([s[0]] + t)
    ensures multiset([s[0]] + t) == multiset(s) + multiset{x}
  {
    assert s == [s[0]] + s[1..];
    forall i | 0 <= i < |t| ensures s[0] <= t[i] {
      assert t[i] in multiset(t);
      if t[i] != x {
        assert t[i] in multiset(s[1..]);
        assert t[i] in s[1..];
      }
    }
  }

  /** The ascending rearrangement of the samples (what np.percentile sorts first). */
  function Sort(s: seq<real>): (r: seq<real>)
    ensures Sorted(r)
    ensures multiset(r) == multiset(s)
    ensures |r| == |s|
  {
    if s == [] then []
    else
      assert s == [s[0]] + s[1..];
      Insert(s[0], Sort(s[1..]))
  }

  /** Linear interpolation at rank (n−1)·q/100 of an ascending sequence. */
  function Interpolate(t: seq<real>, q: real): (r: real)
    requires |t| > 0 && Sorted(t) && 0.0 <= q <= 100.0
    ensures t[0] <= r <= t[|t| - 1]
  {
    var p := q / 100.0;
    var h := (|t| - 1) as real * p;
    var lo := h.Floor;
    assert 0 <= lo <= |t| - 1 by {
      var n1 := (|t| - 1) as real;
      assert 0.0 <= p <= 1.0;
      assert n1 - h == n1 * (1.0 - p);
      MulNonNegative(n1, 1.0 - p);
      MulNonNegative(n1, p);
    }
    var frac := h - lo as real;
    if lo + 1 < |t| then
      assert t[0] <= t[lo] <= t[lo + 1] <= t[|t| - 1];
      Lerp(t[lo], t[lo + 1], frac);
      t[lo] + frac * (t[lo + 1] - t[lo])
    else
      t[lo]
  }

  /** A point between a and b at fraction f of the way lies between them. */
  lemma Lerp(a: real, b: real, f: real)
    requires a <= b && 0.0 <= f <= 1.0
    ensures a <= a + f * (b - a) <= b
  {
    MulNonNegative(f, b - a);
    MulNonNegative(1.0 - f, b - a);
    assert b - (a + f * (b - a)) == (1.0 - f) * (b - a);
  }

  /** np.percentile(samples, q) with the default 'linear' method. */
  function Percentile(samples: seq<real>, q: real): (r: Result<real>)
    ensures r.Failure? <==> |samples| == 0 || q < 0.0 || q > 100.0
    ensures r.Success? ==> MinOfBound(samples, r.value) && r.value <= MaxOf(samples)
  {
    if |samples| == 0 then Failure(EmptySamples)
    else if q < 0.0 || q > 100.0 then Failure(PercentileOutOfRange)
    else
      var t := Sort(samples);
      var v := Interpolate(t, q);
      SortedEnds(samples, t);
      Success(v)
  }

  /** Some sample is at most v. */
  ghost predicate MinOfBound(s: seq<real>, v: real) {
    exists i :: 0 <= i < |s| && s[i] <= v
  }

  /** The first and last elements of the sorted samples are a minimum and the maximum of the samples. */
  lemma SortedEnds(s: seq<real>, t: seq<real>)
    requires |s| > 0 && Sorted(t) && multiset(t) == multiset(s)
    ensures |t| == |s|
    ensures t[|t| - 1] == MaxOf(s)
    ensures t[0] in s && forall i :: 0 <= i < |s| ==> t[0] <= s[i]
  {
    assert |t| == |multiset(t)| == |multiset(s)| == |s|;
    var m := MaxOf(s);
    assert t[|t| - 1] in multiset(s);
    assert m in multiset(t);
    forall i | 0 <= i < |s| ensures t[0] <= s[i] {
      assert s[i] in multiset(t);
    }
    assert t[0] in multiset(s);
  }

  /** s[s > v]: the elements strictly above v, in order. */
  function StrictlyAbove(s: seq<real>, v: real): (r: seq<real>)
    ensures |r| <= |s|
    ensures forall i :: 0 <= i < |r| ==> r[i] > v && r[i] in s
    ensures |r| > 0 <==> exists i :: 0 <= i < |s| && s[i] > v
  {
    if s == [] then []
    else
      var init := s[..|s| - 1];
      var r := StrictlyAbove(init, v);
      assert forall x :: x in init ==> x in s;
      assert forall i :: 0 <= i < |init| ==> init[i] == s[i];
      if s[|s| - 1] > v then r + [s[|s| - 1]] else r
  }

  /** np.median: the percentile at q = 50. */
  function Median(samples: seq<real>): (r: Result<real>)
    ensures r.Failure? <==> |samples| == 0
  {
    Percentile(samples, 50.0)
  }

  /** The median of an ascending sequence is its middle element, or the average of the two middle ones. */
  lemma MedianIsMiddle(t: seq<real>)
    requires |t| > 0 && Sorted(t)
    ensures |t| % 2 == 1 ==> Interpolate(t, 50.0) == t[|t| / 2]
    ensures |t| % 2 == 0 ==> Interpolate(t, 50.0) == (t[|t| / 2 - 1] + t[|t| / 2]) / 2.0
  {
    var n := |t|;
    var h := (n - 1) as real * (50.0 / 100.0);
    if n % 2 == 1 {
      assert h == (n / 2) as real;
      assert h.Floor == n / 2;
    } else {
      assert h == (n / 2 - 1) as real + 0.5;
      assert h.Floor == n / 2 - 1;
    }
  }
}
