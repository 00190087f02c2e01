/**
 * The per-column statistics the backend reports (`describe()`, `mean()`,
 * `std()`, `min()`, `max()`, `median()`, `quantile()`), stated over the
 * column's present values as exact reals. Quantiles interpolate linearly
 * between the two nearest ranks, as pandas does; the square root is a
 * parameter. A missing statistic (pandas' NaN) is None.
 */
module Stats {
  import opened Common

  function Sum(xs: seq<real>): real
  {
    if xs == [] then 0.0 else Sum(xs[..|xs| - 1]) + xs[|xs| - 1]
  }

  function Mean(xs: seq<real>): real
    requires |xs| > 0
  {
    Sum(xs) / (|xs| as real)
  }

  /** Sum of squared deviations from `m`. */
  function SquaredDeviations(xs: seq<real>, m: real): (r: real)
  {
    if xs == [] then 0.0
    else SquaredDeviations(xs[..|xs| - 1], m) + (xs[|xs| - 1] - m) * (xs[|xs| - 1] - m)
  }

  /** The sample variance (`ddof=1`) pandas' `std()` takes the root of. */
  function Variance(xs: seq<real>): (v: real)
    requires |xs| > 1
  {
    SquaredDeviations(xs, Mean(xs)) / ((|xs| - 1) as real)
  }

  predicate Sorted(s: seq<real>)
  {
    forall i, j :: 0 <= i < j < |s| ==> s[i] <= s[j]
  }

  /** The value a fraction `frac` of the way from rank `lo` to rank `lo + 1`. */
  function Interpolated(s: seq<real>, lo: nat, frac: real): real
    requires lo < |s|
  {
    if lo + 1 < |s| then s[lo] + frac * (s[lo + 1] - s[lo]) else s[lo]
  }

  /** Linear-interpolation quantile of a sorted, non-empty sequence. */
  function Quantile(s: seq<real>, p: real): real
    requires |s| > 0 && 0.0 <= p <= 1.0
  {
    var h := Rank(|s| - 1, p);
    FloorRange(h, |s| - 1);
    Interpolated(s, h.Floor, h - h.Floor as real)
  }

  /** The fractional rank `(n - 1) * p` of a quantile among n values. */
  function Rank(last: nat, p: real): (h: real)
    requires 0.0 <= p <= 1.0
    ensures 0.0 <= h <= last as real
  {
    IndexInRange(last, p);
    (last as real) * p
  }

  lemma FloorRange(h: real, n: nat)
    requires 0.0 <= h <= n as real
    ensures 0 <= h.Floor <= n
    ensures 0.0 <= h - h.Floor as real < 1.0
  {
  }

  lemma MulNonNegative(x: real, y: real)
    requires x >= 0.0 && y >= 0.0
    ensures x * y >= 0.0
  {
  }

  lemma IndexInRange(n: nat, p: real)
    requires 0.0 <= p <= 1.0
    ensures 0.0 <= (n as real) * p <= n as real
  {
    assert (n as real) * p <= (n as real) * 1.0;
  }

  lemma FloorMonotone(a: real, b: real)
    requires a <= b
    ensures a.Floor <= b.Floor
  {
  }

  /** An interpolated value lies between the two ranks it interpolates. */
  lemma InterpolatedBracket(s: seq<real>, lo: nat, frac: real)
    requires lo < |s| && 0.0 <= frac <= 1.0 && Sorted(s)
    ensures s[lo] <= Interpolated(s, lo, frac)
    ensures lo + 1 < |s| ==> Interpolated(s, lo, frac) <= s[lo + 1]
  {
    if lo + 1 < |s| {
      var a, b := s[lo], s[lo + 1];
      MulNonNegative(frac, b - a);
      MulNonNegative(1.0 - frac, b - a);
      assert (1.0 - frac) * (b - a) == (b - a) - frac * (b - a);
    }
  }

  lemma InterpolatedMonotone(s: seq<real>, lo: nat, f: real, g: real)
    requires lo < |s| && 0.0 <= f <= g && Sorted(s)
    ensures Interpolated(s, lo, f) <= Interpolated(s, lo, g)
  {
    if lo + 1 < |s| {
      var d := s[lo + 1] - s[lo];
      MulNonNegative(g - f, d);
      assert (g - f) * d == g * d - f * d;
    }
  }

  /** Every quantile lies between the minimum and the maximum. */
  lemma QuantileWithin(s: seq<real>, p: real)
    requires |s| > 0 && 0.0 <= p <= 1.0 && Sorted(s)
    ensures s[0] <= Quantile(s, p) <= s[|s| - 1]
  {
    var h := Rank(|s| - 1, p);
    FloorRange(h, |s| - 1);
    InterpolatedBracket(s, h.Floor, h - h.Floor as real);
  }

  lemma ScaleMonotone(n: nat, p: real, q: real)
    requires 0.0 <= p <= q <= 1.0
    ensures Rank(n, p) <= Rank(n, q)
  {
    MulNonNegative(n as real, q - p);
    assert (n as real) * (q - p) == (n as real) * q - (n as real) * p;
  }

  /** Interpolated values grow with the fractional rank. */
  lemma RankMonotone(s: seq<real>, hp: real, hq: real)
    requires |s| > 0 && Sorted(s)
    requires 0.0 <= hp <= hq <= (|s| - 1) as real
    ensures Interpolated(s, hp.Floor, hp - hp.Floor as real) <= Interpolated(s, hq.Floor, hq - hq.Floor as real)
  {
    FloorRange(hp, |s| - 1);
    FloorRange(hq, |s| - 1);
    FloorMonotone(hp, hq);
    var lp, lq := hp.Floor, hq.Floor;
    if lp == lq {
      InterpolatedMonotone(s, lp, hp - lp as real, hq - lq as real);
    } else {
      InterpolatedBracket(s, lp, hp - lp as real);
      InterpolatedBracket(s, lq, hq - lq as real);
      assert s[lp + 1] <= s[lq];
    }
  }

  /** Quantiles grow with the probability. */
  lemma QuantileMonotone(s: seq<real>, p: real, q: real)
    requires |s| > 0 && 0.0 <= p <= q <= 1.0 && Sorted(s)
    ensures Quantile(s, p) <= Quantile(s, q)
  {
    ScaleMonotone(|s| - 1, p, q);
    RankMonotone(s, Rank(|s| - 1, p), Rank(|s| - 1, q));
  }

  lemma {:induction false} SumBounds(xs: seq<real>, lo: real, hi: real)
    requires forall i :: 0 <= i < |xs| ==> lo <= xs[i] <= hi
    ensures (|xs| as real) * lo <= Sum(xs) <= (|xs| as real) * hi
  {
    if xs != [] {
      SumBounds(xs[..|xs| - 1], lo, hi);
    }
  }

  /** The mean lies between any lower and upper bound of the values. */
  lemma MeanWithin(xs: seq<real>, lo: real, hi: real)
    requires |xs| > 0
    requires forall i :: 0 <= i < |xs| ==> lo <= xs[i] <= hi
    ensures lo <= Mean(xs) <= hi
  {
    SumBounds(xs, lo, hi);
    var n := |xs| as real;
    assert Sum(xs) / n >= (n * lo) / n;
    assert Sum(xs) / n <= (n * hi) / n;
  }

  /** `describe()` of one column: count, mean, std, min, 25%, 50%, 75%, max. */
  datatype Summary = Summary(
    count: nat,
    mean: Option<real>,
    std: Option<real>,
    min: Option<real>,
    q25: Option<real>,
    q50: Option<real>,
    q75: Option<real>,
    max: Option<real>)

  function Describe(xs: seq<real>, sqrt: real -> real): (r: Summary)
  {
    var n := |xs|;
    var s := SortReals(xs);
    if n == 0 then Summary(0, None, None, None, None, None, None, None)
    else
      Summary(n, Some(Mean(xs)),
              if n > 1 then Some(sqrt(Variance(xs))) else None,
              Some(s[0]), Some(Quantile(s, 0.25)), Some(Quantile(s, 0.5)),
              Some(Quantile(s, 0.75)), Some(s[n - 1]))
  }

  /** The eight statistics in the order the report lists them. */
  function StatValues(d: Summary): (r: seq<Option<real>>)
    ensures |r| == 8
  {
    [Some(d.count as real), d.mean, d.std, d.min, d.q25, d.q50, d.q75, d.max]
  }

  /** What `describe()` promises of a column: the count is the number of
    * values; with values present, min and max are values of the column and
    * bound every value, the quartiles are ordered between them, and the mean
    * lies between them too; std exists exactly when there are two or more. */
  lemma DescribeFacts(xs: seq<real>, sqrt: real -> real)
    ensures Describe(xs, sqrt).count == |xs|
    ensures |xs| == 0 ==> StatValues(Describe(xs, sqrt))[1..] == [None, None, None, None, None, None, None]
    ensures Describe(xs, sqrt).std.Some? <==> |xs| > 1
    ensures |xs| > 0 ==>
      var d := Describe(xs, sqrt);
      d.min.Some? && d.max.Some? && d.mean.Some? && d.q25.Some? && d.q50.Some? && d.q75.Some? &&
      d.min.value in xs && d.max.value in xs &&
      (forall i :: 0 <= i < |xs| ==> d.min.value <= xs[i] <= d.max.value) &&
      d.min.value <= d.q25.value <= d.q50.value <= d.q75.value <= d.max.value &&
      d.min.value <= d.mean.value <= d.max.value
  {
    if |xs| > 0 {
      var s := SortReals(xs);
      SortRealsCorrect(xs);
      assert Sorted(s);
      var n := |s|;
      assert s[0] in multiset(xs) && s[n - 1] in multiset(xs);
      forall i | 0 <= i < |xs| ensures s[0] <= xs[i] <= s[n - 1] {
        assert xs[i] in multiset(s);
        var k :| 0 <= k < n && s[k] == xs[i];
      }
      QuantileWithin(s, 0.25);
      QuantileWithin(s, 0.75);
      QuantileMonotone(s, 0.25, 0.5);
      QuantileMonotone(s, 0.5, 0.75);
      MeanWithin(xs, s[0], s[n - 1]);
    }
  }
}
