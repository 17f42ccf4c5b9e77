/** Exact real-number versions of Python's built-in `sum` and of
    `statistics.mean` / the sample variance behind `statistics.stdev`,
    with the facts about them that the rest of the model relies on. */
module Stats {

  /** Left-to-right sum, peeled from the back so that appending is one step. */
  function Sum(s: seq<real>): (r: real)
    decreases |s|
  {
    if s == [] then 0.0 else Sum(s[..|s| - 1]) + s[|s| - 1]
  }

  /** Arithmetic mean (`statistics.mean`); the empty sequence is an error there.
      The mean times the count gives back the sum. */
  function Mean(s: seq<real>): (m: real)
    requires |s| > 0
    ensures m * |s| as real == Sum(s)
  {
    Sum(s) / |s| as real
  }

  /** Every element multiplied by `c`. */
  function Scaled(s: seq<real>, c: real): (r: seq<real>)
    ensures |r| == |s|
    ensures forall i :: 0 <= i < |s| ==> r[i] == c * s[i]
  {
    seq(|s|, i requires 0 <= i < |s| => c * s[i])
  }

  /** Squared deviations from the mean. */
  function SquaredDeviations(s: seq<real>, m: real): (r: seq<real>)
    ensures |r| == |s|
    ensures forall i :: 0 <= i < |s| ==> r[i] == (s[i] - m) * (s[i] - m)
  {
    seq(|s|, i requires 0 <= i < |s| => (s[i] - m) * (s[i] - m))
  }

  /** Sample variance (divisor n - 1), the quantity whose square root
      `statistics.stdev` returns; it needs at least two data points and is
      never negative. */
  function SampleVariance(s: seq<real>): (v: real)
    requires |s| >= 2
    ensures v >= 0.0
  {
    var d := SquaredDeviations(s, Mean(s));
    DeviationsNonNegative(s, Mean(s));
    SumNonNegative(d);
    QuotientNonNegative(Sum(d), (|s| - 1) as real);
    Sum(d) / (|s| - 1) as real
  }

  /** A squared deviation is never negative. */
  lemma DeviationsNonNegative(s: seq<real>, m: real)
    ensures forall i :: 0 <= i < |s| ==> SquaredDeviations(s, m)[i] >= 0.0
  {
    var d := SquaredDeviations(s, m);
    forall i | 0 <= i < |s| ensures d[i] >= 0.0 {
      var e := s[i] - m;
      assert d[i] == e * e;
    }
  }

  /** A sequence of non-negative terms has a non-negative sum. */
  lemma {:induction false} SumNonNegative(s: seq<real>)
    requires forall i :: 0 <= i < |s| ==> s[i] >= 0.0
    ensures Sum(s) >= 0.0
    decreases |s|
  {
    if s != [] {
      SumNonNegative(s[..|s| - 1]);
    }
  }

  /** Summing a constant sequence multiplies the constant by the length. */
  lemma {:induction false} SumConstant(s: seq<real>, c: real)
    requires forall i :: 0 <= i < |s| ==> s[i] == c
    ensures Sum(s) == |s| as real * c
    decreases |s|
  {
    if s != [] {
      SumConstant(s[..|s| - 1], c);
    }
  }

  /** Sum is linear: scaling every term scales the sum. */
  lemma {:induction false} SumScaled(s: seq<real>, c: real)
    ensures Sum(Scaled(s, c)) == c * Sum(s)
    decreases |s|
  {
    if s != [] {
      var s' := s[..|s| - 1];
      SumScaled(s', c);
      var t := Scaled(s, c);
      assert forall i :: 0 <= i < |s'| ==> t[..|s| - 1][i] == Scaled(s', c)[i];
      assert t[..|s| - 1] == Scaled(s', c);
    }
  }

  /** Sum is monotone, and strictly so when one term is strictly larger. */
  lemma {:induction false} SumMonotone(a: seq<real>, b: seq<real>)
    requires |a| == |b|
    requires forall i :: 0 <= i < |a| ==> a[i] <= b[i]
    ensures Sum(a) <= Sum(b)
    ensures (exists k :: 0 <= k < |a| && a[k] < b[k]) ==> Sum(a) < Sum(b)
    decreases |a|
  {
    if a != [] {
      var n := |a| - 1;
      SumMonotone(a[..n], b[..n]);
      if exists k :: 0 <= k < |a| && a[k] < b[k] {
        var k :| 0 <= k < |a| && a[k] < b[k];
        if k < n {
          assert a[..n][k] < b[..n][k];
        }
      }
    }
  }

  /** A non-negative term is at most the sum of non-negative terms. */
  lemma {:induction false} TermAtMostSum(s: seq<real>, k: nat)
    requires k < |s|
    requires forall i :: 0 <= i < |s| ==> s[i] >= 0.0
    ensures s[k] <= Sum(s)
    decreases |s|
  {
    var s' := s[..|s| - 1];
    if k < |s| - 1 {
      TermAtMostSum(s', k);
    } else {
      SumNonNegative(s');
    }
  }

  /** The mean of a single data point is that point. */
  lemma MeanOfOne(s: seq<real>)
    requires |s| > 0
    ensures |s| == 1 ==> Mean(s) == s[0]
  {
    if |s| == 1 {
      assert s[..0] == [];
      assert Sum(s) == s[0];
    }
  }

  /** The mean of non-negative data is non-negative. */
  lemma MeanNonNegative(s: seq<real>)
    requires |s| > 0
    requires forall i :: 0 <= i < |s| ==> s[i] >= 0.0
    ensures Mean(s) >= 0.0
  {
    SumNonNegative(s);
    QuotientNonNegative(Sum(s), |s| as real);
  }

  lemma QuotientNonNegative(x: real, n: real)
    requires x >= 0.0 && n > 0.0
    ensures x / n >= 0.0
  {
  }

  /** A part of a positive whole is a fraction in [0, 1]. */
  lemma RatioInUnitInterval(x: real, t: real)
    requires 0.0 <= x <= t && t > 0.0
    ensures 0.0 <= x / t <= 1.0
  {
  }

  /** Dividing a product by one of its factors leaves the other. */
  lemma ProductOverFactor(n: real, c: real)
    requires n != 0.0
    ensures (n * c) / n == c
  {
  }

  /** Cross-multiplying two quotients by the same divisor. */
  lemma CrossRatio(a: real, b: real, t: real, p: real, q: real)
    requires t != 0.0 && p == a / t && q == b / t
    ensures p * b == q * a
  {
    assert a == p * t && b == q * t;
    assert p * (q * t) == q * (p * t);
  }

  /** A common non-zero factor cancels from a quotient. */
  lemma CancelFactor(c: real, x: real, t: real)
    requires c != 0.0 && t != 0.0
    ensures (c * x) / (c * t) == x / t
  {
    assert (c * x) / (c * t) * (c * t) == c * x;
  }

  /** Of two data sets of one size, the one with the larger sum has the larger mean. */
  lemma MeanStrictlyIncreases(a: seq<real>, b: seq<real>)
    requires 0 < |a| == |b| && Sum(a) < Sum(b)
    ensures Mean(a) < Mean(b)
  {
    var n := |a| as real;
    assert Sum(a) / n < Sum(b) / n;
  }

  /** The square of zero, kept apart so that the variance proof needs no
      non-linear step. */
  lemma SquareOfZero(x: real)
    requires x == 0.0
    ensures x * x == 0.0
  {
  }

  /** Data that are all equal have zero sample variance. */
  lemma SampleVarianceOfConstant(s: seq<real>, c: real)
    requires |s| >= 2
    requires forall i :: 0 <= i < |s| ==> s[i] == c
    ensures SampleVariance(s) == 0.0
  {
    var n := |s| as real;
    SumConstant(s, c);
    ProductOverFactor(n, c);
    assert Mean(s) == Sum(s) / n == (n * c) / n;
    var d := SquaredDeviations(s, c);
    assert SquaredDeviations(s, Mean(s)) == d;
    forall i | 0 <= i < |d| ensures d[i] == 0.0 {
      assert d[i] == (s[i] - c) * (s[i] - c);
      SquareOfZero(s[i] - c);
    }
    SumConstant(d, 0.0);
  }
}
