/** Shared numeric vocabulary: an optional value, the transcendental functions the
    models use (kept uninterpreted), angle conversions and sums over sequences. */
module Numeric {

  datatype Option<+T> = None | Some(value: T)

  /** The library functions math.sin, math.cos, math.asin, math.sqrt and pow.
      Their exact values are not modelled: every member that needs them takes
      this record as a parameter, and a lemma that needs a fact about them
      states that fact as a precondition. */
  datatype Maths = Maths(
    sin: real -> real,
    cos: real -> real,
    asin: real -> real,
    sqrt: real -> real,
    pow: (real, real) -> real)

  /** math.pi as a double. */
  const Pi: real := 3.141592653589793

  /** math.radians */
  function Radians(deg: real): real {
    deg * Pi / 180.0
  }

  /** math.degrees */
  function Degrees(rad: real): real {
    rad * 180.0 / Pi
  }

  /** Sum of a sequence, accumulated from the front as Python's sum() does. */
  function Sum(s: seq<real>): real
    decreases |s|
  {
    if |s| == 0 then 0.0 else Sum(s[..|s| - 1]) + s[|s| - 1]
  }

  /** The sum of a one-element sequence is that element. */
  lemma SumSingleton(x: real)
    ensures Sum([x]) == x
  {
    assert [x][..0] == [];
  }

  lemma SumPrefixStep(s: seq<real>, i: nat)
    requires i < |s|
    ensures Sum(s[..i + 1]) == Sum(s[..i]) + s[i]
  {
    assert s[..i + 1][..i] == s[..i];
  }

  lemma {:induction false} SumConcat(a: seq<real>, b: seq<real>)
    ensures Sum(a + b) == Sum(a) + Sum(b)
    decreases |b|
  {
    if |b| == 0 {
      assert a + b == a;
    } else {
      assert (a + b)[..|a + b| - 1] == a + b[..|b| - 1];
      SumConcat(a, b[..|b| - 1]);
    }
  }

  /** A sequence whose elements all equal c sums to |s| * c. */
  lemma {:induction false} SumConstant(s: seq<real>, c: real)
    requires forall i :: 0 <= i < |s| ==> s[i] == c
    ensures Sum(s) == (|s| as real) * c
    decreases |s|
  {
    if |s| > 0 {
      SumConstant(s[..|s| - 1], c);
    }
  }

  /** One value's share of a weighted sum: the value times its weight. */
  function Weigh(x: real, weight: real): real {
    x * weight
  }

  /** Sum of the pointwise products s[i] * w[i]. */
  function WeightedSum(s: seq<real>, w: seq<real>): real
    requires |s| == |w|
    decreases |s|
  {
    if |s| == 0 then 0.0 else WeightedSum(s[..|s| - 1], w[..|w| - 1]) + Weigh(s[|s| - 1], w[|w| - 1])
  }

  /** The weighted sum of the first i values extends that of the first i - 1. */
  lemma WeightedSumLast(s: seq<real>, w: seq<real>, i: nat)
    requires |s| == |w| && 0 < i <= |s|
    ensures WeightedSum(s[..i], w[..i]) == WeightedSum(s[..i - 1], w[..i - 1]) + Weigh(s[i - 1], w[i - 1])
  {
    assert s[..i][..i - 1] == s[..i - 1];
    assert w[..i][..i - 1] == w[..i - 1];
  }

  /** When every value is c, the weighted sum is c times the sum of the weights. */
  lemma {:induction false} WeightedSumConstant(s: seq<real>, w: seq<real>, c: real)
    requires |s| == |w|
    requires forall i :: 0 <= i < |s| ==> s[i] == c
    ensures WeightedSum(s, w) == c * Sum(w)
    decreases |s|
  {
    if |s| > 0 {
      WeightedSumConstant(s[..|s| - 1], w[..|w| - 1], c);
    }
  }

  /** With non-negative weights, raising values pointwise cannot lower the
      weighted sum. */
  lemma {:induction false} WeightedSumMonotone(s: seq<real>, t: seq<real>, w: seq<real>)
    requires |s| == |t| == |w|
    requires forall i :: 0 <= i < |w| ==> w[i] >= 0.0
    requires forall i :: 0 <= i < |s| ==> s[i] <= t[i]
    ensures WeightedSum(s, w) <= WeightedSum(t, w)
    decreases |s|
  {
    if |s| > 0 {
      var n := |s| - 1;
      WeightedSumMonotone(s[..n], t[..n], w[..n]);
      ProductNonNegative(t[n] - s[n], w[n]);
    }
  }

  /** With non-negative weights, the weighted sum lies between lo and hi times
      the weight sum when every value lies between lo and hi. */
  lemma WeightedSumBounds(s: seq<real>, w: seq<real>, lo: real, hi: real)
    requires |s| == |w|
    requires forall i :: 0 <= i < |w| ==> w[i] >= 0.0
    requires forall i :: 0 <= i < |s| ==> lo <= s[i] <= hi
    ensures lo * Sum(w) <= WeightedSum(s, w) <= hi * Sum(w)
  {
    var lows := seq(|s|, _ => lo);
    var highs := seq(|s|, _ => hi);
    WeightedSumMonotone(lows, s, w);
    WeightedSumMonotone(s, highs, w);
    WeightedSumConstant(lows, w, lo);
    WeightedSumConstant(highs, w, hi);
  }

  /** Sums respect a pointwise difference a[i] - b[i] == c[i]. */
  lemma {:induction false} SumDifference(a: seq<real>, b: seq<real>, c: seq<real>)
    requires |a| == |b| == |c|
    requires forall i :: 0 <= i < |a| ==> a[i] - b[i] == c[i]
    ensures Sum(a) - Sum(b) == Sum(c)
    decreases |a|
  {
    if |a| > 0 {
      var n := |a| - 1;
      SumDifference(a[..n], b[..n], c[..n]);
    }
  }

  /** Python's sum(values * weights) / sum(weights). */
  function WeightedAverage(s: seq<real>, w: seq<real>): real
    requires |s| == |w| && Sum(w) != 0.0
  {
    WeightedSum(s, w) / Sum(w)
  }

  /** A value that is the same in every sample averages to that value. */
  lemma WeightedAverageConstant(s: seq<real>, w: seq<real>, c: real)
    requires |s| == |w| && Sum(w) != 0.0
    requires forall i :: 0 <= i < |s| ==> s[i] == c
    ensures WeightedAverage(s, w) == c
  {
    WeightedSumConstant(s, w, c);
  }

  /** With non-negative weights the average lies within the range of the values. */
  lemma WeightedAverageBounds(s: seq<real>, w: seq<real>, lo: real, hi: real)
    requires |s| == |w| && Sum(w) != 0.0
    requires forall i :: 0 <= i < |w| ==> w[i] >= 0.0
    requires forall i :: 0 <= i < |s| ==> lo <= s[i] <= hi
    ensures lo <= WeightedAverage(s, w) <= hi
  {
    WeightedSumBounds(s, w, lo, hi);
    SumNonNegative(w);
    var t := Sum(w);
    var v := WeightedSum(s, w);
    assert lo * t <= v <= hi * t;
    assert v / t * t == v;
    assert t > 0.0;
    assert (v / t - lo) * t == v - lo * t;
    assert (hi - v / t) * t == hi * t - v;
    NonNegativeFactor(v / t - lo, t);
    NonNegativeFactor(hi - v / t, t);
  }

  lemma ProductNonNegative(a: real, b: real)
    requires a >= 0.0 && b >= 0.0
    ensures a * b >= 0.0
  {
  }

  lemma NonNegativeFactor(a: real, b: real)
    requires b > 0.0 && a * b >= 0.0
    ensures a >= 0.0
  {
  }

  lemma {:induction false} SumNonNegative(w: seq<real>)
    requires forall i :: 0 <= i < |w| ==> w[i] >= 0.0
    ensures Sum(w) >= 0.0
    decreases |w|
  {
    if |w| > 0 {
      SumNonNegative(w[..|w| - 1]);
    }
  }

  /** Bounds on every element bound the sum. */
  lemma {:induction false} SumBounds(s: seq<real>, lo: real, hi: real)
    requires forall i :: 0 <= i < |s| ==> lo <= s[i] <= hi
    ensures (|s| as real) * lo <= Sum(s) <= (|s| as real) * hi
    decreases |s|
  {
    if |s| > 0 {
      var n := |s| - 1;
      SumBounds(s[..n], lo, hi);
      assert (n as real) * lo + lo == (|s| as real) * lo;
      assert (n as real) * hi + hi == (|s| as real) * hi;
    }
  }

  /** sum(s) / len(s). */
  function Mean(s: seq<real>): real
    requires |s| > 0
  {
    Sum(s) / (|s| as real)
  }

  /** A sequence whose elements all equal c has mean c. */
  lemma MeanConstant(s: seq<real>, c: real)
    requires |s| > 0
    requires forall i :: 0 <= i < |s| ==> s[i] == c
    ensures Mean(s) == c
  {
    SumConstant(s, c);
    var n := |s| as real;
    assert (n * c) / n == c;
  }

  /** The mean lies within any bounds every element lies within. */
  lemma MeanBounds(s: seq<real>, lo: real, hi: real)
    requires |s| > 0
    requires forall i :: 0 <= i < |s| ==> lo <= s[i] <= hi
    ensures lo <= Mean(s) <= hi
  {
    SumBounds(s, lo, hi);
    var n := |s| as real;
    var v := Sum(s);
    assert v / n * n == v;
    assert (v / n - lo) * n == v - n * lo;
    assert (hi - v / n) * n == n * hi - v;
    NonNegativeFactor(v / n - lo, n);
    NonNegativeFactor(hi - v / n, n);
  }
}
