/** The ride-height grids stepped by the float loops
      x = min; while x <= max + step / 2: ...; x += step
    of car.py, taken with exact arithmetic: the k-th value is min + k * step and
    the loop runs Count(min, max, step) times. Also round(x, 3), as the
    whole number of millimetres it denotes. */
module Lattice {

  /** The k-th value of a stepped loop. */
  function Point(min: real, step: real, k: nat): real {
    min + (k as real) * step
  }

  /** Adding one step moves to the next value. */
  lemma PointStep(min: real, step: real, k: nat)
    ensures Point(min, step, k) + step == Point(min, step, k + 1)
  {
  }

  /** How many values the loop visits: every k >= 0 with
      min + k * step <= max + step / 2. */
  function Count(min: real, max: real, step: real): (n: nat)
    requires step > 0.0
    ensures forall k: nat :: Point(min, step, k) <= max + step / 2.0 <==> k < n
  {
    var d := max + step / 2.0 - min;
    if d < 0.0 then
      NoPoints(min, max, step);
      0
    else
      var n := (d / step).Floor + 1;
      GuardBelowCount(min, max, step, n - 1);
      n
  }

  lemma NoPoints(min: real, max: real, step: real)
    requires step > 0.0 && max + step / 2.0 - min < 0.0
    ensures forall k: nat :: !(Point(min, step, k) <= max + step / 2.0)
  {
    forall k: nat ensures !(Point(min, step, k) <= max + step / 2.0) {
      assert (k as real) * step >= 0.0;
    }
  }

  /** The loop guard holds exactly for the indices up to the floor of the
      distance to the margin, measured in steps. */
  lemma GuardBelowCount(min: real, max: real, step: real, f: int)
    requires step > 0.0 && max + step / 2.0 - min >= 0.0
    requires f == ((max + step / 2.0 - min) / step).Floor
    ensures f >= 0
    ensures forall k: nat :: Point(min, step, k) <= max + step / 2.0 <==> k <= f
  {
    var d := max + step / 2.0 - min;
    var q := d / step;
    assert q >= 0.0;
    assert q * step == d;
    forall k: nat ensures Point(min, step, k) <= max + step / 2.0 <==> k <= f {
      if k <= f {
        assert (k as real) <= q;
        assert (k as real) * step <= q * step;
      } else {
        assert (k as real) > q;
        assert (k as real) * step > q * step;
      }
    }
  }

  /** The values a stepped loop visits, in order. */
  function Values(min: real, max: real, step: real): (r: seq<real>)
    requires step > 0.0
    ensures |r| == Count(min, max, step)
    ensures forall k :: 0 <= k < |r| ==> r[k] == Point(min, step, k)
  {
    seq(Count(min, max, step), k requires 0 <= k => Point(min, step, k))
  }

  /** The grid is inclusive of the max: a max reached exactly by whole steps is
      the last value. */
  lemma {:induction false} ValuesInclusive(min: real, step: real, n: nat)
    requires step > 0.0
    ensures Count(min, Point(min, step, n), step) == n + 1
  {
    var max := Point(min, step, n);
    assert Point(min, step, n) <= max + step / 2.0;
    assert Point(min, step, n + 1) > max + step / 2.0;
  }

  /** One-millimetre steps from 0 to 0.002 give three values. */
  lemma MillimetreExample()
    ensures Values(0.0, 0.002, 0.001) == [0.0, 0.001, 0.002]
  {
    ValuesInclusive(0.0, 0.001, 2);
  }

  /** round(x, 3) counted in millimetres: the whole number nearest to
      1000 * x, an exact tie going to the even neighbour. */
  function RoundToMillimetre(x: real): (k: int)
    ensures (k as real) - 0.5 <= 1000.0 * x <= (k as real) + 0.5
    ensures 1000.0 * x == (k as real) - 0.5 ==> k % 2 == 0
    ensures 1000.0 * x == (k as real) + 0.5 ==> k % 2 == 0
  {
    var y := 1000.0 * x;
    var f := y.Floor;
    var frac := y - f as real;
    if frac < 0.5 then f
    else if frac > 0.5 then f + 1
    else if f % 2 == 0 then f else f + 1
  }

  /** A whole number of millimetres rounds to itself. */
  lemma RoundWholeMillimetre(k: int)
    ensures RoundToMillimetre((k as real) / 1000.0) == k
  {
    assert 1000.0 * ((k as real) / 1000.0) == k as real;
  }

  /** Rounding keeps the order of its arguments. */
  lemma RoundMonotone(x: real, y: real)
    requires x <= y
    ensures RoundToMillimetre(x) <= RoundToMillimetre(y)
  {
  }
}
