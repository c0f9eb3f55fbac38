/** Lookup tables: clamped piecewise-linear interpolation over (x, y) pairs
    (car.py: linearInterpolate, readLUT, and the unit table of readLUTFile). */
module Lut {
  import opened Numeric

  /** A table [[x0, y0], [x1, y1], ...]; the keys are meant to ascend. */
  type Table = seq<(real, real)>

  /** Keys strictly ascending, as the table files are written. */
  ghost predicate Ascending(t: Table) {
    forall i, j :: 0 <= i < j < |t| ==> t[i].0 < t[j].0
  }

  /** The table readLUTFile returns for a path that is not a ".lut" file. */
  const UnitTable: Table := [(0.0, 1.0), (1.0, 1.0)]

  /** The line through (x1, y1) and (x2, y2), evaluated at x. */
  function LinearInterpolate(x: real, x1: real, x2: real, y1: real, y2: real): (r: real)
    requires x1 != x2
    ensures x == x1 ==> r == y1
    ensures x == x2 ==> r == y2
    ensures x1 < x < x2 ==> (y1 <= y2 ==> y1 <= r <= y2) && (y2 <= y1 ==> y2 <= r <= y1)
  {
    var r := y1 + (x - x1) * (y2 - y1) / (x2 - x1);
    InterpolateFacts(x, x1, x2, y1, y2, r);
    r
  }

  lemma InterpolateFacts(x: real, x1: real, x2: real, y1: real, y2: real, r: real)
    requires x1 != x2
    requires r == y1 + (x - x1) * (y2 - y1) / (x2 - x1)
    ensures x == x1 ==> r == y1
    ensures x == x2 ==> r == y2
    ensures x1 < x < x2 ==> (y1 <= y2 ==> y1 <= r <= y2) && (y2 <= y1 ==> y2 <= r <= y1)
  {
    var d := x2 - x1;
    if x == x2 {
      assert (x - x1) * (y2 - y1) / d == y2 - y1;
    }
    if x1 < x < x2 {
      var t := (x - x1) / d;
      assert t * d == x - x1;
      assert (1.0 - t) * d == d - (x - x1);
      PositiveFactor(t, d);
      PositiveFactor(1.0 - t, d);
      assert (x - x1) * (y2 - y1) / d == t * (y2 - y1);
      if y1 <= y2 {
        assert 0.0 <= t * (y2 - y1) <= y2 - y1;
      } else {
        assert y2 - y1 <= t * (y2 - y1) <= 0.0;
      }
    }
  }

  lemma PositiveFactor(a: real, b: real)
    requires b > 0.0 && a * b > 0.0
    ensures a > 0.0
  {
  }

  /** The first index u >= 1 whose key is >= x, the upper index readLUT's
      search loop stops at. */
  function UpperIndex(t: Table, x: real): (u: nat)
    requires 2 <= |t| && x < t[|t| - 1].0
    ensures 1 <= u < |t| && t[u].0 >= x
    ensures forall j :: 1 <= j < u ==> t[j].0 < x
  {
    UpperIndexFrom(t, x, 1)
  }

  function UpperIndexFrom(t: Table, x: real, i: nat): (u: nat)
    requires 1 <= i < |t| && x < t[|t| - 1].0
    requires forall j :: 1 <= j < i ==> t[j].0 < x
    ensures i <= u < |t| && t[u].0 >= x
    ensures forall j :: 1 <= j < u ==> t[j].0 < x
    decreases |t| - i
  {
    if t[i].0 >= x then i else UpperIndexFrom(t, x, i + 1)
  }

  /** What readLUT returns: the first y at or below the first key, the last y at
      or above the last key, and otherwise the interpolation on the pair
      bracketing x. The bracket never has equal keys, whatever the table's order:
      its lower key was passed over by the search (or is the first key) and is
      below x, its upper key is at or above x. */
  function LutValue(x: real, t: Table): (r: real)
    requires |t| > 0
  {
    if x <= t[0].0 then t[0].1
    else if x >= t[|t| - 1].0 then t[|t| - 1].1
    else
      var u := UpperIndex(t, x);
      LinearInterpolate(x, t[u - 1].0, t[u].0, t[u - 1].1, t[u].1)
  }

  /** readLUT, with its linear search for the upper index. An empty table has
      no LUT[0] to compare with, and Python raises IndexError: None. */
  method ReadLUT(x: real, t: Table) returns (y: Option<real>)
    ensures y.None? <==> |t| == 0
    ensures |t| > 0 ==> y == Some(LutValue(x, t))
  {
    if |t| == 0 {
      return None;
    }
    if x <= t[0].0 {
      return Some(t[0].1);
    }
    if x >= t[|t| - 1].0 {
      return Some(t[|t| - 1].1);
    }
    var upperIndex := 0;
    var found := false;
    while upperIndex < |t| - 1 && !found
      invariant 0 <= upperIndex < |t|
      invariant found ==> 1 <= upperIndex && t[upperIndex].0 >= x
      invariant forall j :: 1 <= j < upperIndex ==> t[j].0 < x
      invariant !found ==> forall j :: 1 <= j <= upperIndex ==> t[j].0 < x
      decreases |t| - upperIndex, !found
    {
      upperIndex := upperIndex + 1;
      if t[upperIndex].0 >= x {
        found := true;
      }
    }
    assert found;
    assert upperIndex == UpperIndex(t, x) by {
      UpperIndexUnique(t, x, upperIndex);
    }
    var lowerIndex := upperIndex - 1;
    y := Some(LinearInterpolate(x, t[lowerIndex].0, t[upperIndex].0, t[lowerIndex].1, t[upperIndex].1));
  }

  lemma UpperIndexUnique(t: Table, x: real, u: nat)
    requires 2 <= |t| && x < t[|t| - 1].0
    requires 1 <= u < |t| && t[u].0 >= x
    requires forall j :: 1 <= j < u ==> t[j].0 < x
    ensures u == UpperIndex(t, x)
  {
  }

  /** Queries at or beyond either end of the table clamp to that end's y. */
  lemma LutClamps(x: real, t: Table)
    requires |t| > 0
    ensures x <= t[0].0 ==> LutValue(x, t) == t[0].1
    ensures x >= t[|t| - 1].0 && x > t[0].0 ==> LutValue(x, t) == t[|t| - 1].1
  {
  }

  /** Strictly inside the key range the value lies between the y's of the pair
      bracketing x, found as the first key at or above x. */
  lemma {:induction false} LutBetween(x: real, t: Table)
    requires |t| > 0 && t[0].0 < x < t[|t| - 1].0
    ensures var u := UpperIndex(t, x);
      var v := LutValue(x, t);
      t[u - 1].0 < x <= t[u].0 &&
      (t[u - 1].1 <= t[u].1 ==> t[u - 1].1 <= v <= t[u].1) &&
      (t[u].1 <= t[u - 1].1 ==> t[u].1 <= v <= t[u - 1].1)
  {
    var u := UpperIndex(t, x);
    if u - 1 >= 1 {
      assert t[u - 1].0 < x;
    }
  }

  /** In an ascending table a query at a key returns exactly that key's y. */
  lemma {:induction false} LutAtKey(t: Table, i: nat)
    requires i < |t| && Ascending(t)
    ensures LutValue(t[i].0, t) == t[i].1
  {
    var x := t[i].0;
    if i == 0 {
    } else if i == |t| - 1 {
      assert x > t[0].0;
    } else {
      assert t[0].0 < x < t[|t| - 1].0;
      UpperIndexUnique(t, x, i);
    }
  }

  /** The unit table is the constant function 1. */
  lemma UnitTableIsOne(x: real)
    ensures LutValue(x, UnitTable) == 1.0
  {
    if 0.0 < x < 1.0 {
      assert UpperIndex(UnitTable, x) == 1;
    }
  }

  /** Two-entry table [[0, 1], [10, 3]] queried at 5 gives 2. */
  lemma MidpointExample()
    ensures LutValue(5.0, [(0.0, 1.0), (10.0, 3.0)]) == 2.0
  {
    var t := [(0.0, 1.0), (10.0, 3.0)];
    assert UpperIndex(t, 5.0) == 1;
  }
}
