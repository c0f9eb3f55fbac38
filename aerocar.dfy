/** The aero calculator's Car (car.py) and the module-level grid helpers:
    clipping colour-map data in place, the ride-height envelope, wing angles,
    collider validity, the aero numbers, the aero map, the speed-weighted
    telemetry average and the exhaustive setup search. Each method is proved
    against the functions of modules Lut, Geometry, Aero, Lattice and
    SetupSearch. */
module AeroCar {
  import opened Numeric
  import opened Geometry
  import opened Aero
  import opened Lattice
  import opened SetupSearch

  // ------------------------------------------------------------- clipping

  /** One value clipped: below the lower bound it becomes the lower bound,
      otherwise above the upper bound it becomes the upper bound. */
  function Clip(v: real, lowerBound: real, upperBound: real): (r: real)
    ensures lowerBound <= upperBound ==> lowerBound <= r <= upperBound
    ensures lowerBound <= v <= upperBound ==> r == v
  {
    if v < lowerBound then lowerBound else if v > upperBound then upperBound else v
  }

  /** Clipping twice is clipping once. */
  lemma ClipIdempotent(v: real, lowerBound: real, upperBound: real)
    requires lowerBound <= upperBound
    ensures Clip(Clip(v, lowerBound, upperBound), lowerBound, upperBound) == Clip(v, lowerBound, upperBound)
  {
  }

  /** What clipArrayData leaves in the array: each element clipped, then the
      last two set to the bounds; with fewer than two elements the clipping
      happens and the assignment to index -2 fails. */
  function ClippedData(s: seq<real>, lowerBound: real, upperBound: real): (r: seq<real>)
    ensures |r| == |s|
  {
    var c := seq(|s|, i requires 0 <= i < |s| => Clip(s[i], lowerBound, upperBound));
    if |s| >= 2 then c[..|s| - 2] + [lowerBound, upperBound] else c
  }

  /** The clipped data is within the bounds, ends with the two bounds, and
      is otherwise the input wherever the input was already within them. */
  lemma ClippedDataBounds(s: seq<real>, lowerBound: real, upperBound: real)
    requires lowerBound <= upperBound && |s| >= 2
    ensures var r := ClippedData(s, lowerBound, upperBound);
      (forall i :: 0 <= i < |r| ==> lowerBound <= r[i] <= upperBound) &&
      r[|r| - 2] == lowerBound && r[|r| - 1] == upperBound &&
      (forall i :: 0 <= i < |r| - 2 && lowerBound <= s[i] <= upperBound ==> r[i] == s[i])
  {
  }

  /** Clipping already clipped data changes nothing. */
  lemma {:induction false} ClippedDataIdempotent(s: seq<real>, lowerBound: real, upperBound: real)
    requires lowerBound <= upperBound
    ensures ClippedData(ClippedData(s, lowerBound, upperBound), lowerBound, upperBound) == ClippedData(s, lowerBound, upperBound)
  {
    var r := ClippedData(s, lowerBound, upperBound);
    var rr := ClippedData(r, lowerBound, upperBound);
    forall i | 0 <= i < |s| ensures rr[i] == r[i] {
      if |s| >= 2 && i < |s| - 2 {
        ClipIdempotent(s[i], lowerBound, upperBound);
      }
    }
  }

  /** clipArrayData, in place. ok is false where Python raises IndexError. */
  method ClipArrayData(dataArray: array<real>, lowerBound: real, upperBound: real) returns (ok: bool)
    modifies dataArray
    ensures ok <==> dataArray.Length >= 2
    ensures dataArray[..] == ClippedData(old(dataArray[..]), lowerBound, upperBound)
  {
    var i := 0;
    while i < dataArray.Length
      invariant 0 <= i <= dataArray.Length
      invariant forall j :: 0 <= j < i ==> dataArray[j] == Clip(old(dataArray[j]), lowerBound, upperBound)
      invariant forall j :: i <= j < dataArray.Length ==> dataArray[j] == old(dataArray[j])
    {
      if dataArray[i] < lowerBound {
        dataArray[i] := lowerBound;
      } else if dataArray[i] > upperBound {
        dataArray[i] := upperBound;
      }
      i := i + 1;
    }
    if dataArray.Length < 2 {
      return false;
    }
    dataArray[dataArray.Length - 2] := lowerBound;
    dataArray[dataArray.Length - 1] := upperBound;
    ok := true;
  }

  /** clipArrayData2D on a rectangular grid, in place: every cell clipped, then
      [-1][-2] and [-1][-1] set to the bounds. ok is false where Python raises
      IndexError (no row, or rows shorter than two). */
  method ClipArrayData2D(dataArray2D: array2<real>, lowerBound: real, upperBound: real) returns (ok: bool)
    modifies dataArray2D
    ensures ok <==> dataArray2D.Length0 >= 1 && dataArray2D.Length1 >= 2
    ensures forall i, j :: 0 <= i < dataArray2D.Length0 && 0 <= j < dataArray2D.Length1 ==>
      dataArray2D[i, j] ==
        if ok && i == dataArray2D.Length0 - 1 && j == dataArray2D.Length1 - 2 then lowerBound
        else if ok && i == dataArray2D.Length0 - 1 && j == dataArray2D.Length1 - 1 then upperBound
        else Clip(old(dataArray2D[i, j]), lowerBound, upperBound)
  {
    var rowIndex := 0;
    while rowIndex < dataArray2D.Length0
      invariant 0 <= rowIndex <= dataArray2D.Length0
      invariant forall i, j :: 0 <= i < rowIndex && 0 <= j < dataArray2D.Length1 ==>
        dataArray2D[i, j] == Clip(old(dataArray2D[i, j]), lowerBound, upperBound)
      invariant forall i, j :: rowIndex <= i < dataArray2D.Length0 && 0 <= j < dataArray2D.Length1 ==>
        dataArray2D[i, j] == old(dataArray2D[i, j])
    {
      var columnIndex := 0;
      while columnIndex < dataArray2D.Length1
        invariant 0 <= columnIndex <= dataArray2D.Length1
        invariant forall i, j :: 0 <= i < rowIndex && 0 <= j < dataArray2D.Length1 ==>
          dataArray2D[i, j] == Clip(old(dataArray2D[i, j]), lowerBound, upperBound)
        invariant forall j :: 0 <= j < columnIndex ==>
          dataArray2D[rowIndex, j] == Clip(old(dataArray2D[rowIndex, j]), lowerBound, upperBound)
        invariant forall i, j :: rowIndex <= i < dataArray2D.Length0 && 0 <= j < dataArray2D.Length1 && (i > rowIndex || j >= columnIndex) ==>
          dataArray2D[i, j] == old(dataArray2D[i, j])
      {
        if dataArray2D[rowIndex, columnIndex] < lowerBound {
          dataArray2D[rowIndex, columnIndex] := lowerBound;
        } else if dataArray2D[rowIndex, columnIndex] > upperBound {
          dataArray2D[rowIndex, columnIndex] := upperBound;
        }
        columnIndex := columnIndex + 1;
      }
      rowIndex := rowIndex + 1;
    }
    if dataArray2D.Length0 < 1 || dataArray2D.Length1 < 2 {
      return false;
    }
    dataArray2D[dataArray2D.Length0 - 1, dataArray2D.Length1 - 2] := lowerBound;
    dataArray2D[dataArray2D.Length0 - 1, dataArray2D.Length1 - 1] := upperBound;
    ok := true;
  }

  // ------------------------------------------------------- the RH envelope

  /** Some telemetry sample rounds to the same millimetres as (frontRH, rearRH). */
  predicate InEnvelope(frontRHTelem: seq<real>, rearRHTelem: seq<real>, frontRH: real, rearRH: real)
    requires |frontRHTelem| == |rearRHTelem|
  {
    exists i :: 0 <= i < |frontRHTelem| &&
      RoundToMillimetre(frontRHTelem[i]) == RoundToMillimetre(frontRH) &&
      RoundToMillimetre(rearRHTelem[i]) == RoundToMillimetre(rearRH)
  }

  /** getRHEnvelope2D: a [rear][front] grid over the stepped ride heights,
      1 where the cell's rounded ride heights match a rounded telemetry pair
      and 0 elsewhere. */
  method GetRHEnvelope2D(frontRHMin: real, frontRHMax: real, rearRHMin: real, rearRHMax: real, rhStep: real,
                         frontRHTelem: seq<real>, rearRHTelem: seq<real>) returns (rhEnvelope2D: seq<seq<int>>)
    requires rhStep > 0.0 && |frontRHTelem| == |rearRHTelem|
    ensures |rhEnvelope2D| == Count(rearRHMin, rearRHMax, rhStep)
    ensures forall r :: 0 <= r < |rhEnvelope2D| ==> |rhEnvelope2D[r]| == Count(frontRHMin, frontRHMax, rhStep)
    ensures forall r, f :: 0 <= r < |rhEnvelope2D| && 0 <= f < |rhEnvelope2D[r]| ==>
      rhEnvelope2D[r][f] == if InEnvelope(frontRHTelem, rearRHTelem, Point(frontRHMin, rhStep, f), Point(rearRHMin, rhStep, r)) then 1 else 0
  {
    var frontRounded := seq(|frontRHTelem|, i requires 0 <= i < |frontRHTelem| => RoundToMillimetre(frontRHTelem[i]));
    var rearRounded := seq(|rearRHTelem|, i requires 0 <= i < |rearRHTelem| => RoundToMillimetre(rearRHTelem[i]));
    var telemRHCombinations: seq<(int, int)> := [];
    var i := 0;
    while i < |frontRounded|
      invariant 0 <= i <= |frontRounded|
      invariant |telemRHCombinations| == i
      invariant forall j :: 0 <= j < i ==> telemRHCombinations[j] == (frontRounded[j], rearRounded[j])
    {
      telemRHCombinations := telemRHCombinations + [(frontRounded[i], rearRounded[i])];
      i := i + 1;
    }
    var rhMargin := rhStep / 2.0;
    ghost var nr := Count(rearRHMin, rearRHMax, rhStep);
    ghost var nf := Count(frontRHMin, frontRHMax, rhStep);
    rhEnvelope2D := [];
    var rearRH := rearRHMin;
    ghost var r: nat := 0;
    while rearRH <= rearRHMax + rhMargin
      invariant r <= nr && rearRH == Point(rearRHMin, rhStep, r) && |rhEnvelope2D| == r
      invariant forall r' :: 0 <= r' < r ==> |rhEnvelope2D[r']| == nf
      invariant forall r', f :: 0 <= r' < r && 0 <= f < nf ==>
        rhEnvelope2D[r'][f] == if InEnvelope(frontRHTelem, rearRHTelem, Point(frontRHMin, rhStep, f), Point(rearRHMin, rhStep, r')) then 1 else 0
      decreases nr - r
    {
      var row: seq<int> := [];
      var frontRH := frontRHMin;
      ghost var f: nat := 0;
      while frontRH <= frontRHMax + rhMargin
        invariant f <= nf && frontRH == Point(frontRHMin, rhStep, f) && |row| == f
        invariant forall f' :: 0 <= f' < f ==>
          row[f'] == if InEnvelope(frontRHTelem, rearRHTelem, Point(frontRHMin, rhStep, f'), rearRH) then 1 else 0
        decreases nf - f
      {
        var key := (RoundToMillimetre(frontRH), RoundToMillimetre(rearRH));
        CombinationsMatch(frontRHTelem, rearRHTelem, telemRHCombinations, frontRH, rearRH);
        PointStep(frontRHMin, rhStep, f);
        if key in telemRHCombinations {
          row := row + [1];
        } else {
          row := row + [0];
        }
        f := f + 1;
        frontRH := frontRH + rhStep;
      }
      rhEnvelope2D := rhEnvelope2D + [row];
      PointStep(rearRHMin, rhStep, r);
      r := r + 1;
      rearRH := rearRH + rhStep;
    }
  }

  /** A rounded pair is among the rounded telemetry pairs exactly when some
      sample rounds to it. */
  lemma CombinationsMatch(frontRHTelem: seq<real>, rearRHTelem: seq<real>, combinations: seq<(int, int)>, frontRH: real, rearRH: real)
    requires |frontRHTelem| == |rearRHTelem| == |combinations|
    requires forall j :: 0 <= j < |combinations| ==>
      combinations[j] == (RoundToMillimetre(frontRHTelem[j]), RoundToMillimetre(rearRHTelem[j]))
    ensures (RoundToMillimetre(frontRH), RoundToMillimetre(rearRH)) in combinations
            <==> InEnvelope(frontRHTelem, rearRHTelem, frontRH, rearRH)
  {
    var key := (RoundToMillimetre(frontRH), RoundToMillimetre(rearRH));
    if key in combinations {
      var j :| 0 <= j < |combinations| && combinations[j] == key;
      assert RoundToMillimetre(frontRHTelem[j]) == RoundToMillimetre(frontRH);
    }
    if InEnvelope(frontRHTelem, rearRHTelem, frontRH, rearRH) {
      var j :| 0 <= j < |frontRHTelem| &&
        RoundToMillimetre(frontRHTelem[j]) == RoundToMillimetre(frontRH) &&
        RoundToMillimetre(rearRHTelem[j]) == RoundToMillimetre(rearRH);
      assert combinations[j] == key;
    }
  }

  /** A telemetry sample lying on the grid marks its own cell. */
  lemma SampleOnGridIsInEnvelope(frontRHTelem: seq<real>, rearRHTelem: seq<real>, i: nat,
                                 frontRHMin: real, rearRHMin: real, rhStep: real, f: nat, r: nat)
    requires |frontRHTelem| == |rearRHTelem| && i < |frontRHTelem|
    requires frontRHTelem[i] == Point(frontRHMin, rhStep, f) && rearRHTelem[i] == Point(rearRHMin, rhStep, r)
    ensures InEnvelope(frontRHTelem, rearRHTelem, Point(frontRHMin, rhStep, f), Point(rearRHMin, rhStep, r))
  {
  }

  /** A single sample at (0.010, 0.020) on the millimetre grid from 0 to 0.1
      marks the cell ten steps along the front axis and twenty along the rear
      axis, and no other cell. */
  lemma {:induction false} SingleSampleEnvelope(f: nat, r: nat)
    requires f < Count(0.0, 0.1, 0.001) && r < Count(0.0, 0.1, 0.001)
    ensures Count(0.0, 0.1, 0.001) == 101
    ensures InEnvelope([0.010], [0.020], Point(0.0, 0.001, f), Point(0.0, 0.001, r)) <==> f == 10 && r == 20
  {
    ValuesInclusive(0.0, 0.001, 100);
    RoundWholeMillimetre(10);
    RoundWholeMillimetre(20);
    assert Point(0.0, 0.001, f) == (f as real) / 1000.0;
    assert Point(0.0, 0.001, r) == (r as real) / 1000.0;
    RoundWholeMillimetre(f);
    RoundWholeMillimetre(r);
    assert (10 as real) / 1000.0 == 0.010 && (20 as real) / 1000.0 == 0.020;
    if f == 10 && r == 20 {
      assert RoundToMillimetre([0.010][0]) == RoundToMillimetre(Point(0.0, 0.001, f));
      assert RoundToMillimetre([0.020][0]) == RoundToMillimetre(Point(0.0, 0.001, r));
    }
  }

  /** The first |aeroRow| cells of one getAeroMap row, at the stepped front ride
      heights and one rear ride height, hold the aero numbers and the validity. */
  ghost predicate RowMatches(m: Maths, c: Chassis, wings: seq<Wing>, colliders: seq<Collider>, frontRHMin: real,
                             rhStep: real, rearRH: real, colliderMargin: real, aeroRow: seq<AeroNumbers>, isValidRow: seq<bool>)
    requires WingsValid(wings) && c.wheelbase != 0.0
  {
    |aeroRow| == |isValidRow| &&
    forall f :: 0 <= f < |aeroRow| ==>
      AeroDefined(m, c, wings, Point(frontRHMin, rhStep, f), rearRH) &&
      aeroRow[f] == AeroOf(m, c, wings, Point(frontRHMin, rhStep, f), rearRH) &&
      isValidRow[f] == RideHeightClear(m, c, colliders, Point(frontRHMin, rhStep, f), rearRH, colliderMargin)
  }

  /** The first |aeroMap| rows of the getAeroMap grids, at the stepped rear ride
      heights, each hold nf cells that match. */
  ghost predicate GridMatches(m: Maths, c: Chassis, wings: seq<Wing>, colliders: seq<Collider>, frontRHMin: real,
                              rearRHMin: real, rhStep: real, nf: nat, colliderMargin: real,
                              aeroMap: seq<seq<AeroNumbers>>, isValid2D: seq<seq<bool>>)
    requires WingsValid(wings) && c.wheelbase != 0.0
  {
    |aeroMap| == |isValid2D| &&
    forall r :: 0 <= r < |aeroMap| ==>
      |aeroMap[r]| == nf &&
      RowMatches(m, c, wings, colliders, frontRHMin, rhStep, Point(rearRHMin, rhStep, r), colliderMargin, aeroMap[r], isValid2D[r])
  }

  lemma GridMatchesStep(m: Maths, c: Chassis, wings: seq<Wing>, colliders: seq<Collider>, frontRHMin: real,
                        rearRHMin: real, rhStep: real, nf: nat, colliderMargin: real,
                        aeroMap: seq<seq<AeroNumbers>>, isValid2D: seq<seq<bool>>, aeroRow: seq<AeroNumbers>, isValidRow: seq<bool>)
    requires WingsValid(wings) && c.wheelbase != 0.0
    requires GridMatches(m, c, wings, colliders, frontRHMin, rearRHMin, rhStep, nf, colliderMargin, aeroMap, isValid2D)
    requires |aeroRow| == nf
    requires RowMatches(m, c, wings, colliders, frontRHMin, rhStep, Point(rearRHMin, rhStep, |aeroMap|), colliderMargin, aeroRow, isValidRow)
    ensures GridMatches(m, c, wings, colliders, frontRHMin, rearRHMin, rhStep, nf, colliderMargin, aeroMap + [aeroRow], isValid2D + [isValidRow])
  {
  }

  /** A full grid of matching rows holds, at each pair of stepped ride heights,
      the aero numbers and the validity there. */
  lemma GridMatchesAll(m: Maths, c: Chassis, wings: seq<Wing>, colliders: seq<Collider>, frontRHMin: real,
                       rearRHMin: real, rhStep: real, frontRHs: seq<real>, rearRHs: seq<real>, colliderMargin: real,
                       aeroMap: seq<seq<AeroNumbers>>, isValid2D: seq<seq<bool>>)
    requires WingsValid(wings) && c.wheelbase != 0.0
    requires forall f :: 0 <= f < |frontRHs| ==> frontRHs[f] == Point(frontRHMin, rhStep, f)
    requires forall r :: 0 <= r < |rearRHs| ==> rearRHs[r] == Point(rearRHMin, rhStep, r)
    requires |aeroMap| == |rearRHs|
    requires GridMatches(m, c, wings, colliders, frontRHMin, rearRHMin, rhStep, |frontRHs|, colliderMargin, aeroMap, isValid2D)
    ensures |aeroMap| == |isValid2D| == |rearRHs|
    ensures forall r :: 0 <= r < |rearRHs| ==> |aeroMap[r]| == |isValid2D[r]| == |frontRHs|
    ensures forall r, f :: 0 <= r < |rearRHs| && 0 <= f < |frontRHs| ==>
      AeroDefined(m, c, wings, frontRHs[f], rearRHs[r]) &&
      aeroMap[r][f] == AeroOf(m, c, wings, frontRHs[f], rearRHs[r]) &&
      isValid2D[r][f] == RideHeightClear(m, c, colliders, frontRHs[f], rearRHs[r], colliderMargin)
  {
    forall r, f | 0 <= r < |rearRHs| && 0 <= f < |frontRHs|
      ensures AeroDefined(m, c, wings, frontRHs[f], rearRHs[r]) &&
        aeroMap[r][f] == AeroOf(m, c, wings, frontRHs[f], rearRHs[r]) &&
        isValid2D[r][f] == RideHeightClear(m, c, colliders, frontRHs[f], rearRHs[r], colliderMargin)
    {
      assert RowMatches(m, c, wings, colliders, frontRHMin, rhStep, Point(rearRHMin, rhStep, r), colliderMargin, aeroMap[r], isValid2D[r]);
    }
  }

  lemma RowMatchesStep(m: Maths, c: Chassis, wings: seq<Wing>, colliders: seq<Collider>, frontRHMin: real,
                       rhStep: real, rearRH: real, colliderMargin: real, aeroRow: seq<AeroNumbers>, isValidRow: seq<bool>,
                       aero: AeroNumbers, isValid: bool)
    requires WingsValid(wings) && c.wheelbase != 0.0
    requires RowMatches(m, c, wings, colliders, frontRHMin, rhStep, rearRH, colliderMargin, aeroRow, isValidRow)
    requires AeroDefined(m, c, wings, Point(frontRHMin, rhStep, |aeroRow|), rearRH)
    requires aero == AeroOf(m, c, wings, Point(frontRHMin, rhStep, |aeroRow|), rearRH)
    requires isValid == RideHeightClear(m, c, colliders, Point(frontRHMin, rhStep, |aeroRow|), rearRH, colliderMargin)
    ensures RowMatches(m, c, wings, colliders, frontRHMin, rhStep, rearRH, colliderMargin, aeroRow + [aero], isValidRow + [isValid])
  {
  }

  /** Every valid setup of a search could be evaluated, so its configuration
      sets every wing. */
  lemma ValidSetupsFit(ctx: Search, target: real, tolerance: real, visited: seq<Setup>)
    ensures forall s :: s in Filter(Evaluator(ctx), target, tolerance, visited) ==> |s.wingAngles| == |ctx.wings|
  {
    forall s | s in Filter(Evaluator(ctx), target, tolerance, visited) ensures |s.wingAngles| == |ctx.wings| {
      FilterKeeps(Evaluator(ctx), target, tolerance, visited, s);
      assert Evaluator(ctx)(s) == Evaluate(ctx, s);
    }
  }

  /** The f-th front offset of a row, at the given rear offset and wing
      configuration, can be evaluated, and ev is its evaluation. */
  ghost predicate Evaluates(ctx: Search, ev: Setup -> Option<AeroNumbers>, frontMin: real, f: nat,
                            rearOffset: real, config: seq<Option<real>>)
  {
    var s := Setup(Point(frontMin, OffsetStep, f), rearOffset, config);
    Evaluable(ctx, s) && ev(s) == Evaluate(ctx, s)
  }

  /** The body of the search's innermost loop for one evaluated setup: inside
      the band it is appended to the valid setups and replaces each running
      best it beats strictly. */
  method ConsiderSetup(ghost ev: Setup -> Option<AeroNumbers>, ghost baseline: Setup, ghost aeroBalanceTarget: real,
                       ghost aeroBalanceTolerance: real, minAllowedAeroBalance: real, maxAllowedAeroBalance: real,
                       ghost visited: seq<Setup>, p: Progress, setup: Setup, e: AeroNumbers) returns (q: Progress)
    requires minAllowedAeroBalance == aeroBalanceTarget - aeroBalanceTolerance
    requires maxAllowedAeroBalance == aeroBalanceTarget + aeroBalanceTolerance
    requires p == ProgressOf(ev, baseline, aeroBalanceTarget, aeroBalanceTolerance, visited)
    requires ev(setup) == Some(e)
    ensures q == ProgressOf(ev, baseline, aeroBalanceTarget, aeroBalanceTolerance, visited + [setup])
  {
    ProgressStep(ev, baseline, aeroBalanceTarget, aeroBalanceTolerance, visited, setup);
    q := p;
    if minAllowedAeroBalance <= e.aeroBalance <= maxAllowedAeroBalance {
      q := q.(validSetups := q.validSetups + [setup]);
      if e.totalClA > q.maxTotalClA {
        q := q.(maxTotalClA := e.totalClA, maxTotalClASetup := setup);
      }
      if e.totalCdA < q.minTotalCdA {
        q := q.(minTotalCdA := e.totalCdA, minTotalCdASetup := setup);
      }
      if e.efficiency > q.maxEfficiency {
        q := q.(maxEfficiency := e.efficiency, maxEfficiencySetup := setup);
      }
    }
  }

  /** The values a stepped ride-height loop visits, as getAeroMap lists them
      for its RHArray axes. */
  method SteppedValues(min: real, max: real, step: real) returns (values: seq<real>)
    requires step > 0.0
    ensures values == Values(min, max, step)
  {
    var margin := step / 2.0;
    ghost var n := Count(min, max, step);
    values := [];
    var x := min;
    while x <= max + margin
      invariant |values| <= n && x == Point(min, step, |values|)
      invariant values == Values(min, max, step)[..|values|]
      decreases n - |values|
    {
      PointStep(min, step, |values|);
      values := values + [x];
      x := x + step;
    }
  }

  // ---------------------------------------------------------------- the car

  class Car {
    /** PICKUP_FRONT_HEIGHT, PICKUP_REAR_HEIGHT, WHEELBASE and CG_LOCATION. */
    const chassis: Chassis
    /** The colliders with ground collision enabled. */
    const colliders: seq<Collider>
    /** The ANGLE of each wing as read from aero.ini. */
    const defaultWingAngles: seq<real>
    /** The wings; only their angles ever change. */
    var wings: seq<Wing>

    ghost predicate Valid()
      reads this
    {
      |wings| == |defaultWingAngles|
    }

    /** The car as the constructor leaves it after reading the data files. */
    constructor (chassis: Chassis, colliders: seq<Collider>, wings: seq<Wing>)
      ensures Valid()
      ensures this.chassis == chassis && this.colliders == colliders && this.wings == wings
      ensures defaultWingAngles == Angles(wings)
    {
      this.chassis := chassis;
      this.colliders := colliders;
      this.wings := wings;
      this.defaultWingAngles := Angles(wings);
    }

    /** The configuration the setup search evaluates against. */
    function SearchFor(m: Maths, velocityPower: real, frontRHTelem: seq<real>, rearRHTelem: seq<real>, groundSpeedTelem: seq<real>): Search
      reads this
    {
      Search(m, chassis, wings, defaultWingAngles, velocityPower, frontRHTelem, rearRHTelem, groundSpeedTelem)
    }

    /** setWingAngles: ok is false where Python raises, and then nothing changes. */
    method SetWingAngles(wingAngles: seq<Option<real>>) returns (ok: bool)
      requires Valid()
      modifies this
      ensures Valid()
      ensures ok <==> |wingAngles| == |old(wings)|
      ensures ok ==> wings == WithAngles(old(wings), ResolveAngles(defaultWingAngles, wingAngles))
      ensures !ok ==> wings == old(wings)
    {
      if |wingAngles| != |wings| {
        return false;
      }
      var i := 0;
      while i < |wingAngles|
        invariant 0 <= i <= |wingAngles| && |wings| == |old(wings)| == |wingAngles|
        invariant forall j :: 0 <= j < i ==> wings[j] == old(wings)[j].(angle := ResolveAngles(defaultWingAngles, wingAngles)[j])
        invariant forall j :: i <= j < |wings| ==> wings[j] == old(wings)[j]
      {
        if wingAngles[i].None? {
          wings := wings[i := wings[i].(angle := defaultWingAngles[i])];
        } else {
          wings := wings[i := wings[i].(angle := wingAngles[i].value)];
        }
        i := i + 1;
      }
      ok := true;
    }

    /** getWingAngles */
    method GetWingAngles() returns (wingAngles: seq<real>)
      ensures wingAngles == Angles(wings)
    {
      wingAngles := [];
      var i := 0;
      while i < |wings|
        invariant 0 <= i <= |wings|
        invariant wingAngles == Angles(wings[..i])
      {
        wingAngles := wingAngles + [wings[i].angle];
        i := i + 1;
      }
      assert wings[..i] == wings;
    }

    /** isValidRideHeight: every collider clears the ground by the margin. */
    method IsValidRideHeight(m: Maths, frontRH: real, rearRH: real, colliderMargin: real) returns (isValid: bool)
      requires chassis.wheelbase != 0.0
      ensures isValid == RideHeightClear(m, chassis, colliders, frontRH, rearRH, colliderMargin)
    {
      var s := StanceAt(m, chassis, frontRH, rearRH);
      isValid := true;
      var i := 0;
      while i < |colliders|
        invariant 0 <= i <= |colliders|
        invariant isValid <==> forall j :: 0 <= j < i ==> colliders[j].IsValid(m, s.cgHeight, s.rake, colliderMargin)
      {
        if !colliders[i].IsValid(m, s.cgHeight, s.rake, colliderMargin) {
          isValid := false;
        }
        i := i + 1;
      }
    }

    /** calculateAero: the sums over the wings at the stance of the ride heights. */
    method CalculateAero(m: Maths, frontRH: real, rearRH: real) returns (aero: AeroNumbers)
      requires WingsValid(wings) && chassis.wheelbase != 0.0
      requires AeroDefined(m, chassis, wings, frontRH, rearRH)
      ensures aero == AeroOf(m, chassis, wings, frontRH, rearRH)
    {
      var s := StanceAt(m, chassis, frontRH, rearRH);
      ghost var ws := WingAeros(m, chassis, wings, s);
      var totalClA, totalCdA, frontClA := 0.0, 0.0, 0.0;
      var i := 0;
      while i < |wings|
        invariant 0 <= i <= |wings|
        invariant totalClA == Sum(LiftAreas(ws)[..i])
        invariant totalCdA == Sum(DragAreas(ws)[..i])
        invariant frontClA == Sum(FrontLiftAreas(ws)[..i])
      {
        var w := wings[i].CalculateWing(m, chassis, s.cgHeight, s.rake);
        SumPrefixStep(LiftAreas(ws), i);
        SumPrefixStep(DragAreas(ws), i);
        SumPrefixStep(FrontLiftAreas(ws), i);
        totalClA := totalClA + w.clA;
        totalCdA := totalCdA + w.cdA;
        frontClA := frontClA + w.effFrontClA;
        i := i + 1;
      }
      assert LiftAreas(ws)[..i] == LiftAreas(ws);
      assert DragAreas(ws)[..i] == DragAreas(ws);
      assert FrontLiftAreas(ws)[..i] == FrontLiftAreas(ws);
      var rearClA := totalClA - frontClA;
      var efficiency := totalClA / totalCdA;
      var aeroBalance := (frontClA / totalClA) * 100.0;
      aero := AeroNumbers(frontClA, rearClA, totalClA, totalCdA, efficiency, aeroBalance);
    }

    /** getAeroMap: the stepped front and rear ride heights, and the [rear][front]
        grids of the aero numbers and of ride-height validity. */
    method GetAeroMap(m: Maths, frontRHMin: real, frontRHMax: real, rearRHMin: real, rearRHMax: real,
                      rhStep: real, colliderMargin: real)
      returns (frontRHs: seq<real>, rearRHs: seq<real>, aeroMap: seq<seq<AeroNumbers>>, isValid2D: seq<seq<bool>>)
      requires rhStep > 0.0 && MapDefined(m, frontRHMin, frontRHMax, rearRHMin, rearRHMax, rhStep)
      ensures frontRHs == Values(frontRHMin, frontRHMax, rhStep)
      ensures rearRHs == Values(rearRHMin, rearRHMax, rhStep)
      ensures |aeroMap| == |isValid2D| == |rearRHs|
      ensures forall r :: 0 <= r < |rearRHs| ==> |aeroMap[r]| == |isValid2D[r]| == |frontRHs|
      ensures forall r, f :: 0 <= r < |rearRHs| && 0 <= f < |frontRHs| ==>
        aeroMap[r][f] == AeroOf(m, chassis, wings, frontRHs[f], rearRHs[r]) &&
        isValid2D[r][f] == RideHeightClear(m, chassis, colliders, frontRHs[f], rearRHs[r], colliderMargin)
    {
      var rhMargin := rhStep / 2.0;
      ghost var nf := Count(frontRHMin, frontRHMax, rhStep);
      ghost var nr := Count(rearRHMin, rearRHMax, rhStep);
      frontRHs := SteppedValues(frontRHMin, frontRHMax, rhStep);
      rearRHs := SteppedValues(rearRHMin, rearRHMax, rhStep);
      aeroMap, isValid2D := [], [];
      var rearRH := rearRHMin;
      while rearRH <= rearRHMax + rhMargin
        invariant |aeroMap| <= nr && rearRH == Point(rearRHMin, rhStep, |aeroMap|)
        invariant GridMatches(m, chassis, wings, colliders, frontRHMin, rearRHMin, rhStep, nf, colliderMargin, aeroMap, isValid2D)
        decreases nr - |aeroMap|
      {
        var aeroRow, isValidRow := AeroMapRow(m, frontRHMin, frontRHMax, rhStep, rearRH, colliderMargin);
        GridMatchesStep(m, chassis, wings, colliders, frontRHMin, rearRHMin, rhStep, nf, colliderMargin, aeroMap, isValid2D,
                        aeroRow, isValidRow);
        PointStep(rearRHMin, rhStep, |aeroMap|);
        aeroMap := aeroMap + [aeroRow];
        isValid2D := isValid2D + [isValidRow];
        rearRH := rearRH + rhStep;
      }
      GridMatchesAll(m, chassis, wings, colliders, frontRHMin, rearRHMin, rhStep, frontRHs, rearRHs, colliderMargin, aeroMap, isValid2D);
    }

    /** One row of getAeroMap: the aero numbers and the validity at each front
        ride height, for one rear ride height. */
    method AeroMapRow(m: Maths, frontRHMin: real, frontRHMax: real, rhStep: real, rearRH: real, colliderMargin: real)
      returns (aeroRow: seq<AeroNumbers>, isValidRow: seq<bool>)
      requires rhStep > 0.0
      requires WingsValid(wings) && chassis.wheelbase != 0.0
      requires forall f: nat :: f < Count(frontRHMin, frontRHMax, rhStep) ==>
        AeroDefined(m, chassis, wings, Point(frontRHMin, rhStep, f), rearRH)
      ensures |aeroRow| == Count(frontRHMin, frontRHMax, rhStep)
      ensures RowMatches(m, chassis, wings, colliders, frontRHMin, rhStep, rearRH, colliderMargin, aeroRow, isValidRow)
    {
      var rhMargin := rhStep / 2.0;
      ghost var nf := Count(frontRHMin, frontRHMax, rhStep);
      aeroRow, isValidRow := [], [];
      var frontRH := frontRHMin;
      while frontRH <= frontRHMax + rhMargin
        invariant |aeroRow| <= nf && frontRH == Point(frontRHMin, rhStep, |aeroRow|)
        invariant RowMatches(m, chassis, wings, colliders, frontRHMin, rhStep, rearRH, colliderMargin, aeroRow, isValidRow)
        decreases nf - |aeroRow|
      {
        var aero := CalculateAero(m, frontRH, rearRH);
        var isValid := IsValidRideHeight(m, frontRH, rearRH, colliderMargin);
        RowMatchesStep(m, chassis, wings, colliders, frontRHMin, rhStep, rearRH, colliderMargin, aeroRow, isValidRow, aero, isValid);
        PointStep(frontRHMin, rhStep, |aeroRow|);
        aeroRow := aeroRow + [aero];
        isValidRow := isValidRow + [isValid];
        frontRH := frontRH + rhStep;
      }
    }

    /** The aero numbers are defined at every point of the stepped grid. */
    ghost predicate MapDefined(m: Maths, frontRHMin: real, frontRHMax: real, rearRHMin: real, rearRHMax: real, rhStep: real)
      requires rhStep > 0.0
      reads this
    {
      WingsValid(wings) && chassis.wheelbase != 0.0 &&
      forall r: nat, f: nat :: r < Count(rearRHMin, rearRHMax, rhStep) && f < Count(frontRHMin, frontRHMax, rhStep) ==>
        AeroDefined(m, chassis, wings, Point(frontRHMin, rhStep, f), Point(rearRHMin, rhStep, r))
    }

    /** calculateAeroRHTelem: each aero number averaged over the telemetry with
        weight groundSpeed^velocityPower. */
    method CalculateAeroRHTelem(m: Maths, velocityPower: real, frontRHTelem: seq<real>, rearRHTelem: seq<real>,
                                groundSpeedTelem: seq<real>) returns (averages: AeroNumbers)
      requires WingsValid(wings) && chassis.wheelbase != 0.0
      requires TelemetryAveraged(m, chassis, wings, velocityPower, frontRHTelem, rearRHTelem, groundSpeedTelem)
      ensures averages == TelemAverage(m, chassis, wings, velocityPower, frontRHTelem, rearRHTelem, groundSpeedTelem)
    {
      ghost var samples := SampleAeros(m, chassis, wings, frontRHTelem, rearRHTelem);
      ghost var weights := SpeedWeights(m, velocityPower, groundSpeedTelem);
      var numTelemPoints := |groundSpeedTelem|;
      var velocityWeightingSum := 0.0;
      var front, rear, total, drag, efficiency, balance := 0.0, 0.0, 0.0, 0.0, 0.0, 0.0;
      var i := 0;
      while i < numTelemPoints
        invariant 0 <= i <= numTelemPoints
        invariant velocityWeightingSum == Sum(weights[..i])
        invariant AeroNumbers(front, rear, total, drag, efficiency, balance) == PartialSums(samples, weights, i)
      {
        var velocityWeighting := m.pow(groundSpeedTelem[i], velocityPower);
        SumPrefixStep(weights, i);
        velocityWeightingSum := velocityWeightingSum + velocityWeighting;
        var aero := CalculateAero(m, frontRHTelem[i], rearRHTelem[i]);
        assert aero == samples[i] && velocityWeighting == weights[i];
        var sums := AddWeighted(AeroNumbers(front, rear, total, drag, efficiency, balance), aero, velocityWeighting);
        PartialSumsStep(samples, weights, i, AeroNumbers(front, rear, total, drag, efficiency, balance), aero, velocityWeighting);
        front, rear, total := sums.frontClA, sums.rearClA, sums.totalClA;
        drag, efficiency, balance := sums.totalCdA, sums.efficiency, sums.aeroBalance;
        i := i + 1;
      }
      assert weights[..i] == weights;
      PartialSumsAverage(samples, weights, AeroNumbers(front, rear, total, drag, efficiency, balance), velocityWeightingSum);
      averages := AeroNumbers(front / velocityWeightingSum, rear / velocityWeightingSum, total / velocityWeightingSum,
                              drag / velocityWeightingSum, efficiency / velocityWeightingSum, balance / velocityWeightingSum);
    }

    /** optimiseAeroRHTelem: every wing configuration, rear offset and front
        offset in turn; the setups whose speed-weighted aero balance is inside
        the band; the first setups with the most lift, the least drag and the
        best efficiency; and the car left at the most efficient setup's angles.
        ok is false where setWingAngles raises, for the first configuration
        with the wrong number of angles. */
    method OptimiseAeroRHTelem(m: Maths, frontRHOffsetMin: real, frontRHOffsetMax: real, rearRHOffsetMin: real,
                               rearRHOffsetMax: real, wingAnglesArray: seq<seq<Option<real>>>, aeroBalanceTarget: real,
                               aeroBalanceTolerance: real, velocityPower: real, frontRHTelem: seq<real>,
                               rearRHTelem: seq<real>, groundSpeedTelem: seq<real>)
      returns (ok: bool, validSetups: seq<Setup>, maxTotalClASetup: Setup, minTotalCdASetup: Setup, maxEfficiencySetup: Setup)
      requires Valid()
      requires SweepEvaluable(SearchFor(m, velocityPower, frontRHTelem, rearRHTelem, groundSpeedTelem),
                              frontRHOffsetMin, Count(frontRHOffsetMin, frontRHOffsetMax, OffsetStep),
                              rearRHOffsetMin, Count(rearRHOffsetMin, rearRHOffsetMax, OffsetStep), wingAnglesArray)
      modifies this
      ensures Valid()
      ensures ok <==> forall c :: 0 <= c < |wingAnglesArray| ==> |wingAnglesArray[c]| == |old(wings)|
      ensures ok ==>
        var ctx := old(SearchFor(m, velocityPower, frontRHTelem, rearRHTelem, groundSpeedTelem));
        var ev := Evaluator(ctx);
        validSetups == Filter(ev, aeroBalanceTarget, aeroBalanceTolerance,
                              Sweep(frontRHOffsetMin, Count(frontRHOffsetMin, frontRHOffsetMax, OffsetStep),
                                    rearRHOffsetMin, Count(rearRHOffsetMin, rearRHOffsetMax, OffsetStep), wingAnglesArray)) &&
        maxTotalClASetup == BestSetup(ev, Baseline(ctx), MaxLift, validSetups) &&
        minTotalCdASetup == BestSetup(ev, Baseline(ctx), MinDrag, validSetups) &&
        maxEfficiencySetup == BestSetup(ev, Baseline(ctx), MaxEfficiency, validSetups) &&
        |maxEfficiencySetup.wingAngles| == |ctx.wings| &&
        wings == ConfigWings(ctx, maxEfficiencySetup.wingAngles)
      ensures !ok ==>
        var ctx := old(SearchFor(m, velocityPower, frontRHTelem, rearRHTelem, groundSpeedTelem));
        exists c :: 0 <= c < |wingAnglesArray| && |wingAnglesArray[c]| != |ctx.wings| &&
          (forall d :: 0 <= d < c ==> |wingAnglesArray[d]| == |ctx.wings|) &&
          (c == 0 ==> wings == ctx.wings) &&
          (c > 0 ==> wings == ConfigWings(ctx, wingAnglesArray[c - 1]))
    {
      var ctx := SearchFor(m, velocityPower, frontRHTelem, rearRHTelem, groundSpeedTelem);
      ghost var ev := Evaluator(ctx);
      ghost var nf := Count(frontRHOffsetMin, frontRHOffsetMax, OffsetStep);
      ghost var nr := Count(rearRHOffsetMin, rearRHOffsetMax, OffsetStep);
      var baselineSetup := Setup(0.0, 0.0, Explicit(defaultWingAngles));
      var p := Progress([], -999.0, baselineSetup, 999.0, baselineSetup, -999.0, baselineSetup);
      ProgressStart(ev, Baseline(ctx), aeroBalanceTarget, aeroBalanceTolerance);
      var c := 0;
      while c < |wingAnglesArray|
        invariant c <= |wingAnglesArray| && Valid()
        invariant forall d :: 0 <= d < c ==> |wingAnglesArray[d]| == |ctx.wings|
        invariant c == 0 ==> wings == ctx.wings
        invariant c > 0 ==> wings == ConfigWings(ctx, wingAnglesArray[c - 1])
        invariant p == ProgressOf(ev, Baseline(ctx), aeroBalanceTarget, aeroBalanceTolerance,
                                  Sweep(frontRHOffsetMin, nf, rearRHOffsetMin, nr, wingAnglesArray[..c]))
      {
        ghost var before := wings;
        var accepted := SetWingAngles(wingAnglesArray[c]);
        if !accepted {
          return false, p.validSetups, p.maxTotalClASetup, p.minTotalCdASetup, p.maxEfficiencySetup;
        }
        if c > 0 {
          WithAnglesTwice(ctx.wings, ResolveAngles(ctx.defaults, wingAnglesArray[c - 1]), ResolveAngles(ctx.defaults, wingAnglesArray[c]));
        }
        ghost var visited := Sweep(frontRHOffsetMin, nf, rearRHOffsetMin, nr, wingAnglesArray[..c]);
        p := SearchBlock(ctx, ev, wingAnglesArray[c], frontRHOffsetMin, frontRHOffsetMax, rearRHOffsetMin, rearRHOffsetMax,
                         aeroBalanceTarget, aeroBalanceTolerance, visited, p);
        assert wingAnglesArray[..c + 1][..c] == wingAnglesArray[..c];
        c := c + 1;
      }
      assert wingAnglesArray[..c] == wingAnglesArray;
      validSetups := p.validSetups;
      maxTotalClASetup, minTotalCdASetup, maxEfficiencySetup := p.maxTotalClASetup, p.minTotalCdASetup, p.maxEfficiencySetup;
      ValidSetupsFit(ctx, aeroBalanceTarget, aeroBalanceTolerance, Sweep(frontRHOffsetMin, nf, rearRHOffsetMin, nr, wingAnglesArray));
      ghost var last := wings;
      var accepted1 := SetWingAngles(maxTotalClASetup.wingAngles);
      var accepted2 := SetWingAngles(minTotalCdASetup.wingAngles);
      var accepted3 := SetWingAngles(maxEfficiencySetup.wingAngles);
      ok := true;
    }

    /** One wing configuration: every rear offset, and for each every front
        offset, with the wings already set to the configuration. */
    method SearchBlock(ctx: Search, ghost ev: Setup -> Option<AeroNumbers>, config: seq<Option<real>>,
                       frontRHOffsetMin: real, frontRHOffsetMax: real, rearRHOffsetMin: real, rearRHOffsetMax: real,
                       aeroBalanceTarget: real, aeroBalanceTolerance: real, ghost visited: seq<Setup>, p: Progress)
      returns (q: Progress)
      requires ctx.chassis == chassis && |ctx.wings| == |ctx.defaults| == |config|
      requires wings == ConfigWings(ctx, config)
      requires forall r: nat, f: nat ::
        r < Count(rearRHOffsetMin, rearRHOffsetMax, OffsetStep) && f < Count(frontRHOffsetMin, frontRHOffsetMax, OffsetStep) ==>
        Evaluates(ctx, ev, frontRHOffsetMin, f, Point(rearRHOffsetMin, OffsetStep, r), config)
      requires p == ProgressOf(ev, Baseline(ctx), aeroBalanceTarget, aeroBalanceTolerance, visited)
      ensures q == ProgressOf(ev, Baseline(ctx), aeroBalanceTarget, aeroBalanceTolerance,
                              visited + Block(frontRHOffsetMin, Count(frontRHOffsetMin, frontRHOffsetMax, OffsetStep),
                                              rearRHOffsetMin, Count(rearRHOffsetMin, rearRHOffsetMax, OffsetStep), config))
    {
      ghost var nf := Count(frontRHOffsetMin, frontRHOffsetMax, OffsetStep);
      ghost var nr := Count(rearRHOffsetMin, rearRHOffsetMax, OffsetStep);
      q := p;
      ghost var k := 0;
      assert visited + Block(frontRHOffsetMin, nf, rearRHOffsetMin, 0, config) == visited;
      var rearRHOffset := rearRHOffsetMin;
      while rearRHOffset <= rearRHOffsetMax + OffsetStep / 2.0
        invariant k <= nr && rearRHOffset == Point(rearRHOffsetMin, OffsetStep, k)
        invariant q == ProgressOf(ev, Baseline(ctx), aeroBalanceTarget, aeroBalanceTolerance,
                                  visited + Block(frontRHOffsetMin, nf, rearRHOffsetMin, k, config))
        decreases nr - k
      {
        q := VisitRow(ctx, ev, config, frontRHOffsetMin, frontRHOffsetMax, rearRHOffsetMin, rearRHOffset,
                      aeroBalanceTarget, aeroBalanceTolerance, visited, k, q);
        PointStep(rearRHOffsetMin, OffsetStep, k);
        rearRHOffset := rearRHOffset + OffsetStep;
        k := k + 1;
      }
      assert k == nr;
    }

    /** The middle loop's body: search the k-th row of a configuration's block. */
    method VisitRow(ctx: Search, ghost ev: Setup -> Option<AeroNumbers>, config: seq<Option<real>>,
                    frontRHOffsetMin: real, frontRHOffsetMax: real, ghost rearRHOffsetMin: real, rearRHOffset: real,
                    aeroBalanceTarget: real, aeroBalanceTolerance: real, ghost visited: seq<Setup>, ghost k: nat, p: Progress)
      returns (q: Progress)
      requires ctx.chassis == chassis && |ctx.wings| == |ctx.defaults| == |config|
      requires wings == ConfigWings(ctx, config)
      requires rearRHOffset == Point(rearRHOffsetMin, OffsetStep, k)
      requires forall f: nat :: f < Count(frontRHOffsetMin, frontRHOffsetMax, OffsetStep) ==>
        Evaluates(ctx, ev, frontRHOffsetMin, f, rearRHOffset, config)
      requires p == ProgressOf(ev, Baseline(ctx), aeroBalanceTarget, aeroBalanceTolerance,
                               visited + Block(frontRHOffsetMin, Count(frontRHOffsetMin, frontRHOffsetMax, OffsetStep),
                                               rearRHOffsetMin, k, config))
      ensures q == ProgressOf(ev, Baseline(ctx), aeroBalanceTarget, aeroBalanceTolerance,
                              visited + Block(frontRHOffsetMin, Count(frontRHOffsetMin, frontRHOffsetMax, OffsetStep),
                                              rearRHOffsetMin, k + 1, config))
    {
      ghost var nf := Count(frontRHOffsetMin, frontRHOffsetMax, OffsetStep);
      ghost var sofar := visited + Block(frontRHOffsetMin, nf, rearRHOffsetMin, k, config);
      q := SearchRow(ctx, ev, config, frontRHOffsetMin, frontRHOffsetMax, rearRHOffset, aeroBalanceTarget,
                     aeroBalanceTolerance, sofar, p);
      BlockStep(visited, frontRHOffsetMin, nf, rearRHOffsetMin, k, config);
    }

    /** The weighted aero numbers of one setup: the telemetry shifted by its
        offsets, with the wings already set to its configuration. */
    method EvaluateSetup(ctx: Search, setup: Setup) returns (e: AeroNumbers)
      requires ctx.chassis == chassis && |ctx.wings| == |ctx.defaults| == |setup.wingAngles|
      requires wings == ConfigWings(ctx, setup.wingAngles)
      requires Evaluable(ctx, setup)
      ensures Evaluate(ctx, setup) == Some(e)
    {
      WithAnglesValid(ctx.wings, ResolveAngles(ctx.defaults, setup.wingAngles));
      var frontRHTelemAdjusted := Shifted(ctx.frontRH, setup.frontRHOffset);
      var rearRHTelemAdjusted := Shifted(ctx.rearRH, setup.rearRHOffset);
      e := CalculateAeroRHTelem(ctx.m, ctx.velocityPower, frontRHTelemAdjusted, rearRHTelemAdjusted, ctx.groundSpeed);
    }

    /** The innermost loop's body: evaluate the f-th front offset of a row and
        record it. */
    method VisitSetup(ctx: Search, ghost ev: Setup -> Option<AeroNumbers>, ghost frontRHOffsetMin: real, ghost f: nat,
                      minAllowedAeroBalance: real, maxAllowedAeroBalance: real, ghost aeroBalanceTarget: real,
                      ghost aeroBalanceTolerance: real, ghost visited: seq<Setup>, p: Progress, setup: Setup)
      returns (q: Progress)
      requires ctx.chassis == chassis && |ctx.wings| == |ctx.defaults| == |setup.wingAngles|
      requires wings == ConfigWings(ctx, setup.wingAngles)
      requires setup.frontRHOffset == Point(frontRHOffsetMin, OffsetStep, f)
      requires Evaluates(ctx, ev, frontRHOffsetMin, f, setup.rearRHOffset, setup.wingAngles)
      requires minAllowedAeroBalance == aeroBalanceTarget - aeroBalanceTolerance
      requires maxAllowedAeroBalance == aeroBalanceTarget + aeroBalanceTolerance
      requires p == ProgressOf(ev, Baseline(ctx), aeroBalanceTarget, aeroBalanceTolerance, visited)
      ensures q == ProgressOf(ev, Baseline(ctx), aeroBalanceTarget, aeroBalanceTolerance, visited + [setup])
    {
      var e := EvaluateSetup(ctx, setup);
      q := ConsiderSetup(ev, Baseline(ctx), aeroBalanceTarget, aeroBalanceTolerance, minAllowedAeroBalance,
                         maxAllowedAeroBalance, visited, p, setup, e);
    }

    /** One rear offset of one wing configuration: every front offset. */
    method SearchRow(ctx: Search, ghost ev: Setup -> Option<AeroNumbers>, config: seq<Option<real>>,
                     frontRHOffsetMin: real, frontRHOffsetMax: real, rearRHOffset: real,
                     aeroBalanceTarget: real, aeroBalanceTolerance: real, ghost visited: seq<Setup>, p: Progress)
      returns (q: Progress)
      requires ctx.chassis == chassis && |ctx.wings| == |ctx.defaults| == |config|
      requires wings == ConfigWings(ctx, config)
      requires forall f: nat :: f < Count(frontRHOffsetMin, frontRHOffsetMax, OffsetStep) ==>
        Evaluates(ctx, ev, frontRHOffsetMin, f, rearRHOffset, config)
      requires p == ProgressOf(ev, Baseline(ctx), aeroBalanceTarget, aeroBalanceTolerance, visited)
      ensures q == ProgressOf(ev, Baseline(ctx), aeroBalanceTarget, aeroBalanceTolerance,
                              visited + Row(frontRHOffsetMin, Count(frontRHOffsetMin, frontRHOffsetMax, OffsetStep), rearRHOffset, config))
    {
      var minAllowedAeroBalance := aeroBalanceTarget - aeroBalanceTolerance;
      var maxAllowedAeroBalance := aeroBalanceTarget + aeroBalanceTolerance;
      ghost var nf := Count(frontRHOffsetMin, frontRHOffsetMax, OffsetStep);
      q := p;
      ghost var k := 0;
      assert visited + Row(frontRHOffsetMin, 0, rearRHOffset, config) == visited;
      var frontRHOffset := frontRHOffsetMin;
      while frontRHOffset <= frontRHOffsetMax + OffsetStep / 2.0
        invariant k <= nf && frontRHOffset == Point(frontRHOffsetMin, OffsetStep, k)
        invariant q == ProgressOf(ev, Baseline(ctx), aeroBalanceTarget, aeroBalanceTolerance,
                                  visited + Row(frontRHOffsetMin, k, rearRHOffset, config))
        decreases nf - k
      {
        var setup := Setup(frontRHOffset, rearRHOffset, config);
        ghost var sofar := visited + Row(frontRHOffsetMin, k, rearRHOffset, config);
        q := VisitSetup(ctx, ev, frontRHOffsetMin, k, minAllowedAeroBalance, maxAllowedAeroBalance,
                        aeroBalanceTarget, aeroBalanceTolerance, sofar, q, setup);
        RowStep(visited, frontRHOffsetMin, k, rearRHOffset, config);
        PointStep(frontRHOffsetMin, OffsetStep, k);
        frontRHOffset := frontRHOffset + OffsetStep;
        k := k + 1;
      }
      assert k == nf;
    }
  }
}
