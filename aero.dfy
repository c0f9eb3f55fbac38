/** Wing lift and drag areas and their whole-car totals (car.py: Wing.calculateWing,
    the sums of Car.calculateAero, and the speed-weighted telemetry average of
    Car.calculateAeroRHTelem), as functions of the car data, the wing angles and the
    ride heights. The Car class in module AeroCar computes the same values with the
    source's loops. */
module Aero {
  import opened Numeric
  import opened Lut
  import opened Geometry

  /** One wing of aero.ini; its angle is the one mutable part. */
  datatype Wing = Wing(
    chord: real,
    span: real,
    position: Vec3,
    lutAoaCl: Table,
    lutGhCl: Table,
    clGain: real,
    lutAoaCd: Table,
    lutGhCd: Table,
    cdGain: real,
    angle: real)
  {
    /** Every curve table has an entry, as readLUT needs. */
    predicate Valid() {
      |lutAoaCl| > 0 && |lutGhCl| > 0 && |lutAoaCd| > 0 && |lutGhCd| > 0
    }

    /** ClA, CdA and the lift areas effectively carried by the front and the
        rear axle at the given CG height and rake. The drag acting at the wing's
        ground height pitches the car and moves lift rearwards. */
    function CalculateWing(m: Maths, c: Chassis, cgHeight: real, rake: real): (r: WingAero)
      requires Valid() && c.wheelbase != 0.0
      ensures r.effFrontClA + r.effRearClA == r.clA
    {
      var gh := GHTransform(m, position, cgHeight, rake);
      var posZ := PosZTransform(m, position, rake);
      var clA := chord * span * clGain * LutValue(rake + angle, lutAoaCl) * LutValue(gh, lutGhCl);
      var cdA := chord * span * cdGain * LutValue(rake + angle, lutAoaCd) * LutValue(gh, lutGhCd);
      var effFrontClA := ((c.wheelbase * c.cgLocation + posZ) / c.wheelbase) * clA - cdA * gh / c.wheelbase;
      WingAero(clA, cdA, effFrontClA, clA - effFrontClA)
    }
  }

  datatype WingAero = WingAero(clA: real, cdA: real, effFrontClA: real, effRearClA: real)

  /** A wing with the unit curve tables has area chord * span * gain at every
      ride height, rake and angle. */
  lemma UnitTablesWing(m: Maths, w: Wing, c: Chassis, cgHeight: real, rake: real)
    requires w.lutAoaCl == w.lutGhCl == w.lutAoaCd == w.lutGhCd == UnitTable
    requires c.wheelbase != 0.0
    ensures w.CalculateWing(m, c, cgHeight, rake).clA == w.chord * w.span * w.clGain
    ensures w.CalculateWing(m, c, cgHeight, rake).cdA == w.chord * w.span * w.cdGain
  {
    UnitTableIsOne(rake + w.angle);
    UnitTableIsOne(GHTransform(m, w.position, cgHeight, rake));
  }

  /** Chord 2, span 1, lift gain 1 and unit tables give a lift area of 2. */
  lemma UnitWingExample(m: Maths, w: Wing, c: Chassis, cgHeight: real, rake: real)
    requires w.lutAoaCl == w.lutGhCl == w.lutAoaCd == w.lutGhCd == UnitTable
    requires w.chord == 2.0 && w.span == 1.0 && w.clGain == 1.0
    requires c.wheelbase != 0.0
    ensures w.CalculateWing(m, c, cgHeight, rake).clA == 2.0
  {
    UnitTablesWing(m, w, c, cgHeight, rake);
  }

  /** Without drag, a wing whose raked longitudinal position is over the front
      axle, wheelbase * (1 - CG location) ahead of the CG, loads only the front
      axle; one over the rear axle loads only the rear. */
  lemma DragFreeWingOverAxle(m: Maths, w: Wing, c: Chassis, cgHeight: real, rake: real)
    requires w.Valid() && c.wheelbase != 0.0 && w.cdGain == 0.0
    ensures var posZ := PosZTransform(m, w.position, rake);
      var r := w.CalculateWing(m, c, cgHeight, rake);
      (posZ == c.wheelbase * (1.0 - c.cgLocation) ==> r.effFrontClA == r.clA && r.effRearClA == 0.0) &&
      (posZ == -c.wheelbase * c.cgLocation ==> r.effFrontClA == 0.0 && r.effRearClA == r.clA)
  {
    var posZ := PosZTransform(m, w.position, rake);
    var gh := GHTransform(m, w.position, cgHeight, rake);
    var wb := c.wheelbase;
    var r := w.CalculateWing(m, c, cgHeight, rake);
    var share := (wb * c.cgLocation + posZ) / wb;
    assert r.cdA == 0.0 by {
      assert r.cdA == w.chord * w.span * 0.0 * LutValue(rake + w.angle, w.lutAoaCd) * LutValue(gh, w.lutGhCd);
    }
    assert r.effFrontClA == share * r.clA;
    if posZ == wb * (1.0 - c.cgLocation) {
      assert wb * c.cgLocation + posZ == wb;
    }
    if posZ == -wb * c.cgLocation {
      assert wb * c.cgLocation + posZ == 0.0;
    }
  }

  /** The angle each wing gets from a wing-angle configuration: the default
      where the entry is None, the given value otherwise. */
  function ResolveAngles(defaults: seq<real>, config: seq<Option<real>>): (r: seq<real>)
    requires |config| == |defaults|
    ensures |r| == |config|
    ensures forall i :: 0 <= i < |r| ==> (config[i].None? ==> r[i] == defaults[i]) && (config[i].Some? ==> r[i] == config[i].value)
  {
    seq(|config|, i requires 0 <= i < |config| => if config[i].None? then defaults[i] else config[i].value)
  }

  /** The configuration that names every angle explicitly. */
  function Explicit(angles: seq<real>): (r: seq<Option<real>>)
    ensures |r| == |angles|
    ensures forall i :: 0 <= i < |r| ==> r[i] == Some(angles[i])
  {
    seq(|angles|, i requires 0 <= i < |angles| => Some(angles[i]))
  }

  lemma ResolveExplicit(defaults: seq<real>, angles: seq<real>)
    requires |angles| == |defaults|
    ensures ResolveAngles(defaults, Explicit(angles)) == angles
  {
  }

  /** The all-None configuration restores the defaults. */
  lemma ResolveAllNone(defaults: seq<real>, config: seq<Option<real>>)
    requires |config| == |defaults|
    requires forall i :: 0 <= i < |config| ==> config[i] == None
    ensures ResolveAngles(defaults, config) == defaults
  {
  }

  /** The wings with their angles replaced and everything else kept. */
  function WithAngles(wings: seq<Wing>, angles: seq<real>): (r: seq<Wing>)
    requires |angles| == |wings|
    ensures |r| == |wings|
    ensures forall i :: 0 <= i < |r| ==> r[i] == wings[i].(angle := angles[i])
  {
    seq(|wings|, i requires 0 <= i < |wings| => wings[i].(angle := angles[i]))
  }

  /** The angle of each wing, in order. */
  function Angles(wings: seq<Wing>): (r: seq<real>)
    ensures |r| == |wings|
    ensures forall i :: 0 <= i < |r| ==> r[i] == wings[i].angle
  {
    seq(|wings|, i requires 0 <= i < |wings| => wings[i].angle)
  }

  /** Reading the angles back gives exactly the angles set. */
  lemma AnglesOfWithAngles(wings: seq<Wing>, angles: seq<real>)
    requires |angles| == |wings|
    ensures Angles(WithAngles(wings, angles)) == angles
  {
  }

  /** Setting angles twice is setting the second ones: the earlier angles leave
      no trace. */
  lemma WithAnglesTwice(wings: seq<Wing>, a: seq<real>, b: seq<real>)
    requires |a| == |b| == |wings|
    ensures WithAngles(WithAngles(wings, a), b) == WithAngles(wings, b)
  {
  }

  /** Setting its own angles leaves a car's wings as they are. */
  lemma WithOwnAngles(wings: seq<Wing>)
    ensures WithAngles(wings, Angles(wings)) == wings
  {
  }

  /** Every wing can be evaluated. */
  predicate WingsValid(wings: seq<Wing>) {
    forall i :: 0 <= i < |wings| ==> wings[i].Valid()
  }

  /** Changing angles keeps every table, so the wings stay evaluable. */
  lemma WithAnglesValid(wings: seq<Wing>, angles: seq<real>)
    requires |angles| == |wings| && WingsValid(wings)
    ensures WingsValid(WithAngles(wings, angles))
  {
  }

  function WingAeros(m: Maths, c: Chassis, wings: seq<Wing>, s: Stance): (r: seq<WingAero>)
    requires WingsValid(wings) && c.wheelbase != 0.0
    ensures |r| == |wings|
    ensures forall i :: 0 <= i < |r| ==> r[i].effFrontClA + r[i].effRearClA == r[i].clA
  {
    seq(|wings|, i requires 0 <= i < |wings| => wings[i].CalculateWing(m, c, s.cgHeight, s.rake))
  }

  function LiftAreas(ws: seq<WingAero>): (r: seq<real>)
    ensures |r| == |ws|
  {
    seq(|ws|, i requires 0 <= i < |ws| => ws[i].clA)
  }

  function DragAreas(ws: seq<WingAero>): (r: seq<real>)
    ensures |r| == |ws|
  {
    seq(|ws|, i requires 0 <= i < |ws| => ws[i].cdA)
  }

  function FrontLiftAreas(ws: seq<WingAero>): (r: seq<real>)
    ensures |r| == |ws|
  {
    seq(|ws|, i requires 0 <= i < |ws| => ws[i].effFrontClA)
  }

  function RearLiftAreas(ws: seq<WingAero>): (r: seq<real>)
    ensures |r| == |ws|
  {
    seq(|ws|, i requires 0 <= i < |ws| => ws[i].effRearClA)
  }

  /** The six numbers calculateAero returns. */
  datatype AeroNumbers = AeroNumbers(
    frontClA: real,
    rearClA: real,
    totalClA: real,
    totalCdA: real,
    efficiency: real,
    aeroBalance: real)
  {
    /** The k-th number, in the order calculateAero returns them. */
    function Get(k: nat): real
      requires k < 6
    {
      match k
      case 0 => frontClA
      case 1 => rearClA
      case 2 => totalClA
      case 3 => totalCdA
      case 4 => efficiency
      case _ => aeroBalance
    }
  }

  /** Efficiency and aero balance divide by the total drag and lift areas. */
  predicate AeroDefined(m: Maths, c: Chassis, wings: seq<Wing>, frontRH: real, rearRH: real)
    requires WingsValid(wings) && c.wheelbase != 0.0
  {
    var ws := WingAeros(m, c, wings, StanceAt(m, c, frontRH, rearRH));
    Sum(LiftAreas(ws)) != 0.0 && Sum(DragAreas(ws)) != 0.0
  }

  /** What calculateAero returns: the sums over the wings, the rear area as the
      total less the front, the efficiency and the percentage at the front. */
  function AeroOf(m: Maths, c: Chassis, wings: seq<Wing>, frontRH: real, rearRH: real): (r: AeroNumbers)
    requires WingsValid(wings) && c.wheelbase != 0.0
    requires AeroDefined(m, c, wings, frontRH, rearRH)
    ensures r.frontClA + r.rearClA == r.totalClA
  {
    var ws := WingAeros(m, c, wings, StanceAt(m, c, frontRH, rearRH));
    CarTotals(Sum(FrontLiftAreas(ws)), Sum(LiftAreas(ws)), Sum(DragAreas(ws)))
  }

  /** The six numbers from the summed front lift, total lift and total drag areas. */
  function CarTotals(frontClA: real, totalClA: real, totalCdA: real): (r: AeroNumbers)
    requires totalClA != 0.0 && totalCdA != 0.0
    ensures r.frontClA + r.rearClA == r.totalClA
    ensures r.efficiency * r.totalCdA == r.totalClA && r.aeroBalance * r.totalClA == 100.0 * r.frontClA
  {
    QuotientFacts(frontClA, totalClA, totalCdA);
    AeroNumbers(frontClA, totalClA - frontClA, totalClA, totalCdA, totalClA / totalCdA, frontClA / totalClA * 100.0)
  }

  /** The efficiency is the lift per unit drag, and the aero balance the
      percentage of the lift carried at the front. */
  lemma AeroRatios(m: Maths, c: Chassis, wings: seq<Wing>, frontRH: real, rearRH: real)
    requires WingsValid(wings) && c.wheelbase != 0.0
    requires AeroDefined(m, c, wings, frontRH, rearRH)
    ensures var r := AeroOf(m, c, wings, frontRH, rearRH);
      r.efficiency * r.totalCdA == r.totalClA && r.aeroBalance * r.totalClA == 100.0 * r.frontClA
  {
  }

  /** The rear area, total less front, is the sum of the wings' rear areas. */
  lemma {:induction false} RearAreaIsSumOfWings(m: Maths, c: Chassis, wings: seq<Wing>, frontRH: real, rearRH: real)
    requires WingsValid(wings) && c.wheelbase != 0.0
    requires AeroDefined(m, c, wings, frontRH, rearRH)
    ensures AeroOf(m, c, wings, frontRH, rearRH).rearClA == Sum(RearLiftAreas(WingAeros(m, c, wings, StanceAt(m, c, frontRH, rearRH))))
  {
    var ws := WingAeros(m, c, wings, StanceAt(m, c, frontRH, rearRH));
    SplitSums(ws);
  }

  /** Totals of per-wing values that split the lift into front and rear. */
  lemma SplitSums(ws: seq<WingAero>)
    requires forall i :: 0 <= i < |ws| ==> ws[i].effFrontClA + ws[i].effRearClA == ws[i].clA
    ensures Sum(LiftAreas(ws)) - Sum(FrontLiftAreas(ws)) == Sum(RearLiftAreas(ws))
  {
    SumDifference(LiftAreas(ws), FrontLiftAreas(ws), RearLiftAreas(ws));
  }

  lemma QuotientFacts(front: real, lift: real, drag: real)
    requires lift != 0.0 && drag != 0.0
    ensures lift / drag * drag == lift
    ensures front / lift * 100.0 * lift == 100.0 * front
  {
    assert front / lift * lift == front;
  }

  /** Aero numbers of every telemetry sample. */
  predicate TelemetryDefined(m: Maths, c: Chassis, wings: seq<Wing>, frontRH: seq<real>, rearRH: seq<real>)
    requires WingsValid(wings) && c.wheelbase != 0.0
  {
    |frontRH| == |rearRH| &&
    forall i :: 0 <= i < |frontRH| ==> AeroDefined(m, c, wings, frontRH[i], rearRH[i])
  }

  function SampleAeros(m: Maths, c: Chassis, wings: seq<Wing>, frontRH: seq<real>, rearRH: seq<real>): (r: seq<AeroNumbers>)
    requires WingsValid(wings) && c.wheelbase != 0.0
    requires TelemetryDefined(m, c, wings, frontRH, rearRH)
    ensures |r| == |frontRH|
  {
    seq(|frontRH|, i requires 0 <= i < |frontRH| => AeroOf(m, c, wings, frontRH[i], rearRH[i]))
  }

  /** The speed weighting speed^velocityPower of every sample. */
  function SpeedWeights(m: Maths, velocityPower: real, groundSpeed: seq<real>): (r: seq<real>)
    ensures |r| == |groundSpeed|
  {
    seq(|groundSpeed|, i requires 0 <= i < |groundSpeed| => m.pow(groundSpeed[i], velocityPower))
  }

  function Column(s: seq<AeroNumbers>, k: nat): (r: seq<real>)
    requires k < 6
    ensures |r| == |s|
  {
    seq(|s|, i requires 0 <= i < |s| => s[i].Get(k))
  }

  /** The six running weighted sums over the first i samples. */
  function PartialSums(s: seq<AeroNumbers>, w: seq<real>, i: nat): AeroNumbers
    requires |s| == |w| && i <= |s|
    decreases i
  {
    if i == 0 then AeroNumbers(0.0, 0.0, 0.0, 0.0, 0.0, 0.0)
    else AddWeighted(PartialSums(s, w, i - 1), s[i - 1], w[i - 1])
  }

  /** Running sums p with the numbers x added at weight v. */
  function AddWeighted(p: AeroNumbers, x: AeroNumbers, v: real): AeroNumbers
  {
    AeroNumbers(p.frontClA + Weigh(x.frontClA, v), p.rearClA + Weigh(x.rearClA, v),
                p.totalClA + Weigh(x.totalClA, v), p.totalCdA + Weigh(x.totalCdA, v),
                p.efficiency + Weigh(x.efficiency, v), p.aeroBalance + Weigh(x.aeroBalance, v))
  }

  lemma AddWeightedGet(p: AeroNumbers, x: AeroNumbers, v: real, k: nat)
    requires k < 6
    ensures AddWeighted(p, x, v).Get(k) == p.Get(k) + Weigh(x.Get(k), v)
  {
  }

  /** Taking one more sample adds its numbers, weighted, to each running sum. */
  lemma PartialSumsStep(s: seq<AeroNumbers>, w: seq<real>, i: nat, p: AeroNumbers, x: AeroNumbers, v: real)
    requires |s| == |w| && i < |s|
    requires p == PartialSums(s, w, i) && x == s[i] && v == w[i]
    ensures PartialSums(s, w, i + 1) == AddWeighted(p, x, v)
  {
  }

  /** The running sum of one of the six numbers gains that number times its weight. */
  lemma PartialSumsGetStep(s: seq<AeroNumbers>, w: seq<real>, i: nat, k: nat)
    requires |s| == |w| && 0 < i <= |s| && k < 6
    ensures PartialSums(s, w, i).Get(k) == PartialSums(s, w, i - 1).Get(k) + Weigh(s[i - 1].Get(k), w[i - 1])
  {
    AddWeightedGet(PartialSums(s, w, i - 1), s[i - 1], w[i - 1], k);
  }

  /** Each running sum is the weighted sum of its column over the first i
      samples. */
  lemma {:induction false} PartialSumsColumn(s: seq<AeroNumbers>, w: seq<real>, i: nat, k: nat)
    requires |s| == |w| && i <= |s| && k < 6
    ensures PartialSums(s, w, i).Get(k) == WeightedSum(Column(s, k)[..i], w[..i])
    decreases i
  {
    if i > 0 {
      PartialSumsColumn(s, w, i - 1, k);
      PartialSumsGetStep(s, w, i, k);
      WeightedSumLast(Column(s, k), w, i);
    }
  }

  /** Over all the samples, the running sums divided by the weight sum are the
      weighted averages. */
  lemma PartialSumsAverage(s: seq<AeroNumbers>, w: seq<real>, p: AeroNumbers, t: real)
    requires |s| == |w| && p == PartialSums(s, w, |s|) && t == Sum(w) && t != 0.0
    ensures AeroNumbers(p.frontClA / t, p.rearClA / t, p.totalClA / t, p.totalCdA / t, p.efficiency / t, p.aeroBalance / t)
      == Averages(s, w)
  {
    assert w[..|s|] == w;
    forall k | 0 <= k < 6 ensures p.Get(k) == WeightedSum(Column(s, k), w) {
      assert Column(s, k)[..|s|] == Column(s, k);
      PartialSumsColumn(s, w, |s|, k);
    }
  }

  /** Each of the six numbers averaged over the samples with weights w. */
  function Averages(s: seq<AeroNumbers>, w: seq<real>): (r: AeroNumbers)
    requires |s| == |w| && Sum(w) != 0.0
    ensures forall k :: 0 <= k < 6 ==> r.Get(k) == WeightedAverage(Column(s, k), w)
  {
    AeroNumbers(WeightedAverage(Column(s, 0), w), WeightedAverage(Column(s, 1), w),
                WeightedAverage(Column(s, 2), w), WeightedAverage(Column(s, 3), w),
                WeightedAverage(Column(s, 4), w), WeightedAverage(Column(s, 5), w))
  }

  /** Everything calculateAeroRHTelem divides by is non-zero. */
  predicate TelemetryAveraged(m: Maths, c: Chassis, wings: seq<Wing>, velocityPower: real,
                              frontRH: seq<real>, rearRH: seq<real>, groundSpeed: seq<real>)
    requires WingsValid(wings) && c.wheelbase != 0.0
  {
    |groundSpeed| == |frontRH| &&
    TelemetryDefined(m, c, wings, frontRH, rearRH) &&
    Sum(SpeedWeights(m, velocityPower, groundSpeed)) != 0.0
  }

  /** What calculateAeroRHTelem returns: each of the six numbers averaged over
      the samples with weight speed^velocityPower. */
  function TelemAverage(m: Maths, c: Chassis, wings: seq<Wing>, velocityPower: real,
                        frontRH: seq<real>, rearRH: seq<real>, groundSpeed: seq<real>): (r: AeroNumbers)
    requires WingsValid(wings) && c.wheelbase != 0.0
    requires TelemetryAveraged(m, c, wings, velocityPower, frontRH, rearRH, groundSpeed)
    ensures forall k :: 0 <= k < 6 ==>
      r.Get(k) == WeightedAverage(Column(SampleAeros(m, c, wings, frontRH, rearRH), k), SpeedWeights(m, velocityPower, groundSpeed))
  {
    Averages(SampleAeros(m, c, wings, frontRH, rearRH), SpeedWeights(m, velocityPower, groundSpeed))
  }

  /** A number that is the same in every sample averages to that number. */
  lemma TelemAverageOfConstant(m: Maths, c: Chassis, wings: seq<Wing>, velocityPower: real,
                               frontRH: seq<real>, rearRH: seq<real>, groundSpeed: seq<real>, k: nat, v: real)
    requires WingsValid(wings) && c.wheelbase != 0.0 && k < 6
    requires TelemetryAveraged(m, c, wings, velocityPower, frontRH, rearRH, groundSpeed)
    requires forall i :: 0 <= i < |frontRH| ==> AeroOf(m, c, wings, frontRH[i], rearRH[i]).Get(k) == v
    ensures TelemAverage(m, c, wings, velocityPower, frontRH, rearRH, groundSpeed).Get(k) == v
  {
    var s := SampleAeros(m, c, wings, frontRH, rearRH);
    WeightedAverageConstant(Column(s, k), SpeedWeights(m, velocityPower, groundSpeed), v);
  }

  /** With non-negative weights each average lies within the range the samples span. */
  lemma TelemAverageWithinRange(m: Maths, c: Chassis, wings: seq<Wing>, velocityPower: real,
                                frontRH: seq<real>, rearRH: seq<real>, groundSpeed: seq<real>, k: nat, lo: real, hi: real)
    requires WingsValid(wings) && c.wheelbase != 0.0 && k < 6
    requires TelemetryAveraged(m, c, wings, velocityPower, frontRH, rearRH, groundSpeed)
    requires forall i :: 0 <= i < |groundSpeed| ==> m.pow(groundSpeed[i], velocityPower) >= 0.0
    requires forall i :: 0 <= i < |frontRH| ==> lo <= AeroOf(m, c, wings, frontRH[i], rearRH[i]).Get(k) <= hi
    ensures lo <= TelemAverage(m, c, wings, velocityPower, frontRH, rearRH, groundSpeed).Get(k) <= hi
  {
    var s := SampleAeros(m, c, wings, frontRH, rearRH);
    WeightedAverageBounds(Column(s, k), SpeedWeights(m, velocityPower, groundSpeed), lo, hi);
  }
}
