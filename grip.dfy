/** Tyre grip and its axle average over telemetry, as the camber optimiser
    computes them (AssettoCorsaCamberOptimiser/car.py: Tyre.tyreLatD and the
    bodies of Car.frontAxleAvgLatD and Car.rearAxleAvgLatD). Lateral D is the
    tyre's friction coefficient: load sensitive through pow and camber
    sensitive through a quadratic multiplier in the camber angle. */
module Grip {
  import opened Numeric

  /** The numeric tyre data of one [FRONT] or [REAR] section of tyres.ini. */
  datatype Tyre = Tyre(FZ0: real, LS_EXPY: real, DY_REF: real, DCAMBER_0: real, DCAMBER_1: real)

  /** D before the camber multiplier: DY_REF scaled by pow(Fz, LS_EXPY - 1) * pow(FZ0, 1 - LS_EXPY). */
  function LoadD(m: Maths, t: Tyre, Fz: real): real {
    t.DY_REF * m.pow(Fz, t.LS_EXPY - 1.0) * m.pow(t.FZ0, 1.0 - t.LS_EXPY)
  }

  /** The camber multiplier's denominator 1 + DCAMBER_0 * c - DCAMBER_1 * c^2, c in radians. */
  function CamberDivisor(m: Maths, t: Tyre, camberDeg: real): real {
    var camberRad := camberDeg * Pi / 180.0;
    1.0 + t.DCAMBER_0 * camberRad - t.DCAMBER_1 * m.pow(camberRad, 2.0)
  }

  /** tyreLatD can be evaluated: a loaded tyre's camber divisor is not zero. */
  predicate TyreDefined(m: Maths, t: Tyre, Fz: real, camberDeg: real) {
    Fz <= 0.0 || CamberDivisor(m, t, camberDeg) != 0.0
  }

  /** Tyre.tyreLatD: 0 for a tyre without load, otherwise the load-sensitive D
      divided by the camber divisor. */
  function TyreLatD(m: Maths, t: Tyre, Fz: real, camberDeg: real): (d: real)
    requires TyreDefined(m, t, Fz, camberDeg)
    ensures Fz <= 0.0 ==> d == 0.0
  {
    if Fz <= 0.0 then 0.0 else LoadD(m, t, Fz) / CamberDivisor(m, t, camberDeg)
  }

  /** A loaded tyre's grip times the camber divisor is the load-sensitive D. */
  lemma LoadedGrip(m: Maths, t: Tyre, Fz: real, camberDeg: real)
    requires Fz > 0.0 && TyreDefined(m, t, Fz, camberDeg)
    ensures TyreLatD(m, t, Fz, camberDeg) * CamberDivisor(m, t, camberDeg) == LoadD(m, t, Fz)
  {
  }

  /** At the reference load FZ0 and zero camber the grip is DY_REF, given
      pow(FZ0, e - 1) * pow(FZ0, 1 - e) == 1 and pow(0, 2) == 0. */
  lemma ReferenceGrip(m: Maths, t: Tyre)
    requires t.FZ0 > 0.0
    requires m.pow(t.FZ0, t.LS_EXPY - 1.0) * m.pow(t.FZ0, 1.0 - t.LS_EXPY) == 1.0
    requires m.pow(0.0, 2.0) == 0.0
    ensures TyreDefined(m, t, t.FZ0, 0.0)
    ensures TyreLatD(m, t, t.FZ0, 0.0) == t.DY_REF
  {
    assert CamberDivisor(m, t, 0.0) == 1.0 by {
      assert 0.0 * Pi / 180.0 == 0.0;
    }
    assert LoadD(m, t, t.FZ0) == t.DY_REF * (m.pow(t.FZ0, t.LS_EXPY - 1.0) * m.pow(t.FZ0, 1.0 - t.LS_EXPY));
  }

  /** Camber acts only through the multiplier: grip times divisor does not
      depend on the camber. */
  lemma CamberScalesGrip(m: Maths, t: Tyre, Fz: real, camber1: real, camber2: real)
    requires TyreDefined(m, t, Fz, camber1) && TyreDefined(m, t, Fz, camber2)
    ensures TyreLatD(m, t, Fz, camber1) * CamberDivisor(m, t, camber1)
         == TyreLatD(m, t, Fz, camber2) * CamberDivisor(m, t, camber2)
  {
    if Fz > 0.0 {
      LoadedGrip(m, t, Fz, camber1);
      LoadedGrip(m, t, Fz, camber2);
    }
  }

  // ------------------------------------------------------------ one sample

  /** The cambers the two tyres of an axle run at in one sample, from the
      trial cambers: in a left-hand corner (latG > 0) the left tyre's camber
      counts opposite, otherwise the right tyre's. */
  function CornerCambers(latG: real, leftCamberDeg: real, rightCamberDeg: real): (real, real) {
    if latG > 0.0 then (-leftCamberDeg, rightCamberDeg) else (leftCamberDeg, -rightCamberDeg)
  }

  /** Both tyre grips of a sample can be evaluated (Python evaluates both
      before it looks at the axle load). */
  predicate SampleDefined(m: Maths, t: Tyre, latG: real, leftFz: real, rightFz: real, leftCamberDeg: real, rightCamberDeg: real) {
    var cambers := CornerCambers(latG, leftCamberDeg, rightCamberDeg);
    TyreDefined(m, t, leftFz, cambers.0) && TyreDefined(m, t, rightFz, cambers.1)
  }

  /** One sample's axle lateral D: the load-weighted average of the two tyres'
      grip, or 0 when the axle carries no load. */
  function SampleLatD(m: Maths, t: Tyre, latG: real, leftFz: real, rightFz: real,
                      leftCamberDeg: real, rightCamberDeg: real): (d: real)
    requires SampleDefined(m, t, latG, leftFz, rightFz, leftCamberDeg, rightCamberDeg)
  {
    var cambers := CornerCambers(latG, leftCamberDeg, rightCamberDeg);
    var leftLatD := TyreLatD(m, t, leftFz, cambers.0);
    var rightLatD := TyreLatD(m, t, rightFz, cambers.1);
    var axleFz := leftFz + rightFz;
    if axleFz <= 0.0 then 0.0 else LoadWeighted(leftFz, leftLatD, rightFz, rightLatD)
  }

  /** An axle without load contributes 0. */
  lemma UnloadedSample(m: Maths, t: Tyre, latG: real, leftFz: real, rightFz: real, leftCamberDeg: real, rightCamberDeg: real)
    requires SampleDefined(m, t, latG, leftFz, rightFz, leftCamberDeg, rightCamberDeg)
    requires leftFz + rightFz <= 0.0
    ensures SampleLatD(m, t, latG, leftFz, rightFz, leftCamberDeg, rightCamberDeg) == 0.0
  {
  }

  /** With both loads non-negative and the axle loaded, a sample lies between
      the grips of its two tyres. */
  lemma SampleBetweenTyres(m: Maths, t: Tyre, latG: real, leftFz: real, rightFz: real, leftCamberDeg: real, rightCamberDeg: real)
    requires SampleDefined(m, t, latG, leftFz, rightFz, leftCamberDeg, rightCamberDeg)
    requires leftFz >= 0.0 && rightFz >= 0.0 && leftFz + rightFz > 0.0
    ensures var cambers := CornerCambers(latG, leftCamberDeg, rightCamberDeg);
      var leftLatD := TyreLatD(m, t, leftFz, cambers.0);
      var rightLatD := TyreLatD(m, t, rightFz, cambers.1);
      var d := SampleLatD(m, t, latG, leftFz, rightFz, leftCamberDeg, rightCamberDeg);
      (leftLatD <= d <= rightLatD) || (rightLatD <= d <= leftLatD)
  {
    var cambers := CornerCambers(latG, leftCamberDeg, rightCamberDeg);
    var a := TyreLatD(m, t, leftFz, cambers.0);
    var b := TyreLatD(m, t, rightFz, cambers.1);
    assert SampleLatD(m, t, latG, leftFz, rightFz, leftCamberDeg, rightCamberDeg) == LoadWeighted(leftFz, a, rightFz, b);
    LoadWeightedBetween(leftFz, rightFz, a, b);
  }

  /** The average of a and b weighted by the loads wa and wb. */
  function LoadWeighted(wa: real, a: real, wb: real, b: real): real
    requires wa + wb != 0.0
  {
    (wa * a + wb * b) / (wa + wb)
  }

  lemma LoadWeightedBetween(wa: real, wb: real, a: real, b: real)
    requires wa >= 0.0 && wb >= 0.0 && wa + wb > 0.0
    ensures var d := LoadWeighted(wa, a, wb, b); (a <= d <= b) || (b <= d <= a)
  {
    var w := wa + wb;
    var d := (wa * a + wb * b) / w;
    assert d * w == wa * a + wb * b;
    if a <= b {
      assert (d - a) * w == wb * (b - a);
      assert (b - d) * w == wa * (b - a);
      ProductNonNegative(wb, b - a);
      ProductNonNegative(wa, b - a);
      NonNegativeFactor(d - a, w);
      NonNegativeFactor(b - d, w);
    } else {
      assert (a - d) * w == wb * (a - b);
      assert (d - b) * w == wa * (a - b);
      ProductNonNegative(wb, a - b);
      ProductNonNegative(wa, a - b);
      NonNegativeFactor(a - d, w);
      NonNegativeFactor(d - b, w);
    }
  }

  /** Mirror symmetry: a corner the other way with the two sides exchanged
      gives the same sample (the straight-line case latG == 0 counts as a
      right-hand corner, so it is excluded). */
  lemma SampleMirror(m: Maths, t: Tyre, latG: real, leftFz: real, rightFz: real, leftCamberDeg: real, rightCamberDeg: real)
    requires latG != 0.0
    requires SampleDefined(m, t, latG, leftFz, rightFz, leftCamberDeg, rightCamberDeg)
    ensures SampleDefined(m, t, -latG, rightFz, leftFz, rightCamberDeg, leftCamberDeg)
    ensures SampleLatD(m, t, latG, leftFz, rightFz, leftCamberDeg, rightCamberDeg)
         == SampleLatD(m, t, -latG, rightFz, leftFz, rightCamberDeg, leftCamberDeg)
  {
    assert leftFz + rightFz == rightFz + leftFz;
  }

  // ------------------------------------------------------------ one axle

  /** The filtered telemetry of one axle: lateral G and each side's tyre load
      and camber, one entry per sample. */
  datatype AxleTelemetry = AxleTelemetry(latG: seq<real>, leftFz: seq<real>, rightFz: seq<real>,
                                         leftCamberDeg: seq<real>, rightCamberDeg: seq<real>)
  {
    predicate WellFormed() {
      |leftFz| == |latG| && |rightFz| == |latG| && |leftCamberDeg| == |latG| && |rightCamberDeg| == |latG|
    }

    /** Every camber moved by the given offsets, as the trial camber lists. */
    function WithOffsets(leftOffset: real, rightOffset: real): (r: AxleTelemetry)
      requires WellFormed()
      ensures r.WellFormed() && r.latG == latG && r.leftFz == leftFz && r.rightFz == rightFz
      ensures forall i :: 0 <= i < |latG| ==> r.leftCamberDeg[i] == leftCamberDeg[i] + leftOffset
      ensures forall i :: 0 <= i < |latG| ==> r.rightCamberDeg[i] == rightCamberDeg[i] + rightOffset
    {
      AxleTelemetry(latG, leftFz, rightFz,
                    seq(|latG|, i requires 0 <= i < |latG| => leftCamberDeg[i] + leftOffset),
                    seq(|latG|, i requires 0 <= i < |latG| => rightCamberDeg[i] + rightOffset))
    }
  }

  /** Every sample's grip can be evaluated at these camber offsets, and there
      is at least one sample to average over. */
  predicate AxleDefined(m: Maths, t: Tyre, a: AxleTelemetry, leftOffset: real, rightOffset: real) {
    a.WellFormed() && |a.latG| > 0 &&
    forall i :: 0 <= i < |a.latG| ==>
      SampleDefined(m, t, a.latG[i], a.leftFz[i], a.rightFz[i], a.leftCamberDeg[i] + leftOffset, a.rightCamberDeg[i] + rightOffset)
  }

  /** The per-sample axle lateral D list at the given camber offsets. */
  function AxleLatDs(m: Maths, t: Tyre, a: AxleTelemetry, leftOffset: real, rightOffset: real): (r: seq<real>)
    requires AxleDefined(m, t, a, leftOffset, rightOffset)
    ensures |r| == |a.latG|
    ensures forall i :: 0 <= i < |r| ==>
      r[i] == SampleLatD(m, t, a.latG[i], a.leftFz[i], a.rightFz[i], a.leftCamberDeg[i] + leftOffset, a.rightCamberDeg[i] + rightOffset)
  {
    seq(|a.latG|, i requires 0 <= i < |a.latG| =>
      SampleLatD(m, t, a.latG[i], a.leftFz[i], a.rightFz[i], a.leftCamberDeg[i] + leftOffset, a.rightCamberDeg[i] + rightOffset))
  }

  /** The axle's average lateral D: the plain mean of the per-sample values. */
  function AxleAvgLatD(m: Maths, t: Tyre, a: AxleTelemetry, leftOffset: real, rightOffset: real): real
    requires AxleDefined(m, t, a, leftOffset, rightOffset)
  {
    Mean(AxleLatDs(m, t, a, leftOffset, rightOffset))
  }

  /** The average lies within any bounds every sample lies within. */
  lemma AxleAvgWithinSamples(m: Maths, t: Tyre, a: AxleTelemetry, leftOffset: real, rightOffset: real, lo: real, hi: real)
    requires AxleDefined(m, t, a, leftOffset, rightOffset)
    requires forall i :: 0 <= i < |a.latG| ==>
      lo <= SampleLatD(m, t, a.latG[i], a.leftFz[i], a.rightFz[i], a.leftCamberDeg[i] + leftOffset, a.rightCamberDeg[i] + rightOffset) <= hi
    ensures lo <= AxleAvgLatD(m, t, a, leftOffset, rightOffset) <= hi
  {
    var s := AxleLatDs(m, t, a, leftOffset, rightOffset);
    MeanBounds(s, lo, hi);
  }

  /** An axle that never carries load averages to 0 at every camber. */
  lemma UnloadedAxle(m: Maths, t: Tyre, a: AxleTelemetry, leftOffset: real, rightOffset: real)
    requires AxleDefined(m, t, a, leftOffset, rightOffset)
    requires forall i :: 0 <= i < |a.latG| ==> a.leftFz[i] + a.rightFz[i] <= 0.0
    ensures AxleAvgLatD(m, t, a, leftOffset, rightOffset) == 0.0
  {
    var s := AxleLatDs(m, t, a, leftOffset, rightOffset);
    forall i | 0 <= i < |s| ensures s[i] == 0.0 {
      UnloadedSample(m, t, a.latG[i], a.leftFz[i], a.rightFz[i], a.leftCamberDeg[i] + leftOffset, a.rightCamberDeg[i] + rightOffset);
    }
    AxleAvgWithinSamples(m, t, a, leftOffset, rightOffset, 0.0, 0.0);
  }

  /** Offsetting the camber lists first and evaluating at zero offset is the
      same as evaluating at the offsets: the form test.py uses agrees with the
      form the Car methods use. */
  lemma OffsetsCommute(m: Maths, t: Tyre, a: AxleTelemetry, leftOffset: real, rightOffset: real)
    requires AxleDefined(m, t, a, leftOffset, rightOffset)
    ensures AxleDefined(m, t, a.WithOffsets(leftOffset, rightOffset), 0.0, 0.0)
    ensures AxleAvgLatD(m, t, a.WithOffsets(leftOffset, rightOffset), 0.0, 0.0) == AxleAvgLatD(m, t, a, leftOffset, rightOffset)
  {
    var b := a.WithOffsets(leftOffset, rightOffset);
    forall i | 0 <= i < |b.latG|
      ensures b.leftCamberDeg[i] + 0.0 == a.leftCamberDeg[i] + leftOffset
      ensures b.rightCamberDeg[i] + 0.0 == a.rightCamberDeg[i] + rightOffset
    {
    }
    assert AxleLatDs(m, t, b, 0.0, 0.0) == AxleLatDs(m, t, a, leftOffset, rightOffset);
  }

  /** The numbers one pass of the axle loop appends: the list so far is the
      first i per-sample values. */
  lemma AxleLatDsPrefix(m: Maths, t: Tyre, a: AxleTelemetry, leftOffset: real, rightOffset: real, i: nat, sofar: seq<real>, d: real)
    requires AxleDefined(m, t, a, leftOffset, rightOffset) && i < |a.latG|
    requires sofar == AxleLatDs(m, t, a, leftOffset, rightOffset)[..i]
    requires d == SampleLatD(m, t, a.latG[i], a.leftFz[i], a.rightFz[i], a.leftCamberDeg[i] + leftOffset, a.rightCamberDeg[i] + rightOffset)
    ensures sofar + [d] == AxleLatDs(m, t, a, leftOffset, rightOffset)[..i + 1]
  {
  }

  /** frontAxleAvgLatD / rearAxleAvgLatD: the loop that appends one value per
      sample, then sum over len. */
  method ComputeAxleAvgLatD(m: Maths, t: Tyre, a: AxleTelemetry, leftOffset: real, rightOffset: real) returns (avg: real)
    requires AxleDefined(m, t, a, leftOffset, rightOffset)
    ensures avg == AxleAvgLatD(m, t, a, leftOffset, rightOffset)
  {
    var axleLatDArray := AxleLatDArray(m, t, a, leftOffset, rightOffset);
    avg := Sum(axleLatDArray) / (|axleLatDArray| as real);
  }

  /** The per-sample list the axle loop appends to. */
  method AxleLatDArray(m: Maths, t: Tyre, a: AxleTelemetry, leftOffset: real, rightOffset: real) returns (axleLatDArray: seq<real>)
    requires AxleDefined(m, t, a, leftOffset, rightOffset)
    ensures axleLatDArray == AxleLatDs(m, t, a, leftOffset, rightOffset)
  {
    axleLatDArray := [];
    for i := 0 to |a.latG|
      invariant axleLatDArray == AxleLatDs(m, t, a, leftOffset, rightOffset)[..i]
    {
      var leftCamberDegTrial := a.leftCamberDeg[i] + leftOffset;
      var rightCamberDegTrial := a.rightCamberDeg[i] + rightOffset;
      var leftLatD, rightLatD, d := SampleStep(m, t, a.latG[i], a.leftFz[i], a.rightFz[i], leftCamberDegTrial, rightCamberDegTrial);
      AxleLatDsPrefix(m, t, a, leftOffset, rightOffset, i, axleLatDArray, d);
      axleLatDArray := axleLatDArray + [d];
    }
    assert axleLatDArray == AxleLatDs(m, t, a, leftOffset, rightOffset);
  }

  /** One pass of the axle loop: both tyres' grip at the corner's cambers,
      then their load-weighted average, or 0 for an unloaded axle. */
  method SampleStep(m: Maths, t: Tyre, latG: real, leftFz: real, rightFz: real, leftCamberDegTrial: real, rightCamberDegTrial: real)
    returns (leftLatD: real, rightLatD: real, d: real)
    requires SampleDefined(m, t, latG, leftFz, rightFz, leftCamberDegTrial, rightCamberDegTrial)
    ensures d == SampleLatD(m, t, latG, leftFz, rightFz, leftCamberDegTrial, rightCamberDegTrial)
  {
    if latG > 0.0 {
      leftLatD := TyreLatD(m, t, leftFz, -leftCamberDegTrial);
      rightLatD := TyreLatD(m, t, rightFz, rightCamberDegTrial);
    } else {
      leftLatD := TyreLatD(m, t, leftFz, leftCamberDegTrial);
      rightLatD := TyreLatD(m, t, rightFz, -rightCamberDegTrial);
    }
    var axleTyreLoad := leftFz + rightFz;
    if axleTyreLoad <= 0.0 {
      d := 0.0;
    } else {
      d := LoadWeighted(leftFz, leftLatD, rightFz, rightLatD);
    }
  }
}
