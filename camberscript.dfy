/** The older camber script AssettoCorsaCamberOptimiser/test.py: its own copy
    of the tyre grip function and of the two axle averages, with the tyre data
    written in as constants, and an exhaustive sweep that applies one camber
    offset to all four corners for every tenth of a degree from -5 to 5 and
    keeps, per axle, the first offset with the greatest average grip. */
module CamberScript {
  import opened Numeric
  import opened Grip
  import opened Camber

  /** The front tyre's load sensitivity and camber data. */
  const FrontFZ0: real := 2500.0
  const FrontLS_EXPY: real := 0.7285
  const FrontDY_REF: real := 1.7910774
  const FrontDCAMBER_0: real := 1.14591559026165
  const FrontDCAMBER_1: real := -8.20701587502936

  /** The rear tyre's load sensitivity and camber data. */
  const RearFZ0: real := 2500.0
  const RearLS_EXPY: real := 0.775
  const RearDY_REF: real := 1.8522
  const RearDCAMBER_0: real := 1.14591559026165
  const RearDCAMBER_1: real := -8.20701587502936

  /** The same data as tyre records. */
  const FrontTyre: Tyre := Tyre(FrontFZ0, FrontLS_EXPY, FrontDY_REF, FrontDCAMBER_0, FrontDCAMBER_1)
  const RearTyre: Tyre := Tyre(RearFZ0, RearLS_EXPY, RearDY_REF, RearDCAMBER_0, RearDCAMBER_1)

  // ------------------------------------------------------------ tyre grip

  /** The camber multiplier's denominator, written with the script's parameters. */
  function ScriptDivisor(m: Maths, camberDeg: real, DCAMBER_0: real, DCAMBER_1: real): real {
    var camberRad := camberDeg * Pi / 180.0;
    1.0 + DCAMBER_0 * camberRad - DCAMBER_1 * m.pow(camberRad, 2.0)
  }

  /** The script's tyreLatD: 0 without load, otherwise the load-sensitive D
      divided by the camber multiplier's denominator. */
  function ScriptTyreLatD(m: Maths, Fz: real, camberDeg: real, FZ0: real, LS_EXPY: real, DY_REF: real,
                          DCAMBER_0: real, DCAMBER_1: real): real
    requires Fz <= 0.0 || ScriptDivisor(m, camberDeg, DCAMBER_0, DCAMBER_1) != 0.0
  {
    if Fz <= 0.0 then 0.0
    else
      var D := DY_REF * m.pow(Fz, LS_EXPY - 1.0) * m.pow(FZ0, 1.0 - LS_EXPY);
      D / ScriptDivisor(m, camberDeg, DCAMBER_0, DCAMBER_1)
  }

  /** The script's grip function computes what Tyre.tyreLatD computes for a
      tyre with the same data, and can be evaluated exactly where that can. */
  lemma ScriptTyreAgrees(m: Maths, t: Tyre, Fz: real, camberDeg: real)
    ensures (Fz <= 0.0 || ScriptDivisor(m, camberDeg, t.DCAMBER_0, t.DCAMBER_1) != 0.0) <==> TyreDefined(m, t, Fz, camberDeg)
    ensures TyreDefined(m, t, Fz, camberDeg) ==>
      ScriptTyreLatD(m, Fz, camberDeg, t.FZ0, t.LS_EXPY, t.DY_REF, t.DCAMBER_0, t.DCAMBER_1) == TyreLatD(m, t, Fz, camberDeg)
  {
  }

  // ------------------------------------------------------------ axle averages

  /** The five lists one axle's function reads, as an axle record. The loop
      runs over latG and reads the other lists at the same index. */
  function AxleOf(latG: seq<real>, leftFz: seq<real>, leftCamberDeg: seq<real>,
                  rightFz: seq<real>, rightCamberDeg: seq<real>): (a: AxleTelemetry)
    requires |leftFz| >= |latG| && |leftCamberDeg| >= |latG| && |rightFz| >= |latG| && |rightCamberDeg| >= |latG|
    ensures a.WellFormed() && a.latG == latG
    ensures forall i :: 0 <= i < |latG| ==>
      a.leftFz[i] == leftFz[i] && a.rightFz[i] == rightFz[i] &&
      a.leftCamberDeg[i] == leftCamberDeg[i] && a.rightCamberDeg[i] == rightCamberDeg[i]
  {
    var n := |latG|;
    AxleTelemetry(latG, leftFz[..n], rightFz[..n], leftCamberDeg[..n], rightCamberDeg[..n])
  }

  /** The loop shared by frontAxleAvgLatD and rearAxleAvgLatD, with the tyre
      data of the axle: per sample, the corner's cambers, both grips, their
      load-weighted average or 0 without load; then the mean. */
  method AxleLoop(m: Maths, t: Tyre, latG: seq<real>, leftFz: seq<real>, leftCamberDeg: seq<real>,
                  rightFz: seq<real>, rightCamberDeg: seq<real>) returns (avg: real)
    requires |leftFz| >= |latG| && |leftCamberDeg| >= |latG| && |rightFz| >= |latG| && |rightCamberDeg| >= |latG|
    requires AxleDefined(m, t, AxleOf(latG, leftFz, leftCamberDeg, rightFz, rightCamberDeg), 0.0, 0.0)
    ensures avg == AxleAvgLatD(m, t, AxleOf(latG, leftFz, leftCamberDeg, rightFz, rightCamberDeg), 0.0, 0.0)
  {
    ghost var a := AxleOf(latG, leftFz, leftCamberDeg, rightFz, rightCamberDeg);
    var axleLatDArray := [];
    for i := 0 to |latG|
      invariant axleLatDArray == AxleLatDs(m, t, a, 0.0, 0.0)[..i]
    {
      var d := SampleByScript(m, t, latG[i], leftFz[i], leftCamberDeg[i], rightFz[i], rightCamberDeg[i]);
      AxleLatDsPrefix(m, t, a, 0.0, 0.0, i, axleLatDArray, d);
      axleLatDArray := axleLatDArray + [d];
    }
    assert axleLatDArray == AxleLatDs(m, t, a, 0.0, 0.0);
    avg := Sum(axleLatDArray) / (|axleLatDArray| as real);
  }

  /** One pass of the script's axle loop. */
  method SampleByScript(m: Maths, t: Tyre, latG: real, leftFz: real, leftCamberDeg: real, rightFz: real, rightCamberDeg: real)
    returns (d: real)
    requires SampleDefined(m, t, latG, leftFz, rightFz, leftCamberDeg + 0.0, rightCamberDeg + 0.0)
    ensures d == SampleLatD(m, t, latG, leftFz, rightFz, leftCamberDeg + 0.0, rightCamberDeg + 0.0)
  {
    var leftLatD, rightLatD;
    var cambers := CornerCambers(latG, leftCamberDeg, rightCamberDeg);
    ScriptTyreAgrees(m, t, leftFz, cambers.0);
    ScriptTyreAgrees(m, t, rightFz, cambers.1);
    if latG > 0.0 {
      leftLatD := ScriptTyreLatD(m, leftFz, -leftCamberDeg, t.FZ0, t.LS_EXPY, t.DY_REF, t.DCAMBER_0, t.DCAMBER_1);
      rightLatD := ScriptTyreLatD(m, rightFz, rightCamberDeg, t.FZ0, t.LS_EXPY, t.DY_REF, t.DCAMBER_0, t.DCAMBER_1);
    } else {
      leftLatD := ScriptTyreLatD(m, leftFz, leftCamberDeg, t.FZ0, t.LS_EXPY, t.DY_REF, t.DCAMBER_0, t.DCAMBER_1);
      rightLatD := ScriptTyreLatD(m, rightFz, -rightCamberDeg, t.FZ0, t.LS_EXPY, t.DY_REF, t.DCAMBER_0, t.DCAMBER_1);
    }
    if leftFz + rightFz <= 0.0 {
      d := 0.0;
    } else {
      d := LoadWeighted(leftFz, leftLatD, rightFz, rightLatD);
    }
  }

  /** frontAxleAvgLatD: the loop with the front tyre's data. */
  method FrontAxleAvgLatD(m: Maths, latG: seq<real>, FL_Fz: seq<real>, FL_camberDeg: seq<real>,
                          FR_Fz: seq<real>, FR_camberDeg: seq<real>) returns (avg: real)
    requires |FL_Fz| >= |latG| && |FL_camberDeg| >= |latG| && |FR_Fz| >= |latG| && |FR_camberDeg| >= |latG|
    requires AxleDefined(m, FrontTyre, AxleOf(latG, FL_Fz, FL_camberDeg, FR_Fz, FR_camberDeg), 0.0, 0.0)
    ensures avg == AxleAvgLatD(m, FrontTyre, AxleOf(latG, FL_Fz, FL_camberDeg, FR_Fz, FR_camberDeg), 0.0, 0.0)
  {
    avg := AxleLoop(m, FrontTyre, latG, FL_Fz, FL_camberDeg, FR_Fz, FR_camberDeg);
  }

  /** rearAxleAvgLatD: the loop with the rear tyre's data. */
  method RearAxleAvgLatD(m: Maths, latG: seq<real>, RL_Fz: seq<real>, RL_camberDeg: seq<real>,
                         RR_Fz: seq<real>, RR_camberDeg: seq<real>) returns (avg: real)
    requires |RL_Fz| >= |latG| && |RL_camberDeg| >= |latG| && |RR_Fz| >= |latG| && |RR_camberDeg| >= |latG|
    requires AxleDefined(m, RearTyre, AxleOf(latG, RL_Fz, RL_camberDeg, RR_Fz, RR_camberDeg), 0.0, 0.0)
    ensures avg == AxleAvgLatD(m, RearTyre, AxleOf(latG, RL_Fz, RL_camberDeg, RR_Fz, RR_camberDeg), 0.0, 0.0)
  {
    avg := AxleLoop(m, RearTyre, latG, RL_Fz, RL_camberDeg, RR_Fz, RR_camberDeg);
  }

  // ------------------------------------------------------------ the sweep

  /** Every element of a list moved by x: [i + x for i in s]. */
  function Shift(s: seq<real>, x: real): (r: seq<real>)
    ensures |r| == |s| && forall i :: 0 <= i < |s| ==> r[i] == s[i] + x
  {
    seq(|s|, i requires 0 <= i < |s| => s[i] + x)
  }

  /** How many offsets the sweep tries. */
  const SweepCount: nat := 101

  /** The j-th offset tried: -5.0, -4.9, ..., 5.0 (round(..., 1) keeps every
      offset a whole number of tenths). */
  function SweepOffset(j: nat): real {
    ((j as int - 50) as real) / 10.0
  }

  /** round(x, 1) for a value already a whole number of tenths. */
  function RoundToTenth(x: real): (r: real)
    ensures (r * 10.0).Floor as real == r * 10.0
    ensures -0.05 <= r - x <= 0.05
  {
    var y := 10.0 * x;
    var f := y.Floor;
    var frac := y - f as real;
    var k := if frac < 0.5 then f else if frac > 0.5 then f + 1 else if f % 2 == 0 then f else f + 1;
    (k as real) / 10.0
  }

  /** Adding the step to an offset and rounding gives the next offset. */
  lemma NextSweepOffset(j: nat, camberOffset: real, camberOffsetStep: real)
    requires camberOffset == SweepOffset(j) && camberOffsetStep == 0.1
    ensures RoundToTenth(camberOffset + camberOffsetStep) == SweepOffset(j + 1)
  {
    var k := j as int - 50;
    assert camberOffset + camberOffsetStep == ((k + 1) as real) / 10.0;
    RoundWholeTenths(k + 1);
  }

  /** A whole number of tenths rounds to itself. */
  lemma RoundWholeTenths(k: int)
    ensures RoundToTenth((k as real) / 10.0) == (k as real) / 10.0
  {
    assert 10.0 * ((k as real) / 10.0) == k as real;
    assert (k as real).Floor == k;
  }

  /** The loop guard camberOffset < 5 + 0.1 holds exactly for the 101 offsets. */
  lemma SweepGuard(j: nat)
    ensures SweepOffset(j) < 5.0 + 0.1 <==> j < SweepCount
  {
  }

  /** The axle can be evaluated at every offset of the sweep. */
  predicate SweepDefined(m: Maths, t: Tyre, a: AxleTelemetry) {
    forall j: nat :: j < SweepCount ==> AxleDefined(m, t, a, SweepOffset(j), SweepOffset(j))
  }

  /** The average grip of the axle at each offset of the sweep, in order. */
  function SweepValues(m: Maths, t: Tyre, a: AxleTelemetry): (r: seq<real>)
    requires SweepDefined(m, t, a)
    ensures |r| == SweepCount
    ensures forall j :: 0 <= j < SweepCount ==> r[j] == AxleAvgLatD(m, t, a, SweepOffset(j), SweepOffset(j))
  {
    seq(SweepCount, j requires 0 <= j < SweepCount => AxleAvgLatD(m, t, a, SweepOffset(j), SweepOffset(j)))
  }

  /** The offsets of the sweep, in order. */
  function SweepOffsets(): (r: seq<real>)
    ensures |r| == SweepCount && forall j :: 0 <= j < SweepCount ==> r[j] == SweepOffset(j)
  {
    seq(SweepCount, j requires 0 <= j => SweepOffset(j))
  }

  /** The best offset and value after the first n trials: it starts at offset
      0 with value 0 and moves to a trial only when that is strictly greater. */
  function FirstMax(offsets: seq<real>, values: seq<real>, n: nat): (r: Optimum)
    requires |offsets| == |values| && n <= |values|
    ensures r == Optimum(0.0, 0.0) || exists i :: 0 <= i < n && r == Optimum(offsets[i], values[i])
    decreases n
  {
    if n == 0 then Optimum(0.0, 0.0)
    else
      var best := FirstMax(offsets, values, n - 1);
      if values[n - 1] > best.avgLatD then Optimum(offsets[n - 1], values[n - 1]) else best
  }

  /** What the first-max rule keeps: a value no trial exceeds and that is not
      below 0; the starting (0, 0) when no trial is positive; otherwise the
      first trial reaching that value, every earlier trial being strictly below. */
  lemma {:induction false} FirstMaxFacts(offsets: seq<real>, values: seq<real>, n: nat)
    requires |offsets| == |values| && n <= |values|
    ensures var r := FirstMax(offsets, values, n);
      r.avgLatD >= 0.0 && (forall i :: 0 <= i < n ==> values[i] <= r.avgLatD)
    ensures (forall i :: 0 <= i < n ==> values[i] <= 0.0) ==> FirstMax(offsets, values, n) == Optimum(0.0, 0.0)
    ensures (exists i :: 0 <= i < n && values[i] > 0.0) ==>
      exists i :: 0 <= i < n && FirstMax(offsets, values, n) == Optimum(offsets[i], values[i]) &&
                  values[i] > 0.0 && forall j :: 0 <= j < i ==> values[j] < values[i]
    decreases n
  {
    if n > 0 {
      FirstMaxFacts(offsets, values, n - 1);
      var best := FirstMax(offsets, values, n - 1);
      if values[n - 1] > best.avgLatD {
        assert forall j :: 0 <= j < n - 1 ==> values[j] < values[n - 1];
      } else if exists i :: 0 <= i < n && values[i] > 0.0 {
        assert exists i :: 0 <= i < n - 1 && values[i] > 0.0;
      }
    }
  }

  /** One more trial: the best moves to it exactly when it is strictly greater. */
  lemma FirstMaxStep(offsets: seq<real>, values: seq<real>, j: nat, best: Optimum, x: real, v: real)
    requires |offsets| == |values| && j < |values|
    requires best == FirstMax(offsets, values, j) && x == offsets[j] && v == values[j]
    ensures FirstMax(offsets, values, j + 1) == if v > best.avgLatD then Optimum(x, v) else best
  {
  }

  /** The lines 311-340 of the script: for every offset, both axles evaluated
      with that offset added to all four cambers, each axle's best kept by the
      first-max rule. */
  method Sweep(m: Maths, latGTelem: seq<real>, FL_tyreLoad: seq<real>, FR_tyreLoad: seq<real>,
               RL_tyreLoad: seq<real>, RR_tyreLoad: seq<real>, FL_camberDeg: seq<real>, FR_camberDeg: seq<real>,
               RL_camberDeg: seq<real>, RR_camberDeg: seq<real>)
    returns (front_bestCamberOffset: real, front_bestAvgLatD: real, rear_bestCamberOffset: real, rear_bestAvgLatD: real)
    requires |FL_tyreLoad| == |FR_tyreLoad| == |RL_tyreLoad| == |RR_tyreLoad| == |latGTelem|
    requires |FL_camberDeg| == |FR_camberDeg| == |RL_camberDeg| == |RR_camberDeg| == |latGTelem|
    requires SweepDefined(m, FrontTyre, AxleTelemetry(latGTelem, FL_tyreLoad, FR_tyreLoad, FL_camberDeg, FR_camberDeg))
    requires SweepDefined(m, RearTyre, AxleTelemetry(latGTelem, RL_tyreLoad, RR_tyreLoad, RL_camberDeg, RR_camberDeg))
    ensures Optimum(front_bestCamberOffset, front_bestAvgLatD)
         == FirstMax(SweepOffsets(), SweepValues(m, FrontTyre, AxleTelemetry(latGTelem, FL_tyreLoad, FR_tyreLoad, FL_camberDeg, FR_camberDeg)), SweepCount)
    ensures Optimum(rear_bestCamberOffset, rear_bestAvgLatD)
         == FirstMax(SweepOffsets(), SweepValues(m, RearTyre, AxleTelemetry(latGTelem, RL_tyreLoad, RR_tyreLoad, RL_camberDeg, RR_camberDeg)), SweepCount)
  {
    var front := AxleTelemetry(latGTelem, FL_tyreLoad, FR_tyreLoad, FL_camberDeg, FR_camberDeg);
    var rear := AxleTelemetry(latGTelem, RL_tyreLoad, RR_tyreLoad, RL_camberDeg, RR_camberDeg);
    ghost var frontValues := SweepValues(m, FrontTyre, front);
    ghost var rearValues := SweepValues(m, RearTyre, rear);
    front_bestCamberOffset, front_bestAvgLatD := 0.0, 0.0;
    rear_bestCamberOffset, rear_bestAvgLatD := 0.0, 0.0;
    var camberOffsetMax := 5.0;
    var camberOffsetStep := 0.1;
    var camberOffset := -5.0;
    ghost var j: nat := 0;
    while camberOffset < camberOffsetMax + camberOffsetStep
      invariant j <= SweepCount && camberOffset == SweepOffset(j)
      invariant Optimum(front_bestCamberOffset, front_bestAvgLatD) == FirstMax(SweepOffsets(), frontValues, j)
      invariant Optimum(rear_bestCamberOffset, rear_bestAvgLatD) == FirstMax(SweepOffsets(), rearValues, j)
      decreases SweepCount - j
    {
      SweepGuard(j);
      front_bestCamberOffset, front_bestAvgLatD, rear_bestCamberOffset, rear_bestAvgLatD :=
        SweepStep(m, front, rear, j, camberOffset, front_bestCamberOffset, front_bestAvgLatD,
                  rear_bestCamberOffset, rear_bestAvgLatD, frontValues, rearValues);
      NextSweepOffset(j, camberOffset, camberOffsetStep);
      camberOffset := RoundToTenth(camberOffset + camberOffsetStep);
      j := j + 1;
    }
    SweepGuard(j);
    assert j == SweepCount;
  }

  /** One pass of the sweep: both axles at the j-th offset, each best moved to
      its trial when the trial is strictly greater. */
  method SweepStep(m: Maths, front: AxleTelemetry, rear: AxleTelemetry, ghost j: nat, camberOffset: real,
                   front_bestCamberOffset: real, front_bestAvgLatD: real, rear_bestCamberOffset: real, rear_bestAvgLatD: real,
                   ghost frontValues: seq<real>, ghost rearValues: seq<real>)
    returns (frontOffset: real, frontAvgLatD: real, rearOffset: real, rearAvgLatD: real)
    requires front.WellFormed() && rear.WellFormed()
    requires SweepDefined(m, FrontTyre, front) && SweepDefined(m, RearTyre, rear)
    requires frontValues == SweepValues(m, FrontTyre, front) && rearValues == SweepValues(m, RearTyre, rear)
    requires j < SweepCount && camberOffset == SweepOffset(j)
    requires Optimum(front_bestCamberOffset, front_bestAvgLatD) == FirstMax(SweepOffsets(), frontValues, j)
    requires Optimum(rear_bestCamberOffset, rear_bestAvgLatD) == FirstMax(SweepOffsets(), rearValues, j)
    ensures Optimum(frontOffset, frontAvgLatD) == FirstMax(SweepOffsets(), frontValues, j + 1)
    ensures Optimum(rearOffset, rearAvgLatD) == FirstMax(SweepOffsets(), rearValues, j + 1)
  {
    var frontAxleAvgLatDTrial := TrialAxle(m, FrontTyre, front, front.latG, front.leftFz, front.leftCamberDeg,
                                           front.rightFz, front.rightCamberDeg, j, camberOffset);
    var rearAxleAvgLatDTrial := TrialAxle(m, RearTyre, rear, rear.latG, rear.leftFz, rear.leftCamberDeg,
                                          rear.rightFz, rear.rightCamberDeg, j, camberOffset);
    FirstMaxStep(SweepOffsets(), frontValues, j, Optimum(front_bestCamberOffset, front_bestAvgLatD),
                 camberOffset, frontAxleAvgLatDTrial);
    FirstMaxStep(SweepOffsets(), rearValues, j, Optimum(rear_bestCamberOffset, rear_bestAvgLatD),
                 camberOffset, rearAxleAvgLatDTrial);
    frontOffset, frontAvgLatD := front_bestCamberOffset, front_bestAvgLatD;
    rearOffset, rearAvgLatD := rear_bestCamberOffset, rear_bestAvgLatD;
    if frontAxleAvgLatDTrial > front_bestAvgLatD {
      frontOffset := camberOffset;
      frontAvgLatD := frontAxleAvgLatDTrial;
    }
    if rearAxleAvgLatDTrial > rear_bestAvgLatD {
      rearOffset := camberOffset;
      rearAvgLatD := rearAxleAvgLatDTrial;
    }
  }

  /** One axle at one offset of the sweep: the four trial camber lists are the
      telemetry moved by the offset, and the axle function reads them. */
  method TrialAxle(m: Maths, t: Tyre, ghost a: AxleTelemetry, latG: seq<real>, leftFz: seq<real>, leftCamberDeg: seq<real>,
                   rightFz: seq<real>, rightCamberDeg: seq<real>, ghost j: nat, camberOffset: real) returns (avg: real)
    requires a == AxleTelemetry(latG, leftFz, rightFz, leftCamberDeg, rightCamberDeg) && a.WellFormed()
    requires SweepDefined(m, t, a) && j < SweepCount && camberOffset == SweepOffset(j)
    ensures avg == SweepValues(m, t, a)[j]
  {
    var leftCamberDegTrial := Shift(leftCamberDeg, camberOffset);
    var rightCamberDegTrial := Shift(rightCamberDeg, camberOffset);
    OffsetsCommute(m, t, a, camberOffset, camberOffset);
    assert AxleOf(latG, leftFz, leftCamberDegTrial, rightFz, rightCamberDegTrial) == a.WithOffsets(camberOffset, camberOffset);
    avg := AxleLoop(m, t, latG, leftFz, leftCamberDegTrial, rightFz, rightCamberDegTrial);
  }

  /** The camber the car already runs (offset 0) is among the trials, so the
      sweep never reports less grip than the unmodified telemetry gives. */
  lemma SweepNoWorse(m: Maths, t: Tyre, a: AxleTelemetry)
    requires SweepDefined(m, t, a)
    ensures AxleDefined(m, t, a, 0.0, 0.0)
    ensures FirstMax(SweepOffsets(), SweepValues(m, t, a), SweepCount).avgLatD >= AxleAvgLatD(m, t, a, 0.0, 0.0)
  {
    assert SweepOffset(50) == 0.0;
    FirstMaxFacts(SweepOffsets(), SweepValues(m, t, a), SweepCount);
  }

  /** The same offset on all four corners: each trial of the sweep is the
      symmetric evaluation Car.frontAxleAvgLatD(x, x) or rearAxleAvgLatD(x, x)
      of the class form. */
  lemma SweepIsSymmetric(m: Maths, t: Tyre, a: AxleTelemetry, j: nat)
    requires SweepDefined(m, t, a) && j < SweepCount
    ensures Defined(Objective(m, t, a, Symmetric), SweepOffset(j))
    ensures SweepValues(m, t, a)[j] == Value(Objective(m, t, a, Symmetric), SweepOffset(j))
  {
  }
}
