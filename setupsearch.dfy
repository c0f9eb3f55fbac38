/** What Car.optimiseAeroRHTelem (car.py) searches and keeps: the setups it
    visits, in order; the ones whose speed-weighted aero balance is inside the
    band; and, among those, the first setup with the most lift, the least drag
    and the best efficiency, against the starting marks -999, 999 and -999. */
module SetupSearch {
  import opened Numeric
  import opened Geometry
  import opened Aero
  import opened Lattice

  /** Ride-height offsets step by one millimetre. */
  const OffsetStep: real := 0.001

  /** [frontRHOffset, rearRHOffset, wingAngles], offsets in metres. */
  datatype Setup = Setup(frontRHOffset: real, rearRHOffset: real, wingAngles: seq<Option<real>>)

  /** Everything that fixes the value of a setup: the car data, the default
      angles, the speed weighting and the ride-height and speed telemetry. The
      wings' own angles do not matter: every setup sets all of them. */
  datatype Search = Search(
    m: Maths,
    chassis: Chassis,
    wings: seq<Wing>,
    defaults: seq<real>,
    velocityPower: real,
    frontRH: seq<real>,
    rearRH: seq<real>,
    groundSpeed: seq<real>)

  /** The starting setup [0, 0, defaultWingAngles]. */
  function Baseline(ctx: Search): (s: Setup)
    ensures s.frontRHOffset == 0.0 && s.rearRHOffset == 0.0 && |s.wingAngles| == |ctx.defaults|
  {
    Setup(0.0, 0.0, Explicit(ctx.defaults))
  }

  /** Telemetry shifted by a ride-height offset. */
  function Shifted(s: seq<real>, offset: real): (r: seq<real>)
    ensures |r| == |s|
    ensures forall i :: 0 <= i < |r| ==> r[i] == s[i] + offset
  {
    seq(|s|, i requires 0 <= i < |s| => s[i] + offset)
  }

  /** The wings as setWingAngles leaves them for a wing configuration. */
  function ConfigWings(ctx: Search, config: seq<Option<real>>): (r: seq<Wing>)
    requires |ctx.wings| == |ctx.defaults| == |config|
    ensures Angles(r) == ResolveAngles(ctx.defaults, config)
  {
    AnglesOfWithAngles(ctx.wings, ResolveAngles(ctx.defaults, config));
    WithAngles(ctx.wings, ResolveAngles(ctx.defaults, config))
  }

  /** The setup can be set and its weighted average computed without dividing
      by zero. */
  predicate Evaluable(ctx: Search, s: Setup) {
    WingsValid(ctx.wings) && ctx.chassis.wheelbase != 0.0 &&
    |ctx.wings| == |ctx.defaults| == |s.wingAngles| &&
    (WithAnglesValid(ctx.wings, ResolveAngles(ctx.defaults, s.wingAngles));
     TelemetryAveraged(ctx.m, ctx.chassis, ConfigWings(ctx, s.wingAngles), ctx.velocityPower,
                       Shifted(ctx.frontRH, s.frontRHOffset), Shifted(ctx.rearRH, s.rearRHOffset), ctx.groundSpeed))
  }

  /** The weighted aero numbers of a setup, as calculateAeroRHTelem returns them. */
  function Evaluate(ctx: Search, s: Setup): (r: Option<AeroNumbers>)
    ensures r.Some? <==> Evaluable(ctx, s)
  {
    if Evaluable(ctx, s) then
      WithAnglesValid(ctx.wings, ResolveAngles(ctx.defaults, s.wingAngles));
      Some(TelemAverage(ctx.m, ctx.chassis, ConfigWings(ctx, s.wingAngles), ctx.velocityPower,
                        Shifted(ctx.frontRH, s.frontRHOffset), Shifted(ctx.rearRH, s.rearRHOffset), ctx.groundSpeed))
    else None
  }

  /** The evaluation of every setup against one search. */
  function Evaluator(ctx: Search): Setup -> Option<AeroNumbers> {
    s => Evaluate(ctx, s)
  }

  // ---------------------------------------------------------------- the sweep

  /** The front offsets for one rear offset and one wing configuration. */
  function Row(frontMin: real, frontCount: nat, rearOffset: real, config: seq<Option<real>>): (r: seq<Setup>)
    ensures |r| == frontCount
    ensures forall i :: 0 <= i < frontCount ==> r[i] == Setup(Point(frontMin, OffsetStep, i), rearOffset, config)
  {
    seq(frontCount, i requires 0 <= i < frontCount => Setup(Point(frontMin, OffsetStep, i), rearOffset, config))
  }

  /** All offsets for one wing configuration, rear offset outermost. */
  function Block(frontMin: real, frontCount: nat, rearMin: real, rearCount: nat, config: seq<Option<real>>): seq<Setup>
    decreases rearCount
  {
    if rearCount == 0 then []
    else Block(frontMin, frontCount, rearMin, rearCount - 1, config)
         + Row(frontMin, frontCount, Point(rearMin, OffsetStep, rearCount - 1), config)
  }

  /** Every setup in the order the loops visit them: wing configuration, then
      rear offset, then front offset. */
  function Sweep(frontMin: real, frontCount: nat, rearMin: real, rearCount: nat, configs: seq<seq<Option<real>>>): seq<Setup>
    decreases |configs|
  {
    if |configs| == 0 then []
    else Sweep(frontMin, frontCount, rearMin, rearCount, configs[..|configs| - 1])
         + Block(frontMin, frontCount, rearMin, rearCount, configs[|configs| - 1])
  }

  lemma {:induction false} BlockAt(frontMin: real, frontCount: nat, rearMin: real, rearCount: nat, config: seq<Option<real>>, r: nat, f: nat)
    requires r < rearCount && f < frontCount
    ensures |Block(frontMin, frontCount, rearMin, rearCount, config)| == rearCount * frontCount
    ensures r * frontCount + f < rearCount * frontCount
    ensures Block(frontMin, frontCount, rearMin, rearCount, config)[r * frontCount + f]
            == Setup(Point(frontMin, OffsetStep, f), Point(rearMin, OffsetStep, r), config)
    decreases rearCount
  {
    BlockLength(frontMin, frontCount, rearMin, rearCount, config);
    var n := rearCount - 1;
    IndexInGrid(r, f, rearCount, frontCount);
    var before := Block(frontMin, frontCount, rearMin, n, config);
    BlockLength(frontMin, frontCount, rearMin, n, config);
    if r < n {
      BlockAt(frontMin, frontCount, rearMin, n, config, r, f);
      IndexInGrid(r, f, n, frontCount);
    } else {
      assert r * frontCount + f - |before| == f;
    }
  }

  lemma {:induction false} BlockLength(frontMin: real, frontCount: nat, rearMin: real, rearCount: nat, config: seq<Option<real>>)
    ensures |Block(frontMin, frontCount, rearMin, rearCount, config)| == rearCount * frontCount
    decreases rearCount
  {
    if rearCount > 0 {
      BlockLength(frontMin, frontCount, rearMin, rearCount - 1, config);
      assert (rearCount - 1) * frontCount + frontCount == rearCount * frontCount;
    }
  }

  lemma IndexInGrid(r: nat, f: nat, rows: nat, cols: nat)
    requires r < rows && f < cols
    ensures r * cols + f < rows * cols
  {
    assert r * cols + f < r * cols + cols == (r + 1) * cols;
    assert (r + 1) * cols <= rows * cols;
  }

  lemma {:induction false} SweepLength(frontMin: real, frontCount: nat, rearMin: real, rearCount: nat, configs: seq<seq<Option<real>>>)
    ensures |Sweep(frontMin, frontCount, rearMin, rearCount, configs)| == |configs| * (rearCount * frontCount)
    decreases |configs|
  {
    if |configs| > 0 {
      var n := |configs| - 1;
      SweepLength(frontMin, frontCount, rearMin, rearCount, configs[..n]);
      BlockLength(frontMin, frontCount, rearMin, rearCount, configs[n]);
      assert n * (rearCount * frontCount) + rearCount * frontCount == |configs| * (rearCount * frontCount);
    }
  }

  /** The sweep holds |configs| * rearCount * frontCount setups, and the one at
      position (c * rearCount + r) * frontCount + f pairs the f-th front offset
      and the r-th rear offset with the c-th configuration. */
  lemma {:induction false} SweepAt(frontMin: real, frontCount: nat, rearMin: real, rearCount: nat, configs: seq<seq<Option<real>>>, c: nat, r: nat, f: nat)
    requires c < |configs| && r < rearCount && f < frontCount
    ensures |Sweep(frontMin, frontCount, rearMin, rearCount, configs)| == |configs| * (rearCount * frontCount)
    ensures c * (rearCount * frontCount) + r * frontCount + f < |configs| * (rearCount * frontCount)
    ensures Sweep(frontMin, frontCount, rearMin, rearCount, configs)[c * (rearCount * frontCount) + r * frontCount + f]
            == Setup(Point(frontMin, OffsetStep, f), Point(rearMin, OffsetStep, r), configs[c])
    decreases |configs|
  {
    SweepLength(frontMin, frontCount, rearMin, rearCount, configs);
    var n := |configs| - 1;
    var size := rearCount * frontCount;
    BlockAt(frontMin, frontCount, rearMin, rearCount, configs[c], r, f);
    IndexInGrid(c, r * frontCount + f, |configs|, size);
    var before := Sweep(frontMin, frontCount, rearMin, rearCount, configs[..n]);
    SweepLength(frontMin, frontCount, rearMin, rearCount, configs[..n]);
    if c < n {
      SweepAt(frontMin, frontCount, rearMin, rearCount, configs[..n], c, r, f);
      IndexInGrid(c, r * frontCount + f, n, size);
    } else {
      assert |before| == c * size;
    }
  }

  /** Every setup of a configuration that setWingAngles accepts can be
      evaluated; the search divides by nothing that is zero. */
  predicate SweepEvaluable(ctx: Search, frontMin: real, frontCount: nat, rearMin: real, rearCount: nat, configs: seq<seq<Option<real>>>) {
    forall c, r: nat, f: nat :: 0 <= c < |configs| && r < rearCount && f < frontCount && |configs[c]| == |ctx.wings| ==>
      Evaluable(ctx, Setup(Point(frontMin, OffsetStep, f), Point(rearMin, OffsetStep, r), configs[c]))
  }

  // ------------------------------------------------------- the valid setups
  //
  // What follows depends on a setup only through its evaluation ev(s): the
  // weighted aero numbers, or None where they cannot be computed.

  /** The weighted aero balance is within the band [target - tolerance, target + tolerance]. */
  predicate InBand(ev: Setup -> Option<AeroNumbers>, target: real, tolerance: real, s: Setup) {
    var e := ev(s);
    e.Some? && target - tolerance <= e.value.aeroBalance <= target + tolerance
  }

  /** The setups inside the band, in the order visited. */
  function Filter(ev: Setup -> Option<AeroNumbers>, target: real, tolerance: real, ss: seq<Setup>): seq<Setup>
    decreases |ss|
  {
    if |ss| == 0 then []
    else Filter(ev, target, tolerance, ss[..|ss| - 1])
         + (if InBand(ev, target, tolerance, ss[|ss| - 1]) then [ss[|ss| - 1]] else [])
  }

  /** Visiting one more setup keeps it when it is inside the band. */
  lemma FilterStep(ev: Setup -> Option<AeroNumbers>, target: real, tolerance: real, ss: seq<Setup>, s: Setup)
    ensures Filter(ev, target, tolerance, ss + [s])
         == Filter(ev, target, tolerance, ss) + (if InBand(ev, target, tolerance, s) then [s] else [])
  {
    assert (ss + [s])[..|ss|] == ss;
  }

  /** A setup is kept exactly when it was visited and is inside the band. */
  lemma {:induction false} FilterKeeps(ev: Setup -> Option<AeroNumbers>, target: real, tolerance: real, ss: seq<Setup>, s: Setup)
    ensures s in Filter(ev, target, tolerance, ss) <==> s in ss && InBand(ev, target, tolerance, s)
    decreases |ss|
  {
    if |ss| > 0 {
      var n := |ss| - 1;
      FilterKeeps(ev, target, tolerance, ss[..n], s);
      assert ss == ss[..n] + [ss[n]];
    }
  }

  /** Every kept setup is inside the band. */
  lemma {:induction false} FilterInBand(ev: Setup -> Option<AeroNumbers>, target: real, tolerance: real, ss: seq<Setup>)
    ensures forall i :: 0 <= i < |Filter(ev, target, tolerance, ss)| ==>
      InBand(ev, target, tolerance, Filter(ev, target, tolerance, ss)[i])
    decreases |ss|
  {
    if |ss| > 0 {
      FilterInBand(ev, target, tolerance, ss[..|ss| - 1]);
    }
  }

  /** The kept setups of a sweep split as the sweep does, so they come in the
      order visited. */
  lemma {:induction false} FilterConcat(ev: Setup -> Option<AeroNumbers>, target: real, tolerance: real, a: seq<Setup>, b: seq<Setup>)
    ensures Filter(ev, target, tolerance, a + b) == Filter(ev, target, tolerance, a) + Filter(ev, target, tolerance, b)
    decreases |b|
  {
    if |b| == 0 {
      assert a + b == a;
    } else {
      var n := |b| - 1;
      assert (a + b)[..|a + b| - 1] == a + b[..n];
      FilterConcat(ev, target, tolerance, a, b[..n]);
    }
  }

  // ---------------------------------------------------------- best setups

  /** The three setups tracked while searching. */
  datatype Goal = MaxLift | MinDrag | MaxEfficiency {
    /** The weighted number the goal compares. */
    function Metric(): (k: nat)
      ensures k < 6
    {
      match this
      case MaxLift => 2
      case MinDrag => 3
      case MaxEfficiency => 4
    }

    /** The starting mark: -999 for a maximum, 999 for the minimum. */
    function Start(): real {
      if this == MinDrag then 999.0 else -999.0
    }

    /** The strict comparison the search updates on. */
    predicate Beats(x: real, y: real) {
      if this == MinDrag then x < y else x > y
    }
  }

  /** The goal's number for a setup; 0 for a setup that cannot be evaluated,
      which the band excludes. */
  function Score(ev: Setup -> Option<AeroNumbers>, goal: Goal, s: Setup): real {
    var e := ev(s);
    if e.Some? then e.value.Get(goal.Metric()) else 0.0
  }

  /** The goal's number for each valid setup, in order. */
  function Scores(ev: Setup -> Option<AeroNumbers>, goal: Goal, valid: seq<Setup>): (r: seq<real>)
    ensures |r| == |valid|
    ensures forall j :: 0 <= j < |r| ==> r[j] == Score(ev, goal, valid[j])
  {
    seq(|valid|, j requires 0 <= j < |valid| => Score(ev, goal, valid[j]))
  }

  /** Where the best setup so far sits among the valid setups' scores: -1 while
      the starting mark stands, otherwise the index of the score that last beat
      the running best. */
  function BestIndex(goal: Goal, scores: seq<real>): (i: int)
    ensures -1 <= i < |scores|
    decreases |scores|
  {
    if |scores| == 0 then -1
    else
      var n := |scores| - 1;
      var i := BestIndex(goal, scores[..n]);
      if goal.Beats(scores[n], BestValue(goal, scores[..n], i)) then n else i
  }

  /** The running best value for a best index. */
  function BestValue(goal: Goal, scores: seq<real>, i: int): real
    requires -1 <= i < |scores|
  {
    if i < 0 then goal.Start() else scores[i]
  }

  /** The running best value of a goal over the valid setups. */
  function Best(ev: Setup -> Option<AeroNumbers>, goal: Goal, valid: seq<Setup>): (v: real)
    ensures v == goal.Start() || exists j :: 0 <= j < |valid| && v == Score(ev, goal, valid[j])
  {
    var sc := Scores(ev, goal, valid);
    BestValue(goal, sc, BestIndex(goal, sc))
  }

  /** The best setup the search reports: the baseline while the mark stands. */
  function BestSetup(ev: Setup -> Option<AeroNumbers>, baseline: Setup, goal: Goal, valid: seq<Setup>): (s: Setup)
    ensures s == baseline || s in valid
  {
    var i := BestIndex(goal, Scores(ev, goal, valid));
    if i < 0 then baseline else valid[i]
  }

  /** No score beats the reported best, the reported best beats the starting
      mark, and it beats every score found before it: ties go to the first
      one found. */
  lemma {:induction false} BestIsFirstOptimum(goal: Goal, scores: seq<real>)
    ensures var i := BestIndex(goal, scores);
      var v := BestValue(goal, scores, i);
      (forall j :: 0 <= j < |scores| ==> !goal.Beats(scores[j], v)) &&
      (i >= 0 ==> goal.Beats(v, goal.Start())) &&
      (i >= 0 ==> forall j :: 0 <= j < i ==> goal.Beats(v, scores[j]))
    decreases |scores|
  {
    if |scores| > 0 {
      var n := |scores| - 1;
      var p := scores[..n];
      BestIsFirstOptimum(goal, p);
      var i0 := BestIndex(goal, p);
      var v0 := BestValue(goal, p, i0);
      var i := BestIndex(goal, scores);
      var v := BestValue(goal, scores, i);
      assert forall j :: 0 <= j < n ==> scores[j] == p[j];
      if i == n {
        assert goal.Beats(v, v0);
      } else {
        assert i == i0 && v == v0;
      }
    }
  }

  /** One more valid setup replaces the running best exactly when its score
      beats the running best strictly. */
  lemma BestStep(ev: Setup -> Option<AeroNumbers>, baseline: Setup, goal: Goal, valid: seq<Setup>, s: Setup)
    ensures var v := Best(ev, goal, valid);
      (goal.Beats(Score(ev, goal, s), v) ==>
         Best(ev, goal, valid + [s]) == Score(ev, goal, s) && BestSetup(ev, baseline, goal, valid + [s]) == s) &&
      (!goal.Beats(Score(ev, goal, s), v) ==>
         Best(ev, goal, valid + [s]) == v && BestSetup(ev, baseline, goal, valid + [s]) == BestSetup(ev, baseline, goal, valid))
  {
    var sc := Scores(ev, goal, valid);
    var sc' := Scores(ev, goal, valid + [s]);
    assert sc'[..|valid|] == sc;
  }

  /** With no valid setup all three bests stay the baseline. */
  lemma NoValidSetupKeepsBaseline(ev: Setup -> Option<AeroNumbers>, baseline: Setup, goal: Goal)
    ensures BestSetup(ev, baseline, goal, []) == baseline
  {
  }

  // ------------------------------------------------------ the running state

  /** What the search holds between two setups: the valid setups so far and,
      per goal, the running best value and its setup. */
  datatype Progress = Progress(
    validSetups: seq<Setup>,
    maxTotalClA: real, maxTotalClASetup: Setup,
    minTotalCdA: real, minTotalCdASetup: Setup,
    maxEfficiency: real, maxEfficiencySetup: Setup)

  /** The state after visiting the setups in order. */
  function ProgressOf(ev: Setup -> Option<AeroNumbers>, baseline: Setup, target: real, tolerance: real,
                      visited: seq<Setup>): (p: Progress)
    ensures p.validSetups == Filter(ev, target, tolerance, visited)
  {
    var v := Filter(ev, target, tolerance, visited);
    Progress(v, Best(ev, MaxLift, v), BestSetup(ev, baseline, MaxLift, v),
             Best(ev, MinDrag, v), BestSetup(ev, baseline, MinDrag, v),
             Best(ev, MaxEfficiency, v), BestSetup(ev, baseline, MaxEfficiency, v))
  }

  /** Before any setup: no valid setups, the marks -999, 999 and -999, and the
      baseline for all three. */
  lemma ProgressStart(ev: Setup -> Option<AeroNumbers>, baseline: Setup, target: real, tolerance: real)
    ensures ProgressOf(ev, baseline, target, tolerance, [])
         == Progress([], -999.0, baseline, 999.0, baseline, -999.0, baseline)
  {
  }

  /** Visiting one more setup: outside the band nothing changes; inside it the
      setup is appended to the valid setups and replaces each running best it
      beats strictly. */
  lemma ProgressStep(ev: Setup -> Option<AeroNumbers>, baseline: Setup, target: real, tolerance: real,
                     visited: seq<Setup>, s: Setup)
    requires ev(s).Some?
    ensures var p := ProgressOf(ev, baseline, target, tolerance, visited);
      var e := ev(s).value;
      ProgressOf(ev, baseline, target, tolerance, visited + [s]) ==
        if target - tolerance <= e.aeroBalance <= target + tolerance then
          Progress(p.validSetups + [s],
                   if e.totalClA > p.maxTotalClA then e.totalClA else p.maxTotalClA,
                   if e.totalClA > p.maxTotalClA then s else p.maxTotalClASetup,
                   if e.totalCdA < p.minTotalCdA then e.totalCdA else p.minTotalCdA,
                   if e.totalCdA < p.minTotalCdA then s else p.minTotalCdASetup,
                   if e.efficiency > p.maxEfficiency then e.efficiency else p.maxEfficiency,
                   if e.efficiency > p.maxEfficiency then s else p.maxEfficiencySetup)
        else p
  {
    var v := Filter(ev, target, tolerance, visited);
    var e := ev(s).value;
    FilterStep(ev, target, tolerance, visited, s);
    if InBand(ev, target, tolerance, s) {
      assert Filter(ev, target, tolerance, visited + [s]) == v + [s];
      assert Score(ev, MaxLift, s) == e.totalClA;
      assert Score(ev, MinDrag, s) == e.totalCdA;
      assert Score(ev, MaxEfficiency, s) == e.efficiency;
      BestStep(ev, baseline, MaxLift, v, s);
      BestStep(ev, baseline, MinDrag, v, s);
      BestStep(ev, baseline, MaxEfficiency, v, s);
    } else {
      assert Filter(ev, target, tolerance, visited + [s]) == v + [];
      assert v + [] == v;
    }
  }

  /** One more front offset extends a row, after whatever was visited before
      it, by one setup. */
  lemma RowStep(visited: seq<Setup>, frontMin: real, frontCount: nat, rearOffset: real, config: seq<Option<real>>)
    ensures visited + Row(frontMin, frontCount + 1, rearOffset, config)
         == visited + Row(frontMin, frontCount, rearOffset, config) + [Setup(Point(frontMin, OffsetStep, frontCount), rearOffset, config)]
  {
    assert Row(frontMin, frontCount + 1, rearOffset, config)
        == Row(frontMin, frontCount, rearOffset, config) + [Setup(Point(frontMin, OffsetStep, frontCount), rearOffset, config)];
  }

  /** One more rear offset extends a block, after whatever was visited before
      it, by one row. */
  lemma BlockStep(visited: seq<Setup>, frontMin: real, frontCount: nat, rearMin: real, rearCount: nat, config: seq<Option<real>>)
    ensures visited + Block(frontMin, frontCount, rearMin, rearCount + 1, config)
         == visited + Block(frontMin, frontCount, rearMin, rearCount, config)
            + Row(frontMin, frontCount, Point(rearMin, OffsetStep, rearCount), config)
  {
  }
}
