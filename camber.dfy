/** The camber optimiser of AssettoCorsaCamberOptimiser/car.py: a car holding
    its two tyres and the lateral-G-filtered telemetry, the axle grip averages
    at trial camber offsets, and the greedy searches that walk the camber
    offset in steps of camberStep, first one step up and then on in whichever
    direction improved, until the grip stops improving. */
module Camber {
  import opened Numeric
  import opened Grip

  /** A camber offset and the axle average lateral D it gives. */
  datatype Optimum = Optimum(offset: real, avgLatD: real)

  /** The k-th offset of the walk: k * camberStep, negative k below zero.
      (The source rounds each offset to 10 decimals to undo float drift.) */
  function Trial(step: real, k: int): real {
    (k as real) * step
  }

  /** The loop guard's limit: upward walks (dir 1) stop above maxOffset,
      downward walks (dir -1) below minOffset. */
  predicate Within(dir: int, minOffset: real, maxOffset: real, x: real) {
    if dir > 0 then x <= maxOffset else x >= minOffset
  }

  /** The objective can be evaluated at every offset a search may try: zero and
      every k * step within the limits. */
  ghost predicate Tries(f: real --> real, step: real, minOffset: real, maxOffset: real) {
    f.requires(0.0) &&
    forall k: int :: (k >= 1 && Trial(step, k) <= maxOffset) || (k <= -1 && Trial(step, k) >= minOffset) ==>
      f.requires(Trial(step, k))
  }

  /** Step j is at or beyond step k in the walk's direction. */
  predicate Beyond(dir: int, j: int, k: int) {
    if dir > 0 then j >= k else j <= k
  }

  /** How many more steps the walk can take before it leaves the limits. */
  function StepsLeft(dir: int, step: real, minOffset: real, maxOffset: real, k: int): int
    requires step > 0.0
  {
    if dir > 0 then (maxOffset / step).Floor - k else k + (-minOffset / step).Floor
  }

  /** An offset within the limits leaves a non-negative number of steps. */
  lemma WithinBound(dir: int, step: real, minOffset: real, maxOffset: real, k: int)
    requires step > 0.0 && (dir == 1 || dir == -1)
    requires Within(dir, minOffset, maxOffset, Trial(step, k))
    ensures StepsLeft(dir, step, minOffset, maxOffset, k) >= 0
  {
    if dir > 0 {
      assert (k as real) * step <= (maxOffset / step) * step;
      assert (k as real) <= maxOffset / step;
    } else {
      assert (-k as real) * step <= (-minOffset / step) * step;
      assert (-k as real) <= -minOffset / step;
    }
  }

  /** The first trial: the grip one step up when maxOffset allows that step,
      otherwise the 0 the source initialises it with. */
  function FirstTrial(f: real --> real, step: real, minOffset: real, maxOffset: real): real
    requires step > 0.0 && Tries(f, step, minOffset, maxOffset)
  {
    if Trial(step, 1) <= maxOffset then f(Trial(step, 1)) else 0.0
  }

  /** What the walk's while loop returns from its current state: it goes on
      while the next offset is within the limits and the last trial beat the
      one before it, and keeps the first offset of the highest grip. */
  function Climb(f: real --> real, step: real, minOffset: real, maxOffset: real, dir: int, k: int,
                 trial: real, prev: real, best: Optimum): Optimum
    requires step > 0.0 && (dir == 1 || dir == -1) && Beyond(dir, k, dir) && Tries(f, step, minOffset, maxOffset)
    decreases StepsLeft(dir, step, minOffset, maxOffset, k) + 1
  {
    var x := Trial(step, k);
    if Within(dir, minOffset, maxOffset, x) && trial > prev then
      WithinBound(dir, step, minOffset, maxOffset, k);
      var t := f(x);
      Climb(f, step, minOffset, maxOffset, dir, k + dir, t, trial, if t > best.avgLatD then Optimum(x, t) else best)
    else
      best
  }

  /** The whole search for one objective f (the axle grip as a function of the
      offset being searched): the baseline at offset 0, one step up, and then
      the walk upwards if that step improved on the baseline, downwards
      otherwise. */
  function LineSearch(f: real --> real, step: real, minOffset: real, maxOffset: real): (r: Optimum)
    requires step > 0.0 && Tries(f, step, minOffset, maxOffset)
    ensures r.avgLatD >= f(0.0)
  {
    var current := f(0.0);
    var trial := FirstTrial(f, step, minOffset, maxOffset);
    if trial > current then
      ClimbOutcome(f, step, minOffset, maxOffset, 1, 2, trial, 0.0, Optimum(Trial(step, 1), trial));
      Climb(f, step, minOffset, maxOffset, 1, 2, trial, 0.0, Optimum(Trial(step, 1), trial))
    else
      ClimbOutcome(f, step, minOffset, maxOffset, -1, -1, current, 0.0, Optimum(0.0, current));
      Climb(f, step, minOffset, maxOffset, -1, -1, current, 0.0, Optimum(0.0, current))
  }

  lemma TrialNext(step: real, j: int, dir: int)
    requires dir == 1 || dir == -1
    ensures Trial(step, j + dir) == Trial(step, j) + (if dir > 0 then step else -step)
  {
  }

  /** One step of the walk: within the limits and still improving, it moves
      on to the next offset with the grip t measured at this one. */
  lemma ClimbStep(f: real --> real, step: real, minOffset: real, maxOffset: real, dir: int, k: int,
                  trial: real, prev: real, best: Optimum, t: real)
    requires step > 0.0 && (dir == 1 || dir == -1) && Beyond(dir, k, dir) && Tries(f, step, minOffset, maxOffset)
    requires Within(dir, minOffset, maxOffset, Trial(step, k)) && trial > prev
    requires f.requires(Trial(step, k)) && t == f(Trial(step, k))
    ensures Climb(f, step, minOffset, maxOffset, dir, k, trial, prev, best)
         == Climb(f, step, minOffset, maxOffset, dir, k + dir, t, trial,
                  if t > best.avgLatD then Optimum(Trial(step, k), t) else best)
  {
  }

  /** The walk reached r: r is the offset and grip of some trial on its side of
      zero at or beyond step k, within the limits. */
  ghost predicate Reached(f: real --> real, step: real, minOffset: real, maxOffset: real, dir: int, k: int, r: Optimum)
    requires step > 0.0 && (dir == 1 || dir == -1) && Beyond(dir, k, dir) && Tries(f, step, minOffset, maxOffset)
  {
    exists j: int :: Beyond(dir, j, k) && Within(dir, minOffset, maxOffset, Trial(step, j)) &&
      r.offset == Trial(step, j) && r.avgLatD == f(Trial(step, j))
  }

  /** The walk never loses grip against the best it started with, and ends at
      that best or at a trial it reached. */
  lemma {:induction false} ClimbOutcome(f: real --> real, step: real, minOffset: real, maxOffset: real, dir: int, k: int,
                                        trial: real, prev: real, best: Optimum)
    requires step > 0.0 && (dir == 1 || dir == -1) && Beyond(dir, k, dir) && Tries(f, step, minOffset, maxOffset)
    ensures var r := Climb(f, step, minOffset, maxOffset, dir, k, trial, prev, best);
      r.avgLatD >= best.avgLatD && (r == best || Reached(f, step, minOffset, maxOffset, dir, k, r))
    decreases StepsLeft(dir, step, minOffset, maxOffset, k) + 1
  {
    var x := Trial(step, k);
    if Within(dir, minOffset, maxOffset, x) && trial > prev {
      WithinBound(dir, step, minOffset, maxOffset, k);
      var t := f(x);
      var next := if t > best.avgLatD then Optimum(x, t) else best;
      ClimbOutcome(f, step, minOffset, maxOffset, dir, k + dir, t, trial, next);
      var r := Climb(f, step, minOffset, maxOffset, dir, k + dir, t, trial, next);
      assert r == Climb(f, step, minOffset, maxOffset, dir, k, trial, prev, best);
      if r != best {
        if r == next {
          assert Reached(f, step, minOffset, maxOffset, dir, k, r) by {
            assert Beyond(dir, k, k) && Within(dir, minOffset, maxOffset, Trial(step, k));
          }
        } else {
          var j :| Beyond(dir, j, k + dir) && Within(dir, minOffset, maxOffset, Trial(step, j)) &&
            r.offset == Trial(step, j) && r.avgLatD == f(Trial(step, j));
          assert Beyond(dir, j, k);
        }
      }
    }
  }

  /** The properties a search result has: it never reports less grip than the
      baseline; offset 0 is the baseline itself; it went up exactly when one
      step up beat the baseline; every other result is a trial within the
      limits with the grip measured there, except that when maxOffset is below
      camberStep and the baseline is negative the source reports offset
      camberStep with the untried grip 0; and a baseline of 0 or less never
      starts the downward walk. */
  lemma LineSearchFacts(f: real --> real, step: real, minOffset: real, maxOffset: real)
    requires step > 0.0 && Tries(f, step, minOffset, maxOffset)
    ensures var r := LineSearch(f, step, minOffset, maxOffset);
      r.avgLatD >= f(0.0) &&
      (r.offset == 0.0 ==> r.avgLatD == f(0.0)) &&
      (r.offset > 0.0 <==> FirstTrial(f, step, minOffset, maxOffset) > f(0.0)) &&
      (r.offset > 0.0 && step > maxOffset ==> r == Optimum(step, 0.0)) &&
      (r.offset > 0.0 && step <= maxOffset ==>
         exists j: int :: j >= 1 && Trial(step, j) <= maxOffset && r.offset == Trial(step, j) && r.avgLatD == f(Trial(step, j))) &&
      (r.offset < 0.0 ==>
         exists j: int :: j <= -1 && Trial(step, j) >= minOffset && r.offset == Trial(step, j) && r.avgLatD == f(Trial(step, j)))
    ensures f(0.0) <= 0.0 && FirstTrial(f, step, minOffset, maxOffset) <= f(0.0) ==>
      LineSearch(f, step, minOffset, maxOffset) == Optimum(0.0, f(0.0))
  {
    var current := f(0.0);
    var trial := FirstTrial(f, step, minOffset, maxOffset);
    var r := LineSearch(f, step, minOffset, maxOffset);
    assert Trial(step, 1) == step;
    if trial > current {
      var best := Optimum(Trial(step, 1), trial);
      ClimbOutcome(f, step, minOffset, maxOffset, 1, 2, trial, 0.0, best);
      if step > maxOffset {
        assert Trial(step, 2) > maxOffset;
      } else if r == best {
        assert Within(1, minOffset, maxOffset, Trial(step, 1));
      } else {
        var j :| Beyond(1, j, 2) && Within(1, minOffset, maxOffset, Trial(step, j)) &&
          r.offset == Trial(step, j) && r.avgLatD == f(Trial(step, j));
        assert (j as real) * step > 0.0;
      }
    } else {
      var best := Optimum(0.0, current);
      ClimbOutcome(f, step, minOffset, maxOffset, -1, -1, current, 0.0, best);
      if r != best {
        var j :| Beyond(-1, j, -1) && Within(-1, minOffset, maxOffset, Trial(step, j)) &&
          r.offset == Trial(step, j) && r.avgLatD == f(Trial(step, j));
        assert (-j as real) * step > 0.0;
      }
    }
  }

  /** The printed grip improvement in percent, (best - current) / current * 100
      (the source rounds it to 3 decimals for printing). */
  function ImprovementPercent(best: real, current: real): (r: real)
    requires current != 0.0
    ensures current > 0.0 ==> (r > 0.0 <==> best > current) && (r == 0.0 <==> best == current)
  {
    ImprovementSign(best, current);
    (best - current) / current * 100.0
  }

  lemma ImprovementSign(best: real, current: real)
    requires current > 0.0 || current < 0.0
    ensures current > 0.0 ==> ((best - current) / current * 100.0 > 0.0 <==> best > current)
    ensures current > 0.0 ==> ((best - current) / current * 100.0 == 0.0 <==> best == current)
  {
    var q := (best - current) / current;
    assert q * current == best - current;
    if current > 0.0 && q > 0.0 {
      ProductNonNegative(q, current);
      assert q * current != 0.0;
    }
    if current > 0.0 && best > current {
      NonNegativeFactor(q, current);
      assert q != 0.0;
    }
  }

  // ------------------------------------------------------------ the car

  /** Which axle a search is about. */
  datatype Side = Front | Rear

  /** Which camber offsets a search moves: both tyres together, or one of them
      with the other held at 0. */
  datatype Mode = Symmetric | LeftOnly | RightOnly

  /** The (left, right) camber offsets a search tries at offset x. */
  function Offsets(mode: Mode, x: real): (real, real) {
    match mode
    case Symmetric => (x, x)
    case LeftOnly => (x, 0.0)
    case RightOnly => (0.0, x)
  }

  /** What a search maximises: the grip of axle a on tyre t as a function of
      the searched offset. */
  datatype Objective = Objective(m: Maths, t: Tyre, a: AxleTelemetry, mode: Mode)

  /** The axle grip at searched offset x is defined. */
  predicate Defined(o: Objective, x: real) {
    AxleDefined(o.m, o.t, o.a, Offsets(o.mode, x).0, Offsets(o.mode, x).1)
  }

  /** The axle grip at searched offset x. */
  function Value(o: Objective, x: real): real
    requires Defined(o, x)
  {
    AxleAvgLatD(o.m, o.t, o.a, Offsets(o.mode, x).0, Offsets(o.mode, x).1)
  }

  /** The objective as the function a search walks. */
  ghost function Curve(o: Objective): real --> real {
    x requires Defined(o, x) => Value(o, x)
  }

  /** The axle grip is defined at every offset a search may try. */
  ghost predicate Searchable(o: Objective, step: real, minOffset: real, maxOffset: real) {
    Tries(Curve(o), step, minOffset, maxOffset) && Defined(o, 0.0) &&
    forall k: int :: (k >= 1 && Trial(step, k) <= maxOffset) || (k <= -1 && Trial(step, k) >= minOffset) ==>
      Defined(o, Trial(step, k))
  }

  lemma CurveValue(o: Objective, x: real)
    requires Defined(o, x)
    ensures Curve(o).requires(x) && Curve(o)(x) == Value(o, x)
  {
  }

  class CamberCar {
    /** The Tyre built from the front and the rear section of tyres.ini. */
    const frontTyre: Tyre
    const rearTyre: Tyre
    /** The telemetry channels kept for the samples with |lateral G| at or
        above the threshold. */
    const latGTelem: seq<real>
    const flTyreLoadTelem: seq<real>
    const frTyreLoadTelem: seq<real>
    const rlTyreLoadTelem: seq<real>
    const rrTyreLoadTelem: seq<real>
    const flCamberDegTelem: seq<real>
    const frCamberDegTelem: seq<real>
    const rlCamberDegTelem: seq<real>
    const rrCamberDegTelem: seq<real>

    constructor (frontTyre: Tyre, rearTyre: Tyre, latGTelem: seq<real>,
                 flTyreLoadTelem: seq<real>, frTyreLoadTelem: seq<real>, rlTyreLoadTelem: seq<real>, rrTyreLoadTelem: seq<real>,
                 flCamberDegTelem: seq<real>, frCamberDegTelem: seq<real>, rlCamberDegTelem: seq<real>, rrCamberDegTelem: seq<real>)
      ensures this.frontTyre == frontTyre && this.rearTyre == rearTyre && this.latGTelem == latGTelem
      ensures this.flTyreLoadTelem == flTyreLoadTelem && this.frTyreLoadTelem == frTyreLoadTelem
      ensures this.rlTyreLoadTelem == rlTyreLoadTelem && this.rrTyreLoadTelem == rrTyreLoadTelem
      ensures this.flCamberDegTelem == flCamberDegTelem && this.frCamberDegTelem == frCamberDegTelem
      ensures this.rlCamberDegTelem == rlCamberDegTelem && this.rrCamberDegTelem == rrCamberDegTelem
    {
      this.frontTyre := frontTyre;
      this.rearTyre := rearTyre;
      this.latGTelem := latGTelem;
      this.flTyreLoadTelem := flTyreLoadTelem;
      this.frTyreLoadTelem := frTyreLoadTelem;
      this.rlTyreLoadTelem := rlTyreLoadTelem;
      this.rrTyreLoadTelem := rrTyreLoadTelem;
      this.flCamberDegTelem := flCamberDegTelem;
      this.frCamberDegTelem := frCamberDegTelem;
      this.rlCamberDegTelem := rlCamberDegTelem;
      this.rrCamberDegTelem := rrCamberDegTelem;
    }

    /** The tyre and the channels of one axle; both axles share latG. */
    function TyreOf(side: Side): Tyre {
      if side == Front then frontTyre else rearTyre
    }

    function AxleOf(side: Side): AxleTelemetry {
      if side == Front then AxleTelemetry(latGTelem, flTyreLoadTelem, frTyreLoadTelem, flCamberDegTelem, frCamberDegTelem)
      else AxleTelemetry(latGTelem, rlTyreLoadTelem, rrTyreLoadTelem, rlCamberDegTelem, rrCamberDegTelem)
    }

    /** frontAxleAvgLatD(FL_camberOffset, FR_camberOffset). */
    method FrontAxleAvgLatD(m: Maths, flCamberOffset: real, frCamberOffset: real) returns (avg: real)
      requires AxleDefined(m, frontTyre, AxleOf(Front), flCamberOffset, frCamberOffset)
      ensures avg == AxleAvgLatD(m, frontTyre, AxleOf(Front), flCamberOffset, frCamberOffset)
    {
      avg := ComputeAxleAvgLatD(m, frontTyre, AxleOf(Front), flCamberOffset, frCamberOffset);
    }

    /** rearAxleAvgLatD(RL_camberOffset, RR_camberOffset): the same rule on the
        rear tyre and the RL and RR channels. */
    method RearAxleAvgLatD(m: Maths, rlCamberOffset: real, rrCamberOffset: real) returns (avg: real)
      requires AxleDefined(m, rearTyre, AxleOf(Rear), rlCamberOffset, rrCamberOffset)
      ensures avg == AxleAvgLatD(m, rearTyre, AxleOf(Rear), rlCamberOffset, rrCamberOffset)
    {
      avg := ComputeAxleAvgLatD(m, rearTyre, AxleOf(Rear), rlCamberOffset, rrCamberOffset);
    }

    /** The objective of a search on one axle. */
    function ObjectiveOf(m: Maths, side: Side, mode: Mode): Objective {
      Objective(m, TyreOf(side), AxleOf(side), mode)
    }

    /** One trial of a search: the axle method called with the offsets the
        mode gives. */
    method Evaluate(m: Maths, side: Side, mode: Mode, x: real) returns (v: real)
      requires Defined(ObjectiveOf(m, side, mode), x)
      ensures v == Value(ObjectiveOf(m, side, mode), x)
    {
      var offsets := Offsets(mode, x);
      if side == Front {
        v := FrontAxleAvgLatD(m, offsets.0, offsets.1);
      } else {
        v := RearAxleAvgLatD(m, offsets.0, offsets.1);
      }
    }

    /** The search each optimise method runs, once per searched offset:
        the baseline, the single step up, and the walk up or down. */
    method SearchCamber(m: Maths, side: Side, mode: Mode, camberStep: real, camberMinOffset: real, camberMaxOffset: real)
      returns (best: Optimum, currentAvgLatD: real)
      requires camberStep > 0.0 && Searchable(ObjectiveOf(m, side, mode), camberStep, camberMinOffset, camberMaxOffset)
      ensures best == LineSearch(Curve(ObjectiveOf(m, side, mode)), camberStep, camberMinOffset, camberMaxOffset)
      ensures currentAvgLatD == Value(ObjectiveOf(m, side, mode), 0.0)
    {
      ghost var o := ObjectiveOf(m, side, mode);
      currentAvgLatD := Evaluate(m, side, mode, 0.0);
      CurveValue(o, 0.0);
      var trialAvgLatD := 0.0;
      assert Trial(camberStep, 1) == camberStep;
      if camberStep <= camberMaxOffset {
        trialAvgLatD := Evaluate(m, side, mode, camberStep);
        CurveValue(o, camberStep);
      }
      assert trialAvgLatD == FirstTrial(Curve(o), camberStep, camberMinOffset, camberMaxOffset);
      if trialAvgLatD > currentAvgLatD {
        assert Trial(camberStep, 2) == 2.0 * camberStep;
        best := Walk(m, side, mode, camberStep, camberMinOffset, camberMaxOffset, 1, 2.0 * camberStep, 2,
                     trialAvgLatD, 0.0, Optimum(camberStep, trialAvgLatD), o, Curve(o));
      } else {
        assert Trial(camberStep, -1) == -camberStep;
        best := Walk(m, side, mode, camberStep, camberMinOffset, camberMaxOffset, -1, -camberStep, -1,
                     currentAvgLatD, 0.0, Optimum(0.0, currentAvgLatD), o, Curve(o));
      }
    }

    /** The while loop of a search: from offset camberOffset (the k-th step,
        upwards for dir 1 and downwards for dir -1) it evaluates the axle while
        the offset is within the limits and the last trial beat the one
        before, keeping the first offset of the highest grip. */
    method Walk(m: Maths, side: Side, mode: Mode, camberStep: real, camberMinOffset: real, camberMaxOffset: real,
                dir: int, camberOffset: real, ghost k: int, trialAvgLatD: real, prevTrialAvgLatD: real, start: Optimum,
                ghost o: Objective, ghost f: real --> real)
      returns (best: Optimum)
      requires camberStep > 0.0 && (dir == 1 || dir == -1) && Beyond(dir, k, dir) && camberOffset == Trial(camberStep, k)
      requires o == ObjectiveOf(m, side, mode) && Searchable(o, camberStep, camberMinOffset, camberMaxOffset)
      requires f == Curve(o) && Tries(f, camberStep, camberMinOffset, camberMaxOffset)
      ensures best == Climb(f, camberStep, camberMinOffset, camberMaxOffset, dir, k, trialAvgLatD, prevTrialAvgLatD, start)
    {
      best := start;
      var trial, prev, offset := trialAvgLatD, prevTrialAvgLatD, camberOffset;
      ghost var j := k;
      while Within(dir, camberMinOffset, camberMaxOffset, offset) && trial > prev
        invariant Beyond(dir, j, dir) && offset == Trial(camberStep, j)
        invariant Climb(f, camberStep, camberMinOffset, camberMaxOffset, dir, j, trial, prev, best)
               == Climb(f, camberStep, camberMinOffset, camberMaxOffset, dir, k, trialAvgLatD, prevTrialAvgLatD, start)
        decreases StepsLeft(dir, camberStep, camberMinOffset, camberMaxOffset, j) + 1
      {
        WithinBound(dir, camberStep, camberMinOffset, camberMaxOffset, j);
        var t, next := WalkStep(m, side, mode, camberStep, camberMinOffset, camberMaxOffset, dir, offset, j, trial, prev, best, o, f);
        prev, trial, best := trial, t, next;
        TrialNext(camberStep, j, dir);
        offset := if dir > 0 then offset + camberStep else offset - camberStep;
        j := j + dir;
      }
    }

    /** The body of the walk's loop: evaluate the axle at the current offset
        and keep it if it beats the best so far. */
    method WalkStep(m: Maths, side: Side, mode: Mode, camberStep: real, camberMinOffset: real, camberMaxOffset: real,
                    dir: int, camberOffset: real, ghost j: int, trialAvgLatD: real, prevTrialAvgLatD: real, best: Optimum,
                    ghost o: Objective, ghost f: real --> real)
      returns (t: real, next: Optimum)
      requires camberStep > 0.0 && (dir == 1 || dir == -1) && Beyond(dir, j, dir) && camberOffset == Trial(camberStep, j)
      requires o == ObjectiveOf(m, side, mode) && Searchable(o, camberStep, camberMinOffset, camberMaxOffset)
      requires Within(dir, camberMinOffset, camberMaxOffset, camberOffset) && trialAvgLatD > prevTrialAvgLatD
      ensures t == Value(o, camberOffset)
      ensures next == if t > best.avgLatD then Optimum(camberOffset, t) else best
      requires f == Curve(o) && Tries(f, camberStep, camberMinOffset, camberMaxOffset)
      ensures Climb(f, camberStep, camberMinOffset, camberMaxOffset, dir, j, trialAvgLatD, prevTrialAvgLatD, best)
           == Climb(f, camberStep, camberMinOffset, camberMaxOffset, dir, j + dir, t, trialAvgLatD, next)
    {
      assert Defined(o, Trial(camberStep, j));
      t := Evaluate(m, side, mode, camberOffset);
      CurveValue(o, camberOffset);
      ClimbStep(Curve(o), camberStep, camberMinOffset, camberMaxOffset, dir, j, trialAvgLatD, prevTrialAvgLatD, best, t);
      next := if t > best.avgLatD then Optimum(camberOffset, t) else best;
    }

    /** A symmetric optimiser: one search moving both cambers of the axle;
        returns the printed optimum offset and grip improvement. */
    method OptimiseSymmetric(m: Maths, side: Side, camberStep: real, camberMinOffset: real, camberMaxOffset: real)
      returns (bestCamberOffset: real, improvement: real)
      requires camberStep > 0.0 && Searchable(ObjectiveOf(m, side, Symmetric), camberStep, camberMinOffset, camberMaxOffset)
      requires AxleDefined(m, TyreOf(side), AxleOf(side), 0.0, 0.0) && AxleAvgLatD(m, TyreOf(side), AxleOf(side), 0.0, 0.0) != 0.0
      ensures var r := LineSearch(Curve(ObjectiveOf(m, side, Symmetric)), camberStep, camberMinOffset, camberMaxOffset);
        bestCamberOffset == r.offset && improvement == ImprovementPercent(r.avgLatD, AxleAvgLatD(m, TyreOf(side), AxleOf(side), 0.0, 0.0))
      ensures AxleAvgLatD(m, TyreOf(side), AxleOf(side), 0.0, 0.0) > 0.0 ==> improvement >= 0.0
    {
      var best, currentAvgLatD := SearchCamber(m, side, Symmetric, camberStep, camberMinOffset, camberMaxOffset);
      LineSearchFacts(Curve(ObjectiveOf(m, side, Symmetric)), camberStep, camberMinOffset, camberMaxOffset);
      CurveValue(ObjectiveOf(m, side, Symmetric), 0.0);
      bestCamberOffset := best.offset;
      improvement := ImprovementPercent(best.avgLatD, currentAvgLatD);
    }

    /** An asymmetric optimiser: the left tyre searched with the right held at
        0, then the right with the left held at 0, both from the baseline;
        only the improvement evaluates the two optima together. */
    method OptimiseAsymmetric(m: Maths, side: Side, camberStep: real, leftCamberMinOffset: real, leftCamberMaxOffset: real,
                              rightCamberMinOffset: real, rightCamberMaxOffset: real)
      returns (leftBestCamberOffset: real, rightBestCamberOffset: real, improvement: real)
      requires camberStep > 0.0
      requires Searchable(ObjectiveOf(m, side, LeftOnly), camberStep, leftCamberMinOffset, leftCamberMaxOffset)
      requires Searchable(ObjectiveOf(m, side, RightOnly), camberStep, rightCamberMinOffset, rightCamberMaxOffset)
      requires AxleDefined(m, TyreOf(side), AxleOf(side), 0.0, 0.0) && AxleAvgLatD(m, TyreOf(side), AxleOf(side), 0.0, 0.0) != 0.0
      requires AxleDefined(m, TyreOf(side), AxleOf(side),
                           LineSearch(Curve(ObjectiveOf(m, side, LeftOnly)), camberStep, leftCamberMinOffset, leftCamberMaxOffset).offset,
                           LineSearch(Curve(ObjectiveOf(m, side, RightOnly)), camberStep, rightCamberMinOffset, rightCamberMaxOffset).offset)
      ensures leftBestCamberOffset
           == LineSearch(Curve(ObjectiveOf(m, side, LeftOnly)), camberStep, leftCamberMinOffset, leftCamberMaxOffset).offset
      ensures rightBestCamberOffset
           == LineSearch(Curve(ObjectiveOf(m, side, RightOnly)), camberStep, rightCamberMinOffset, rightCamberMaxOffset).offset
      ensures improvement == ImprovementPercent(AxleAvgLatD(m, TyreOf(side), AxleOf(side), leftBestCamberOffset, rightBestCamberOffset),
                                                AxleAvgLatD(m, TyreOf(side), AxleOf(side), 0.0, 0.0))
    {
      var leftBest, currentAvgLatD := SearchCamber(m, side, LeftOnly, camberStep, leftCamberMinOffset, leftCamberMaxOffset);
      var rightBest, currentAvgLatD' := SearchCamber(m, side, RightOnly, camberStep, rightCamberMinOffset, rightCamberMaxOffset);
      leftBestCamberOffset := leftBest.offset;
      rightBestCamberOffset := rightBest.offset;
      var combined: real;
      if side == Front {
        combined := FrontAxleAvgLatD(m, leftBestCamberOffset, rightBestCamberOffset);
      } else {
        combined := RearAxleAvgLatD(m, leftBestCamberOffset, rightBestCamberOffset);
      }
      improvement := ImprovementPercent(combined, currentAvgLatD);
    }

    /** optimiseFrontCamberSymmetric */
    method OptimiseFrontCamberSymmetric(m: Maths, camberStep: real, camberMinOffset: real, camberMaxOffset: real)
      returns (bestCamberOffset: real, improvement: real)
      requires camberStep > 0.0 && Searchable(ObjectiveOf(m, Front, Symmetric), camberStep, camberMinOffset, camberMaxOffset)
      requires AxleDefined(m, frontTyre, AxleOf(Front), 0.0, 0.0) && AxleAvgLatD(m, frontTyre, AxleOf(Front), 0.0, 0.0) != 0.0
      ensures var r := LineSearch(Curve(ObjectiveOf(m, Front, Symmetric)), camberStep, camberMinOffset, camberMaxOffset);
        bestCamberOffset == r.offset && improvement == ImprovementPercent(r.avgLatD, AxleAvgLatD(m, frontTyre, AxleOf(Front), 0.0, 0.0))
      ensures AxleAvgLatD(m, frontTyre, AxleOf(Front), 0.0, 0.0) > 0.0 ==> improvement >= 0.0
    {
      bestCamberOffset, improvement := OptimiseSymmetric(m, Front, camberStep, camberMinOffset, camberMaxOffset);
    }

    /** optimiseRearCamberSymmetric */
    method OptimiseRearCamberSymmetric(m: Maths, camberStep: real, camberMinOffset: real, camberMaxOffset: real)
      returns (bestCamberOffset: real, improvement: real)
      requires camberStep > 0.0 && Searchable(ObjectiveOf(m, Rear, Symmetric), camberStep, camberMinOffset, camberMaxOffset)
      requires AxleDefined(m, rearTyre, AxleOf(Rear), 0.0, 0.0) && AxleAvgLatD(m, rearTyre, AxleOf(Rear), 0.0, 0.0) != 0.0
      ensures var r := LineSearch(Curve(ObjectiveOf(m, Rear, Symmetric)), camberStep, camberMinOffset, camberMaxOffset);
        bestCamberOffset == r.offset && improvement == ImprovementPercent(r.avgLatD, AxleAvgLatD(m, rearTyre, AxleOf(Rear), 0.0, 0.0))
      ensures AxleAvgLatD(m, rearTyre, AxleOf(Rear), 0.0, 0.0) > 0.0 ==> improvement >= 0.0
    {
      bestCamberOffset, improvement := OptimiseSymmetric(m, Rear, camberStep, camberMinOffset, camberMaxOffset);
    }

    /** optimiseFrontCamberAsymmetric */
    method OptimiseFrontCamberAsymmetric(m: Maths, camberStep: real, flCamberMinOffset: real, flCamberMaxOffset: real,
                                         frCamberMinOffset: real, frCamberMaxOffset: real)
      returns (flBestCamberOffset: real, frBestCamberOffset: real, improvement: real)
      requires camberStep > 0.0
      requires Searchable(ObjectiveOf(m, Front, LeftOnly), camberStep, flCamberMinOffset, flCamberMaxOffset)
      requires Searchable(ObjectiveOf(m, Front, RightOnly), camberStep, frCamberMinOffset, frCamberMaxOffset)
      requires AxleDefined(m, frontTyre, AxleOf(Front), 0.0, 0.0) && AxleAvgLatD(m, frontTyre, AxleOf(Front), 0.0, 0.0) != 0.0
      requires AxleDefined(m, frontTyre, AxleOf(Front),
                           LineSearch(Curve(ObjectiveOf(m, Front, LeftOnly)), camberStep, flCamberMinOffset, flCamberMaxOffset).offset,
                           LineSearch(Curve(ObjectiveOf(m, Front, RightOnly)), camberStep, frCamberMinOffset, frCamberMaxOffset).offset)
      ensures flBestCamberOffset
           == LineSearch(Curve(ObjectiveOf(m, Front, LeftOnly)), camberStep, flCamberMinOffset, flCamberMaxOffset).offset
      ensures frBestCamberOffset
           == LineSearch(Curve(ObjectiveOf(m, Front, RightOnly)), camberStep, frCamberMinOffset, frCamberMaxOffset).offset
      ensures improvement == ImprovementPercent(AxleAvgLatD(m, frontTyre, AxleOf(Front), flBestCamberOffset, frBestCamberOffset),
                                                AxleAvgLatD(m, frontTyre, AxleOf(Front), 0.0, 0.0))
    {
      flBestCamberOffset, frBestCamberOffset, improvement :=
        OptimiseAsymmetric(m, Front, camberStep, flCamberMinOffset, flCamberMaxOffset, frCamberMinOffset, frCamberMaxOffset);
    }

    /** optimiseRearCamberAsymmetric */
    method OptimiseRearCamberAsymmetric(m: Maths, camberStep: real, rlCamberMinOffset: real, rlCamberMaxOffset: real,
                                         rrCamberMinOffset: real, rrCamberMaxOffset: real)
      returns (rlBestCamberOffset: real, rrBestCamberOffset: real, improvement: real)
      requires camberStep > 0.0
      requires Searchable(ObjectiveOf(m, Rear, LeftOnly), camberStep, rlCamberMinOffset, rlCamberMaxOffset)
      requires Searchable(ObjectiveOf(m, Rear, RightOnly), camberStep, rrCamberMinOffset, rrCamberMaxOffset)
      requires AxleDefined(m, rearTyre, AxleOf(Rear), 0.0, 0.0) && AxleAvgLatD(m, rearTyre, AxleOf(Rear), 0.0, 0.0) != 0.0
      requires AxleDefined(m, rearTyre, AxleOf(Rear),
                           LineSearch(Curve(ObjectiveOf(m, Rear, LeftOnly)), camberStep, rlCamberMinOffset, rlCamberMaxOffset).offset,
                           LineSearch(Curve(ObjectiveOf(m, Rear, RightOnly)), camberStep, rrCamberMinOffset, rrCamberMaxOffset).offset)
      ensures rlBestCamberOffset
           == LineSearch(Curve(ObjectiveOf(m, Rear, LeftOnly)), camberStep, rlCamberMinOffset, rlCamberMaxOffset).offset
      ensures rrBestCamberOffset
           == LineSearch(Curve(ObjectiveOf(m, Rear, RightOnly)), camberStep, rrCamberMinOffset, rrCamberMaxOffset).offset
      ensures improvement == ImprovementPercent(AxleAvgLatD(m, rearTyre, AxleOf(Rear), rlBestCamberOffset, rrBestCamberOffset),
                                                AxleAvgLatD(m, rearTyre, AxleOf(Rear), 0.0, 0.0))
    {
      rlBestCamberOffset, rrBestCamberOffset, improvement :=
        OptimiseAsymmetric(m, Rear, camberStep, rlCamberMinOffset, rlCamberMaxOffset, rrCamberMinOffset, rrCamberMaxOffset);
    }
  }
}
