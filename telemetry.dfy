/** The telemetry preprocessing of the two scripts aeroMapRHEnvelope.py and
    processingMoTeCData.py: the per-sample channels computed from one CSV row,
    the moving-average smooth with its edge padding, the "all"/"cornering"
    filter of the envelope script and the pass-through loop of the MoTeC
    script. Reading the CSV file itself is not modelled: a row arrives as the
    sequence of its parsed numbers. */
module Telemetry {
  import opened Numeric

  // ------------------------------------------------------------ one sample

  /** Column indexes of the MoTeC export. */
  const LatGColumn: nat := 22
  const LongGColumn: nat := 23
  const GroundSpeedColumn: nat := 63
  const RideHeightFLColumn: nat := 90
  const RideHeightFRColumn: nat := 91
  const RideHeightRLColumn: nat := 92
  const RideHeightRRColumn: nat := 93

  /** The channels the scripts keep from one row. */
  datatype Sample = Sample(groundSpeed: real, frontRH: real, rearRH: real, longG: real,
                           combinedG: real, combinedG2WD: real)
  {
    function Get(c: ChannelName): real {
      match c
      case GroundSpeed => groundSpeed
      case FrontRH => frontRH
      case RearRH => rearRH
      case LongG => longG
      case CombinedG => combinedG
      case CombinedG2WD => combinedG2WD
    }
  }

  datatype ChannelName = GroundSpeed | FrontRH | RearRH | LongG | CombinedG | CombinedG2WD

  /** An axle's ride height in metres: the mean of its two corners, given in
      millimetres. */
  function AxleRideHeight(left: real, right: real): (rh: real)
    ensures 2000.0 * rh == left + right
    ensures left <= right ==> left / 1000.0 <= rh <= right / 1000.0
    ensures right <= left ==> right / 1000.0 <= rh <= left / 1000.0
  {
    (left + right) / 2.0 / 1000.0
  }

  /** math.sqrt(pow(latG, 2) + pow(longG, 2)) */
  function CombinedGOf(m: Maths, latG: real, longG: real): real {
    m.sqrt(m.pow(latG, 2.0) + m.pow(longG, 2.0))
  }

  /** The combined G of a two-wheel-drive car: positive (accelerating)
      longitudinal G counts double. */
  function CombinedG2WDOf(m: Maths, latG: real, longG: real): real {
    if longG > 0.0 then
      m.sqrt(m.pow(latG, 2.0) + m.pow(longG * 2.0, 2.0))
    else
      m.sqrt(m.pow(latG, 2.0) + m.pow(longG, 2.0))
  }

  /** Off the throttle the two combined G channels agree. */
  lemma CombinedG2WDBraking(m: Maths, latG: real, longG: real)
    requires longG <= 0.0
    ensures CombinedG2WDOf(m, latG, longG) == CombinedGOf(m, latG, longG)
  {
  }

  /** With pow(x, 2) the square and sqrt non-decreasing, the two-wheel-drive
      combined G is never below the plain one. */
  lemma CombinedG2WDNotBelow(m: Maths, latG: real, longG: real)
    requires forall x :: m.pow(x, 2.0) == x * x
    requires forall a, b :: 0.0 <= a <= b ==> m.sqrt(a) <= m.sqrt(b)
    ensures CombinedGOf(m, latG, longG) <= CombinedG2WDOf(m, latG, longG)
  {
    if longG > 0.0 {
      var lat2 := m.pow(latG, 2.0);
      assert lat2 == latG * latG;
      assert m.pow(longG, 2.0) == longG * longG;
      assert m.pow(longG * 2.0, 2.0) == (longG * 2.0) * (longG * 2.0);
      assert (longG * 2.0) * (longG * 2.0) == 4.0 * (longG * longG);
      assert 0.0 <= latG * latG + longG * longG <= latG * latG + 4.0 * (longG * longG);
    }
  }

  /** The channels of one data row (lines from the 18th on). */
  function ReadSample(m: Maths, data: seq<real>): (s: Sample)
    requires |data| > RideHeightRRColumn
    ensures 2000.0 * s.frontRH == data[RideHeightFLColumn] + data[RideHeightFRColumn]
    ensures 2000.0 * s.rearRH == data[RideHeightRLColumn] + data[RideHeightRRColumn]
    ensures data[LongGColumn] <= 0.0 ==> s.combinedG2WD == s.combinedG
  {
    Sample(data[GroundSpeedColumn],
           AxleRideHeight(data[RideHeightFLColumn], data[RideHeightFRColumn]),
           AxleRideHeight(data[RideHeightRLColumn], data[RideHeightRRColumn]),
           data[LongGColumn],
           CombinedGOf(m, data[LatGColumn], data[LongGColumn]),
           CombinedG2WDOf(m, data[LatGColumn], data[LongGColumn]))
  }

  /** One channel of every sample, in order. */
  function Channel(samples: seq<Sample>, c: ChannelName): (r: seq<real>)
    ensures |r| == |samples|
    ensures forall i :: 0 <= i < |r| ==> r[i] == samples[i].Get(c)
  {
    seq(|samples|, i requires 0 <= i < |samples| => samples[i].Get(c))
  }

  // ---------------------------------------------------------------- smooth

  /** The mean of the 2 * sp + 1 values centred on index c. */
  function WindowMean(s: seq<real>, sp: nat, c: int): real
    requires sp <= c && c + sp < |s|
  {
    Mean(s[c - sp..c + sp + 1])
  }

  /** movingSum after i rounds of the inner loop: the centre plus the i
      pairs nearest to it. */
  function WindowSum(s: seq<real>, c: int, i: nat): real
    requires i <= c && c + i < |s|
  {
    if i == 0 then s[c] else WindowSum(s, c, i - 1) + (s[c - i] + s[c + i])
  }

  /** The moving sum is the sum of the window. */
  lemma {:induction false} WindowSumIsSum(s: seq<real>, c: int, i: nat)
    requires i <= c && c + i < |s|
    ensures WindowSum(s, c, i) == Sum(s[c - i..c + i + 1])
    decreases i
  {
    if i == 0 {
      assert s[c..c + 1] == [] + [s[c]];
    } else {
      WindowSumIsSum(s, c, i - 1);
      var inner := s[c - i + 1..c + i];
      assert s[c - i..c + i + 1] == [s[c - i]] + inner + [s[c + i]];
      SumConcat([s[c - i]] + inner, [s[c + i]]);
      SumConcat([s[c - i]], inner);
      assert [s[c - i]] == [] + [s[c - i]];
      assert [s[c + i]] == [] + [s[c + i]];
    }
  }

  /** min(max(j, lo), hi) */
  function Clamp(j: int, lo: int, hi: int): int {
    if j < lo then lo else if j > hi then hi else j
  }

  /** What smooth returns: None where indexing the empty list of moving
      averages fails; otherwise output j is the window mean centred on j
      clamped to [sp, n - 1 - sp], so the sp points at each end repeat the
      first or last full window. */
  function Smoothed(s: seq<real>, sp: nat): (r: Option<seq<real>>)
    ensures r.None? <==> sp > 0 && |s| <= 2 * sp
    ensures r.Some? ==> |r.value| == |s|
  {
    if sp > 0 && |s| <= 2 * sp then None
    else Some(seq(|s|, j requires 0 <= j < |s| => WindowMean(s, sp, Clamp(j, sp, |s| - 1 - sp))))
  }

  /** Inside, each smoothed point is the mean of the window centred on it;
      the sp points at each end repeat the first or the last such mean. */
  lemma SmoothedWindows(s: seq<real>, sp: nat)
    requires sp == 0 || |s| > 2 * sp
    ensures forall j :: sp <= j < |s| - sp ==> Smoothed(s, sp).value[j] == WindowMean(s, sp, j)
    ensures forall j :: 0 <= j < sp ==> Smoothed(s, sp).value[j] == WindowMean(s, sp, sp)
    ensures forall j :: |s| - sp <= j < |s| ==> Smoothed(s, sp).value[j] == WindowMean(s, sp, |s| - 1 - sp)
  {
  }

  /** A single smoothing point copies its input. */
  lemma SmoothedZero(s: seq<real>)
    ensures Smoothed(s, 0) == Some(s)
  {
    var r := Smoothed(s, 0).value;
    forall j | 0 <= j < |s|
      ensures r[j] == s[j]
    {
      assert r[j] == Mean(s[j..j + 1]);
      assert s[j..j + 1] == [s[j]];
      SumSingleton(s[j]);
    }
    assert r == s;
  }

  /** A constant input smooths to itself. */
  lemma SmoothedConstant(s: seq<real>, sp: nat, c: real)
    requires forall i :: 0 <= i < |s| ==> s[i] == c
    requires sp == 0 || |s| > 2 * sp
    ensures Smoothed(s, sp) == Some(s)
  {
    var r := Smoothed(s, sp).value;
    forall j | 0 <= j < |s|
      ensures r[j] == s[j]
    {
      var k := Clamp(j, sp, |s| - 1 - sp);
      MeanConstant(s[k - sp..k + sp + 1], c);
    }
    assert r == s;
  }

  function Repeat(x: real, k: nat): (r: seq<real>)
    ensures |r| == k && forall i :: 0 <= i < k ==> r[i] == x
  {
    seq(k, _ => x)
  }

  /** The list after i rounds of padding: i copies of first, the moving
      averages, i copies of last. */
  function Padded(first: real, averages: seq<real>, last: real, i: nat): (r: seq<real>)
    ensures |r| == |averages| + 2 * i
  {
    Repeat(first, i) + averages + Repeat(last, i)
  }

  lemma PaddedAt(first: real, averages: seq<real>, last: real, i: nat, j: nat)
    requires j < |averages| + 2 * i
    ensures Padded(first, averages, last, i)[j]
         == if j < i then first else if j < i + |averages| then averages[j - i] else last
  {
  }

  /** The moving averages padded with sp copies of their first and last
      values are the smoothed telemetry. */
  lemma PaddedIsSmoothed(s: seq<real>, sp: nat, averages: seq<real>)
    requires sp == 0 || |s| > 2 * sp
    requires |averages| + 2 * sp == |s|
    requires forall k :: 0 <= k < |averages| ==> averages[k] == WindowMean(s, sp, k + sp)
    ensures |averages| == 0 ==> Smoothed(s, sp) == Some([])
    ensures |averages| > 0 ==>
      Smoothed(s, sp) == Some(Padded(averages[0], averages, averages[|averages| - 1], sp))
  {
    if |averages| > 0 {
      var padded := Padded(averages[0], averages, averages[|averages| - 1], sp);
      var r := Smoothed(s, sp).value;
      var n := |averages|;
      forall j | 0 <= j < |s|
        ensures r[j] == padded[j]
      {
        PaddedAt(averages[0], averages, averages[n - 1], sp, j);
        var k := Clamp(j, sp, |s| - 1 - sp);
        assert r[j] == WindowMean(s, sp, k);
        assert k - sp == if j < sp then 0 else if j < sp + n then j - sp else n - 1;
        assert averages[k - sp] == WindowMean(s, sp, k);
      }
      assert r == padded;
    }
  }

  /** Two rounds of padding: insert(0, first) and then, before the last value,
      another copy of it. */
  lemma PadStep(first: real, averages: seq<real>, last: real, i: nat, x: seq<real>)
    requires |averages| > 0 && averages[|averages| - 1] == last
    requires x == [first] + Padded(first, averages, last, i)
    ensures x[..|x| - 1] + [x[|x| - 1]] + x[|x| - 1..] == Padded(first, averages, last, i + 1)
  {
    var y := Padded(first, averages, last, i + 1);
    var z := x[..|x| - 1] + [x[|x| - 1]] + x[|x| - 1..];
    PaddedAt(first, averages, last, i, |averages| + 2 * i - 1);
    assert x[|x| - 1] == last;
    forall j | 0 <= j < |y|
      ensures z[j] == y[j]
    {
      PaddedAt(first, averages, last, i + 1, j);
      if j < |x| - 1 {
        assert z[j] == x[j];
        if j > 0 {
          PaddedAt(first, averages, last, i, j - 1);
        }
      }
    }
  }

  /** smooth(telemArray, smoothingPoints), with None where Python raises. */
  method Smooth(telemArray: seq<real>, smoothingPoints: nat) returns (r: Option<seq<real>>)
    ensures r == Smoothed(telemArray, smoothingPoints)
  {
    var smoothedTelemArray := MovingAverages(telemArray, smoothingPoints);
    ghost var averages := smoothedTelemArray;
    ghost var first := if |averages| > 0 then averages[0] else 0.0;
    ghost var last := if |averages| > 0 then averages[|averages| - 1] else 0.0;
    var i := 0;
    while i < smoothingPoints
      invariant 0 <= i <= smoothingPoints && (i == 0 || |averages| > 0)
      invariant smoothedTelemArray == Padded(first, averages, last, i)
    {
      if |smoothedTelemArray| == 0 {
        return None;
      }
      smoothedTelemArray := [smoothedTelemArray[0]] + smoothedTelemArray;
      PadStep(first, averages, last, i, smoothedTelemArray);
      smoothedTelemArray := smoothedTelemArray[..|smoothedTelemArray| - 1] + [smoothedTelemArray[|smoothedTelemArray| - 1]]
                            + smoothedTelemArray[|smoothedTelemArray| - 1..];
      i := i + 1;
    }
    PaddedIsSmoothed(telemArray, smoothingPoints, averages);
    r := Some(smoothedTelemArray);
  }

  /** The first loop of smooth: the mean of every full window, in order. */
  method MovingAverages(telemArray: seq<real>, smoothingPoints: nat) returns (smoothedTelemArray: seq<real>)
    ensures |smoothedTelemArray| + 2 * smoothingPoints == |telemArray| ||
            (|telemArray| <= 2 * smoothingPoints && smoothedTelemArray == [])
    ensures forall k :: 0 <= k < |smoothedTelemArray| ==>
      smoothedTelemArray[k] == WindowMean(telemArray, smoothingPoints, k + smoothingPoints)
  {
    var n := |telemArray|;
    smoothedTelemArray := [];
    var index: int := smoothingPoints;
    while index < n - smoothingPoints
      invariant smoothingPoints <= index && (index <= n - smoothingPoints || index == smoothingPoints)
      invariant |smoothedTelemArray| == index - smoothingPoints
      invariant forall k :: 0 <= k < |smoothedTelemArray| ==>
        smoothedTelemArray[k] == WindowMean(telemArray, smoothingPoints, k + smoothingPoints)
      decreases n - index
    {
      var movingSum := MovingSum(telemArray, smoothingPoints, index);
      WindowSumIsSum(telemArray, index, smoothingPoints);
      smoothedTelemArray := smoothedTelemArray + [movingSum / ((smoothingPoints * 2 + 1) as real)];
      index := index + 1;
    }
  }

  /** The inner loop of smooth: the sum of the window centred on index. */
  method MovingSum(telemArray: seq<real>, smoothingPoints: nat, index: int) returns (movingSum: real)
    requires smoothingPoints <= index && index + smoothingPoints < |telemArray|
    ensures movingSum == WindowSum(telemArray, index, smoothingPoints)
  {
    movingSum := telemArray[index];
    for i := 0 to smoothingPoints
      invariant movingSum == WindowSum(telemArray, index, i)
    {
      movingSum := movingSum + (telemArray[index - i - 1] + telemArray[index + i + 1]);
    }
  }

  // ---------------------------------------------------------------- filters

  /** abs() */
  function Abs(x: real): (r: real)
    ensures r >= 0.0 && (r == x || r == -x)
  {
    if x < 0.0 then -x else x
  }

  /** Cornering but not braking: more than 1 G, and longitudinal G under a
      quarter of it. */
  predicate Cornering(combined: real, longG: real) {
    combined > 1.0 && Abs(longG) < 0.25 * combined
  }

  /** Whether the envelope script keeps a sample under the given filtering. */
  predicate Keeps(telemDataFiltering: string, is2WD: bool, longG: real, combinedG: real, combinedG2WD: real) {
    if telemDataFiltering == "all" then true
    else if telemDataFiltering == "cornering" then
      if is2WD then Cornering(combinedG2WD, longG) else Cornering(combinedG, longG)
    else false
  }

  /** The filter decision for each of the first rawDataPoints samples. */
  function KeepMask(telemDataFiltering: string, is2WD: bool, longG: seq<real>, combinedG: seq<real>,
                    combinedG2WD: seq<real>, rawDataPoints: nat): (mask: seq<bool>)
    requires rawDataPoints <= |longG| && rawDataPoints <= |combinedG| && rawDataPoints <= |combinedG2WD|
    ensures |mask| == rawDataPoints
    ensures forall i :: 0 <= i < rawDataPoints ==>
      mask[i] == Keeps(telemDataFiltering, is2WD, longG[i], combinedG[i], combinedG2WD[i])
  {
    seq(rawDataPoints, i requires 0 <= i < rawDataPoints =>
      Keeps(telemDataFiltering, is2WD, longG[i], combinedG[i], combinedG2WD[i]))
  }

  /** The values whose mask entry is true, in order. */
  function Kept(v: seq<real>, mask: seq<bool>): (r: seq<real>)
    requires |v| == |mask|
    ensures |r| <= |v|
    decreases |v|
  {
    if |v| == 0 then []
    else Kept(v[..|v| - 1], mask[..|mask| - 1]) + (if mask[|mask| - 1] then [v[|v| - 1]] else [])
  }

  /** The indexes whose mask entry is true, in increasing order. */
  function KeptIndices(mask: seq<bool>): (r: seq<nat>)
    ensures |r| <= |mask|
    ensures forall t :: 0 <= t < |r| ==> r[t] < |mask|
    decreases |mask|
  {
    if |mask| == 0 then []
    else KeptIndices(mask[..|mask| - 1]) + (if mask[|mask| - 1] then [|mask| - 1] else [])
  }

  /** The kept indexes are increasing, and are the indexes whose mask entry
      is true. */
  lemma {:induction false} KeptIndicesFacts(mask: seq<bool>)
    ensures forall t :: 0 <= t < |KeptIndices(mask)| ==> KeptIndices(mask)[t] < |mask|
    ensures forall t, u :: 0 <= t < u < |KeptIndices(mask)| ==> KeptIndices(mask)[t] < KeptIndices(mask)[u]
    ensures forall i :: 0 <= i < |mask| ==> (mask[i] <==> i in KeptIndices(mask))
    decreases |mask|
  {
    if |mask| > 0 {
      var n := |mask| - 1;
      KeptIndicesFacts(mask[..n]);
      assert forall i :: 0 <= i < n ==> mask[..n][i] == mask[i];
    }
  }

  /** Kept picks exactly the values at the kept indexes. */
  lemma {:induction false} KeptSelects(v: seq<real>, mask: seq<bool>)
    requires |v| == |mask|
    ensures |Kept(v, mask)| == |KeptIndices(mask)|
    ensures forall t :: 0 <= t < |KeptIndices(mask)| ==>
      KeptIndices(mask)[t] < |v| && Kept(v, mask)[t] == v[KeptIndices(mask)[t]]
    decreases |v|
  {
    KeptIndicesFacts(mask);
    if |v| > 0 {
      var n := |v| - 1;
      KeptSelects(v[..n], mask[..n]);
      KeptIndicesFacts(mask[..n]);
    }
  }

  /** Two channels filtered by the same mask keep the same number of samples. */
  lemma KeptSameLength(a: seq<real>, b: seq<real>, mask: seq<bool>)
    requires |a| == |b| == |mask|
    ensures |Kept(a, mask)| == |Kept(b, mask)|
  {
    KeptSelects(a, mask);
    KeptSelects(b, mask);
  }

  /** A mask that keeps everything keeps every value in order. */
  lemma {:induction false} KeptAll(v: seq<real>, mask: seq<bool>)
    requires |v| == |mask|
    requires forall i :: 0 <= i < |mask| ==> mask[i]
    ensures Kept(v, mask) == v
    decreases |v|
  {
    if |v| > 0 {
      KeptAll(v[..|v| - 1], mask[..|mask| - 1]);
    }
  }

  lemma KeptStep(v: seq<real>, mask: seq<bool>, i: nat)
    requires |v| == |mask| && i < |v|
    ensures Kept(v[..i + 1], mask[..i + 1]) == Kept(v[..i], mask[..i]) + (if mask[i] then [v[i]] else [])
  {
    assert v[..i + 1][..i] == v[..i];
    assert mask[..i + 1][..i] == mask[..i];
  }

  /** The envelope script's filter loop over the smoothed channels. */
  method FilterEnvelopeTelemetry(telemDataFiltering: string, is2WD: bool, smoothedFrontRHTelem: seq<real>,
                                 smoothedRearRHTelem: seq<real>, smoothedLongGTelem: seq<real>,
                                 smoothedCombinedGTelem: seq<real>, smoothedCombinedG2WDTelem: seq<real>,
                                 rawDataPoints: nat)
    returns (processedFrontRHTelem: seq<real>, processedRearRHTelem: seq<real>)
    requires rawDataPoints <= |smoothedFrontRHTelem| && rawDataPoints <= |smoothedRearRHTelem|
    requires rawDataPoints <= |smoothedLongGTelem| && rawDataPoints <= |smoothedCombinedGTelem|
    requires rawDataPoints <= |smoothedCombinedG2WDTelem|
    ensures var mask := KeepMask(telemDataFiltering, is2WD, smoothedLongGTelem, smoothedCombinedGTelem,
                                 smoothedCombinedG2WDTelem, rawDataPoints);
      processedFrontRHTelem == Kept(smoothedFrontRHTelem[..rawDataPoints], mask) &&
      processedRearRHTelem == Kept(smoothedRearRHTelem[..rawDataPoints], mask)
    ensures |processedFrontRHTelem| == |processedRearRHTelem|
  {
    ghost var mask := KeepMask(telemDataFiltering, is2WD, smoothedLongGTelem, smoothedCombinedGTelem,
                               smoothedCombinedG2WDTelem, rawDataPoints);
    ghost var front := smoothedFrontRHTelem[..rawDataPoints];
    ghost var rear := smoothedRearRHTelem[..rawDataPoints];
    processedFrontRHTelem, processedRearRHTelem := [], [];
    for i := 0 to rawDataPoints
      invariant processedFrontRHTelem == Kept(front[..i], mask[..i])
      invariant processedRearRHTelem == Kept(rear[..i], mask[..i])
    {
      KeptStep(front, mask, i);
      KeptStep(rear, mask, i);
      if telemDataFiltering == "all" {
        processedFrontRHTelem := processedFrontRHTelem + [smoothedFrontRHTelem[i]];
        processedRearRHTelem := processedRearRHTelem + [smoothedRearRHTelem[i]];
      } else if telemDataFiltering == "cornering" {
        if is2WD {
          if smoothedCombinedG2WDTelem[i] > 1.0 && Abs(smoothedLongGTelem[i]) < 0.25 * smoothedCombinedG2WDTelem[i] {
            processedFrontRHTelem := processedFrontRHTelem + [smoothedFrontRHTelem[i]];
            processedRearRHTelem := processedRearRHTelem + [smoothedRearRHTelem[i]];
          }
        } else {
          if smoothedCombinedGTelem[i] > 1.0 && Abs(smoothedLongGTelem[i]) < 0.25 * smoothedCombinedGTelem[i] {
            processedFrontRHTelem := processedFrontRHTelem + [smoothedFrontRHTelem[i]];
            processedRearRHTelem := processedRearRHTelem + [smoothedRearRHTelem[i]];
          }
        }
      }
    }
    assert front[..rawDataPoints] == front;
    assert rear[..rawDataPoints] == rear;
    assert mask[..rawDataPoints] == mask;
    KeptSameLength(front, rear, mask);
  }

  /** The envelope script from the parsed samples to the ride heights handed
      to getRHEnvelope2D: all five channels smoothed, then filtered. None where
      smoothing fails. */
  function EnvelopeTelemetry(samples: seq<Sample>, smoothingPoints: nat, telemDataFiltering: string, is2WD: bool)
    : (r: Option<(seq<real>, seq<real>)>)
    ensures r.None? <==> smoothingPoints > 0 && |samples| <= 2 * smoothingPoints
  {
    if smoothingPoints > 0 && |samples| <= 2 * smoothingPoints then None
    else
      var front := Smoothed(Channel(samples, FrontRH), smoothingPoints).value;
      var rear := Smoothed(Channel(samples, RearRH), smoothingPoints).value;
      var longG := Smoothed(Channel(samples, LongG), smoothingPoints).value;
      var combined := Smoothed(Channel(samples, CombinedG), smoothingPoints).value;
      var combined2WD := Smoothed(Channel(samples, CombinedG2WD), smoothingPoints).value;
      var mask := KeepMask(telemDataFiltering, is2WD, longG, combined, combined2WD, |samples|);
      Some((Kept(front, mask), Kept(rear, mask)))
  }

  /** Under "all" the ride heights pass through smoothing unfiltered, and
      without smoothing they are the raw per-axle ride heights. */
  lemma EnvelopeAll(samples: seq<Sample>, smoothingPoints: nat, is2WD: bool)
    requires smoothingPoints == 0 || |samples| > 2 * smoothingPoints
    ensures EnvelopeTelemetry(samples, smoothingPoints, "all", is2WD)
         == Some((Smoothed(Channel(samples, FrontRH), smoothingPoints).value,
                  Smoothed(Channel(samples, RearRH), smoothingPoints).value))
    ensures smoothingPoints == 0 ==>
      EnvelopeTelemetry(samples, smoothingPoints, "all", is2WD) == Some((Channel(samples, FrontRH), Channel(samples, RearRH)))
  {
    var longG := Smoothed(Channel(samples, LongG), smoothingPoints).value;
    var combined := Smoothed(Channel(samples, CombinedG), smoothingPoints).value;
    var combined2WD := Smoothed(Channel(samples, CombinedG2WD), smoothingPoints).value;
    var mask := KeepMask("all", is2WD, longG, combined, combined2WD, |samples|);
    KeptAll(Smoothed(Channel(samples, FrontRH), smoothingPoints).value, mask);
    KeptAll(Smoothed(Channel(samples, RearRH), smoothingPoints).value, mask);
    if smoothingPoints == 0 {
      SmoothedZero(Channel(samples, FrontRH));
      SmoothedZero(Channel(samples, RearRH));
    }
  }

  /** Under "cornering" a sample is kept exactly when its smoothed combined G
      (the 2WD variant for a 2WD car) is over 1 and its smoothed longitudinal G
      is under a quarter of that. */
  lemma EnvelopeCornering(samples: seq<Sample>, smoothingPoints: nat, is2WD: bool, i: nat)
    requires smoothingPoints == 0 || |samples| > 2 * smoothingPoints
    requires i < |samples|
    ensures var longG := Smoothed(Channel(samples, LongG), smoothingPoints).value;
      var combined := Smoothed(Channel(samples, CombinedG), smoothingPoints).value;
      var combined2WD := Smoothed(Channel(samples, CombinedG2WD), smoothingPoints).value;
      var mask := KeepMask("cornering", is2WD, longG, combined, combined2WD, |samples|);
      (i in KeptIndices(mask) <==>
        (if is2WD then Cornering(combined2WD[i], longG[i]) else Cornering(combined[i], longG[i])))
  {
    var longG := Smoothed(Channel(samples, LongG), smoothingPoints).value;
    var combined := Smoothed(Channel(samples, CombinedG), smoothingPoints).value;
    var combined2WD := Smoothed(Channel(samples, CombinedG2WD), smoothingPoints).value;
    var mask := KeepMask("cornering", is2WD, longG, combined, combined2WD, |samples|);
    KeptIndicesFacts(mask);
  }

  /** The envelope script's preprocessing: smooth the five channels in the
      order the script does, then filter. */
  method ProcessEnvelopeTelemetry(samples: seq<Sample>, smoothingPoints: nat, telemDataFiltering: string, is2WD: bool)
    returns (r: Option<(seq<real>, seq<real>)>)
    ensures r == EnvelopeTelemetry(samples, smoothingPoints, telemDataFiltering, is2WD)
  {
    var rawDataPoints := |samples|;
    var smoothedFrontRHTelem := Smooth(Channel(samples, FrontRH), smoothingPoints);
    var smoothedRearRHTelem := Smooth(Channel(samples, RearRH), smoothingPoints);
    var smoothedLongGTelem := Smooth(Channel(samples, LongG), smoothingPoints);
    var smoothedCombinedGTelem := Smooth(Channel(samples, CombinedG), smoothingPoints);
    var smoothedCombinedG2WDTelem := Smooth(Channel(samples, CombinedG2WD), smoothingPoints);
    if smoothedFrontRHTelem.None? || smoothedRearRHTelem.None? || smoothedLongGTelem.None?
       || smoothedCombinedGTelem.None? || smoothedCombinedG2WDTelem.None? {
      return None;
    }
    var front := smoothedFrontRHTelem.value;
    var rear := smoothedRearRHTelem.value;
    var processedFrontRHTelem, processedRearRHTelem :=
      FilterEnvelopeTelemetry(telemDataFiltering, is2WD, front, rear, smoothedLongGTelem.value,
                              smoothedCombinedGTelem.value, smoothedCombinedG2WDTelem.value, rawDataPoints);
    assert front[..rawDataPoints] == front;
    assert rear[..rawDataPoints] == rear;
    r := Some((processedFrontRHTelem, processedRearRHTelem));
  }

  /** The MoTeC script's smoothingPoints. */
  const MotecSmoothingPoints: nat := 2

  /** The MoTeC script's four processed channels: ground speed as read, and
      the smoothed ride heights and 2WD combined G. None where smoothing fails,
      which is for four samples or fewer. */
  function MotecTelemetry(samples: seq<Sample>): (r: Option<(seq<real>, seq<real>, seq<real>, seq<real>)>)
    ensures r.None? <==> |samples| <= 4
    ensures r.Some? ==> |r.value.0| == |r.value.1| == |r.value.2| == |r.value.3| == |samples|
    ensures r.Some? ==> r.value.0 == Channel(samples, GroundSpeed)
  {
    if |samples| <= 2 * MotecSmoothingPoints then None
    else Some((Channel(samples, GroundSpeed),
               Smoothed(Channel(samples, FrontRH), MotecSmoothingPoints).value,
               Smoothed(Channel(samples, RearRH), MotecSmoothingPoints).value,
               Smoothed(Channel(samples, CombinedG2WD), MotecSmoothingPoints).value))
  }

  /** The MoTeC script's filter loop, whose condition is always true: each
      output is its input's first rawDataPoints values. */
  method PassThrough(groundSpeedTelem: seq<real>, smoothedFrontRHTelem: seq<real>, smoothedRearRHTelem: seq<real>,
                     smoothedCombinedG2WDTelem: seq<real>, rawDataPoints: nat)
    returns (processedGroundSpeedTelem: seq<real>, processedFrontRHTelem: seq<real>,
             processedRearRHTelem: seq<real>, processedCombinedG2WDTelem: seq<real>)
    requires rawDataPoints <= |groundSpeedTelem| && rawDataPoints <= |smoothedFrontRHTelem|
    requires rawDataPoints <= |smoothedRearRHTelem| && rawDataPoints <= |smoothedCombinedG2WDTelem|
    ensures processedGroundSpeedTelem == groundSpeedTelem[..rawDataPoints]
    ensures processedFrontRHTelem == smoothedFrontRHTelem[..rawDataPoints]
    ensures processedRearRHTelem == smoothedRearRHTelem[..rawDataPoints]
    ensures processedCombinedG2WDTelem == smoothedCombinedG2WDTelem[..rawDataPoints]
  {
    processedGroundSpeedTelem, processedFrontRHTelem := [], [];
    processedRearRHTelem, processedCombinedG2WDTelem := [], [];
    for i := 0 to rawDataPoints
      invariant processedGroundSpeedTelem == groundSpeedTelem[..i]
      invariant processedFrontRHTelem == smoothedFrontRHTelem[..i]
      invariant processedRearRHTelem == smoothedRearRHTelem[..i]
      invariant processedCombinedG2WDTelem == smoothedCombinedG2WDTelem[..i]
    {
      assert groundSpeedTelem[..i + 1] == groundSpeedTelem[..i] + [groundSpeedTelem[i]];
      assert smoothedFrontRHTelem[..i + 1] == smoothedFrontRHTelem[..i] + [smoothedFrontRHTelem[i]];
      assert smoothedRearRHTelem[..i + 1] == smoothedRearRHTelem[..i] + [smoothedRearRHTelem[i]];
      assert smoothedCombinedG2WDTelem[..i + 1] == smoothedCombinedG2WDTelem[..i] + [smoothedCombinedG2WDTelem[i]];
      processedGroundSpeedTelem := processedGroundSpeedTelem + [groundSpeedTelem[i]];
      processedFrontRHTelem := processedFrontRHTelem + [smoothedFrontRHTelem[i]];
      processedRearRHTelem := processedRearRHTelem + [smoothedRearRHTelem[i]];
      processedCombinedG2WDTelem := processedCombinedG2WDTelem + [smoothedCombinedG2WDTelem[i]];
    }
  }

  /** The MoTeC script's preprocessing: smooth the four channels in the order
      the script does, then pass everything through. */
  method ProcessMotecTelemetry(samples: seq<Sample>)
    returns (r: Option<(seq<real>, seq<real>, seq<real>, seq<real>)>)
    ensures r == MotecTelemetry(samples)
  {
    var rawDataPoints := |samples|;
    var groundSpeedTelem := Channel(samples, GroundSpeed);
    var smoothingPoints := MotecSmoothingPoints;
    var smoothedFrontRHTelem := Smooth(Channel(samples, FrontRH), smoothingPoints);
    var smoothedRearRHTelem := Smooth(Channel(samples, RearRH), smoothingPoints);
    var smoothedLongGTelem := Smooth(Channel(samples, LongG), smoothingPoints);
    var smoothedCombinedG2WDTelem := Smooth(Channel(samples, CombinedG2WD), smoothingPoints);
    if smoothedFrontRHTelem.None? || smoothedRearRHTelem.None? || smoothedLongGTelem.None?
       || smoothedCombinedG2WDTelem.None? {
      return None;
    }
    var a, b, c, d := PassThrough(groundSpeedTelem, smoothedFrontRHTelem.value, smoothedRearRHTelem.value,
                                  smoothedCombinedG2WDTelem.value, rawDataPoints);
    assert groundSpeedTelem[..rawDataPoints] == groundSpeedTelem;
    assert smoothedFrontRHTelem.value[..rawDataPoints] == smoothedFrontRHTelem.value;
    assert smoothedRearRHTelem.value[..rawDataPoints] == smoothedRearRHTelem.value;
    assert smoothedCombinedG2WDTelem.value[..rawDataPoints] == smoothedCombinedG2WDTelem.value;
    r := Some((a, b, c, d));
  }
}
