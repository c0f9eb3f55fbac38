# Assetto Corsa aero calculator and camber optimiser: a Dafny model

This project models the numerical core of two Assetto Corsa engineering tools and proves properties about it.

**Aero calculator** (`AssettoCorsaAeroCalculator/car.py`):
- Lookup tables (`readLUT`) and in-place clipping of colour-map data.
- The ride-height envelope grid built from rounded telemetry.
- Rake and ground-height geometry, and collider ground clearance.
- Per-wing lift and drag areas and the whole-car aero numbers.
- The wing-angle state of a `Car`.
- The rear-major aero map.
- The speed-weighted telemetry average.
- The exhaustive ride-height and wing-angle setup search.

**Camber optimiser** (`AssettoCorsaCamberOptimiser/car.py` and the older script `test.py`):
- The tyre grip function `tyreLatD`.
- The axle grip average over lateral-G-filtered telemetry.
- The greedy symmetric and asymmetric camber searches.
- The script's exhaustive 0.1 degree sweep.

**Telemetry scripts** (`aeroMapRHEnvelope.py`, `processingMoTeCData.py`):
- The per-sample ride heights and combined G.
- The moving-average `smooth` with its edge padding.
- The "all"/"cornering" filter, and the MoTeC pass-through loop.

## How the model is built

Numbers are Dafny `real`s.

**Named functions.** `math.sin`, `math.cos`, `math.asin`, `math.sqrt` and `pow` are fields of a `Numeric.Maths` record that every member takes as a parameter.
- Their values are never fixed.
- A lemma that needs a fact about them, such as `pow(F, e - 1) * pow(F, 1 - e) == 1`, states that fact as a precondition.

**Float-stepped loops.** The `while x <= max + step / 2: ... x += step` loops become loops over the exact lattice `min + k * step` (`Lattice.Point`).
- They keep the source's half-step guard.
- `Lattice.Count` is the number of values such a loop visits.

**Rounding.**
- `round(x, 3)` is `Lattice.RoundToMillimetre`, a whole number of millimetres, half to even at exact ties.
- The camber walk's `round(…, 10)` is replaced by the exact `k * camberStep`.
- The sweep's `round(…, 1)` is the exact tenths.

**Errors.**
- Where Python raises, the model returns an `Option` or an `ok` flag:
  - `readLUT` returns `None` for an empty table, which has no `LUT[0]`.
  - `smooth` returns `None` where it would index an empty list.
  - `clipArrayData` and `setWingAngles` set `ok` to false for too short an array or a wrong-sized angle list.
- Divisions by zero become preconditions, for example a zero drag area, an empty telemetry list or a vanishing camber divisor.

**State and data.**
- The aero `Car` is a class whose `wings` field is reassigned by `SetWingAngles`.
- The clippers work in place on `array` and `array2`.
- The camber `CamberCar` holds only values that are read after construction.

**Loops.** Every loop of the source is a `while` or `for` loop in a method. It is proved against a function of the inputs, and that function's properties are lemmas:
- `Lut.ReadLUT` against `Lut.LutValue`;
- `AeroCar.Car.OptimiseAeroRHTelem` against `SetupSearch.Filter`, `SetupSearch.BestSetup` and `SetupSearch.Sweep`;
- `Camber.CamberCar.SearchCamber` against `Camber.LineSearch`;
- `Telemetry.Smooth` against `Telemetry.Smoothed`.

Modules, from the bottom up:
- `Numeric`: sums, weighted sums and means.
- `Lut`: lookup tables.
- `Lattice`: stepped grids and millimetre rounding.
- `Geometry`: stance, ground height and colliders.
- `Aero`: wings and car totals.
- `SetupSearch`: the search's specification.
- `AeroCar`: the module-level grid functions and the `Car` class.
- `Grip`: the tyre and axle grip.
- `Camber`: the greedy searches and `CamberCar`.
- `CamberScript`: `test.py`.
- `Telemetry`: the two scripts.

## Model

| member | source | states |
|---|---|---|
| Lut.LinearInterpolate | AssettoCorsaAeroCalculator/car.py:45-47 | The line passes through (x1, y1) and (x2, y2). Strictly between the keys, the value lies between the two y's. |
| Lut.UpperIndex | AssettoCorsaAeroCalculator/car.py:60-67 | Strictly inside the key range, the bracket search's index is the first u >= 1 whose key is >= x. Every key before it is below x. |
| Lut.UpperIndexUnique | AssettoCorsaAeroCalculator/car.py:60-67 | Any index with that first-key property is the one the search stops at. |
| Lut.LutValue | AssettoCorsaAeroCalculator/car.py:50-70 | The reference definition of readLUT on a non-empty table: the first y at or below the first key, the last y at or above the last key, otherwise the interpolation on the UpperIndex bracket. Its properties are LutClamps, LutBetween and LutAtKey. |
| Lut.ReadLUT | AssettoCorsaAeroCalculator/car.py:50-70 | None exactly for an empty table, where `LUT[0][0]` raises. Otherwise the clamp branches and the `found` search loop return LutValue, for a sorted table or not. |
| Lut.LutClamps | AssettoCorsaAeroCalculator/car.py:55-58 | At or below the first key the result is the first y. At or above the last key the result is the last y. |
| Lut.LutBetween | AssettoCorsaAeroCalculator/car.py:60-70 | Strictly inside the range, the bracket satisfies key[u-1] < x <= key[u], and the result lies between the two bracketing y's. |
| Lut.LutAtKey | AssettoCorsaAeroCalculator/car.py:50-70 | In an ascending table, a query at a key returns exactly that key's y. |
| Lut.UnitTableIsOne | AssettoCorsaAeroCalculator/car.py:88 | The default table [[0, 1], [1, 1]] gives 1 at every x. |
| Lut.MidpointExample | AssettoCorsaAeroCalculator/car.py:45-70 | [[0, 1], [10, 3]] queried at 5 gives 2. |
| Lattice.PointStep | AssettoCorsaAeroCalculator/car.py:153-154 | Adding the step to the k-th grid value gives the (k+1)-th. |
| Lattice.Count | AssettoCorsaAeroCalculator/car.py:140-154 | The guard `v <= max + step/2` holds at the k-th value exactly for k below the count. |
| Lattice.NoPoints | AssettoCorsaAeroCalculator/car.py:141 | Below the range the guard never holds. |
| Lattice.GuardBelowCount | AssettoCorsaAeroCalculator/car.py:141 | The guard holds exactly up to the floor of (max - min) / step + 1/2. |
| Lattice.Values | AssettoCorsaAeroCalculator/car.py:424-433 | The values a stepped loop appends, in order: Count of them, the k-th being min + k * step. |
| Lattice.ValuesInclusive | AssettoCorsaAeroCalculator/car.py:424-428 | A max reached by whole steps is included: n steps give n + 1 values. |
| Lattice.MillimetreExample | AssettoCorsaAeroCalculator/car.py:424-428 | From 0 to 0.002 in 1 mm steps the loop visits 0, 0.001 and 0.002. |
| Lattice.RoundToMillimetre | AssettoCorsaAeroCalculator/car.py:126-127 | round(x, 3) in millimetres is within half a millimetre of x, and even at an exact tie. |
| Lattice.RoundWholeMillimetre | AssettoCorsaAeroCalculator/car.py:126-127 | A whole number of millimetres rounds to itself. |
| Lattice.RoundMonotone | AssettoCorsaAeroCalculator/car.py:126-127 | Rounding preserves order. |
| Geometry.StanceAt | AssettoCorsaAeroCalculator/car.py:363-366 | Given asin 0 = 0, a level car (equal front and rear CG heights) has rake 0 and its CG at that common height, wherever CG_LOCATION puts it. |
| Geometry.StanceBetween | AssettoCorsaAeroCalculator/car.py:363-366 | The CG height is the front CG height at CG_LOCATION 0 and the rear one at 1. It lies between them for a location in [0, 1]. |
| Geometry.GHTransform | AssettoCorsaAeroCalculator/car.py:158-161 | A point level with the CG longitudinally (z = 0) is at the CG height plus its y whatever the rake. Given sin 0 = 0, so is every point at zero rake. |
| Geometry.PosZTransform | AssettoCorsaAeroCalculator/car.py:164-166 | A point at z = 0 stays at 0 under rake. Given cos 0 = 1, every z is unchanged at zero rake. |
| Geometry.Collider.PositionLowerEdges | AssettoCorsaAeroCalculator/car.py:174-182 | Both lower edges are at centre.y - size.y/2. Their z's are size.z apart and centred on centre.z. |
| Geometry.Collider.IsValid | AssettoCorsaAeroCalculator/car.py:184-191 | Given sin 0 = 0, at zero rake a collider is valid exactly when its lower face, CG height + centre.y - size.y/2, is at least the margin above the ground. |
| Geometry.ColliderMarginMonotone | AssettoCorsaAeroCalculator/car.py:184-191 | isValid (both edges' ground heights >= margin) can only turn from true to false as the margin rises. |
| Geometry.RideHeightClear | AssettoCorsaAeroCalculator/car.py:357-374 | Given asin 0 = sin 0 = 0, a level car clears the ground exactly when every collider's lower face, CG height + centre.y - size.y/2, is at least the margin. |
| Geometry.RideHeightMarginMonotone | AssettoCorsaAeroCalculator/car.py:357-374 | Clearance of all colliders is likewise monotone in the margin. |
| Aero.Wing.CalculateWing | AssettoCorsaAeroCalculator/car.py:208-224 | effFrontClA + effRearClA == ClA. |
| Aero.UnitTablesWing | AssettoCorsaAeroCalculator/car.py:214-217 | With unit curve tables, ClA = chord * span * CL_GAIN and CdA = chord * span * CD_GAIN. |
| Aero.UnitWingExample | AssettoCorsaAeroCalculator/car.py:214-215 | Chord 2, span 1, gain 1 and unit tables give ClA 2. |
| Aero.DragFreeWingOverAxle | AssettoCorsaAeroCalculator/car.py:220-222 | A drag-free wing over the front axle loads only the front; one over the rear axle loads only the rear. |
| Aero.ResolveAngles | AssettoCorsaAeroCalculator/car.py:340-344 | Wing i gets the default angle where entry i is None and the given value otherwise. |
| Aero.ResolveExplicit | AssettoCorsaAeroCalculator/car.py:340-344 | A list with no None resolves to itself. |
| Aero.ResolveAllNone | AssettoCorsaAeroCalculator/car.py:340-342 | An all-None list resolves to the defaults. |
| Aero.WithAngles | AssettoCorsaAeroCalculator/car.py:341-344 | Only the ANGLE of each wing changes; every other wing field is kept. |
| Aero.Angles | AssettoCorsaAeroCalculator/car.py:349-355 | The angle of each wing, in order. |
| Aero.AnglesOfWithAngles | AssettoCorsaAeroCalculator/car.py:336-355 | Reading the angles back after setting them returns exactly the angles set. |
| Aero.WithAnglesTwice | AssettoCorsaAeroCalculator/car.py:336-347 | Setting angles twice is the same as setting only the second ones. |
| Aero.WithOwnAngles | AssettoCorsaAeroCalculator/car.py:336-355 | Setting a car's own angles changes nothing. |
| Aero.WithAnglesValid | AssettoCorsaAeroCalculator/car.py:336-347 | Changing angles keeps every lookup table, so the wings stay evaluable. |
| Aero.WingAeros | AssettoCorsaAeroCalculator/car.py:389-390 | One calculateWing result per wing, in order, each splitting its ClA into front and rear. |
| Aero.CarTotals | AssettoCorsaAeroCalculator/car.py:394-396 | From the summed areas: front + rear == total, efficiency * CdA == ClA and aeroBalance * ClA == 100 * front. |
| Aero.AeroOf | AssettoCorsaAeroCalculator/car.py:376-398 | frontClA + rearClA == totalClA. |
| Aero.AeroRatios | AssettoCorsaAeroCalculator/car.py:394-396 | efficiency * totalCdA == totalClA and aeroBalance * totalClA == 100 * frontClA. |
| Aero.RearAreaIsSumOfWings | AssettoCorsaAeroCalculator/car.py:385-393 | The rear area, total minus front, equals the sum of the wings' effective rear areas. |
| Aero.SplitSums | AssettoCorsaAeroCalculator/car.py:223-224 | Summed over wings, total lift minus front lift is the summed rear lift. |
| Aero.PartialSumsColumn | AssettoCorsaAeroCalculator/car.py:722-734 | Each running accumulator after i samples is the weighted sum of its column over the first i samples. |
| Aero.PartialSumsAverage | AssettoCorsaAeroCalculator/car.py:736-741 | Dividing the full sums by the weight sum gives the weighted averages. |
| Aero.SampleAeros | AssettoCorsaAeroCalculator/car.py:723-727 | The reference definition of the per-sample results: calculateAero at each telemetry sample's ride heights, one per sample. TelemAverage, TelemAverageOfConstant and TelemAverageWithinRange state what is averaged from them. |
| Aero.SpeedWeights | AssettoCorsaAeroCalculator/car.py:724 | One speed weighting speed^velocityPower per sample. |
| Aero.Averages | AssettoCorsaAeroCalculator/car.py:736-741 | Each of the six numbers is its column's weighted average. |
| Aero.TelemAverage | AssettoCorsaAeroCalculator/car.py:706-743 | Each number is sum(metric_i * speed_i^velocityPower) / sum(speed_i^velocityPower). |
| Aero.TelemAverageOfConstant | AssettoCorsaAeroCalculator/car.py:706-743 | A number that is the same in every sample averages to that number. |
| Aero.TelemAverageWithinRange | AssettoCorsaAeroCalculator/car.py:706-743 | With non-negative weights, each average lies within the range of the samples. |
| AeroCar.Clip | AssettoCorsaAeroCalculator/car.py:93-97 | The clipped value is within ordered bounds, and a value inside them is unchanged. |
| AeroCar.ClipIdempotent | AssettoCorsaAeroCalculator/car.py:93-97 | Clipping twice is clipping once. |
| AeroCar.ClippedData | AssettoCorsaAeroCalculator/car.py:91-101 | clipArrayData keeps the length. |
| AeroCar.ClippedDataBounds | AssettoCorsaAeroCalculator/car.py:91-101 | Every element lies within the bounds, an element before the last two that was already inside them is unchanged, and the last two are exactly lowerBound and upperBound. |
| AeroCar.ClippedDataIdempotent | AssettoCorsaAeroCalculator/car.py:91-101 | Clipping clipped data changes nothing. |
| AeroCar.ClipArrayData | AssettoCorsaAeroCalculator/car.py:91-101 | Works in place. ok holds exactly when the array has at least 2 elements (otherwise Python raises at [-2]), and the new contents are ClippedData of the old. |
| AeroCar.ClipArrayData2D | AssettoCorsaAeroCalculator/car.py:104-115 | Works in place on a rectangular grid. ok holds exactly when there is a row with 2 or more columns. Every cell is clipped, then [-1][-2] and [-1][-1] are set to the bounds. |
| AeroCar.GetRHEnvelope2D | AssettoCorsaAeroCalculator/car.py:118-156 | Rear-major grid with Count(rear) rows of Count(front) cells. A cell is 1 exactly when its rounded (front, rear) pair equals some rounded telemetry pair, and 0 otherwise. |
| AeroCar.CombinationsMatch | AssettoCorsaAeroCalculator/car.py:130-132 | A rounded pair is in the list of telemetry combinations exactly when some sample rounds to it. |
| AeroCar.SampleOnGridIsInEnvelope | AssettoCorsaAeroCalculator/car.py:140-154 | A telemetry sample lying on a grid point marks that cell. |
| AeroCar.SingleSampleEnvelope | AssettoCorsaAeroCalculator/car.py:118-156 | One sample at (0.010, 0.020) on the 0..0.1 m millimetre grid marks exactly cell [20][10], in a 101-wide grid. |
| AeroCar.SteppedValues | AssettoCorsaAeroCalculator/car.py:424-433 | The RHArray loops list Values(min, max, step). |
| AeroCar.GridMatchesAll | AssettoCorsaAeroCalculator/car.py:436-465 | A full grid holds calculateAero and isValidRideHeight at every (front_f, rear_r). |
| AeroCar.ConsiderSetup | AssettoCorsaAeroCalculator/car.py:797-814 | The innermost loop body: the band check, the append and the three strict updates advance the search state by one setup. |
| AeroCar.ValidSetupsFit | AssettoCorsaAeroCalculator/car.py:778-803 | Every kept setup's angle list has one entry per wing. |
| AeroCar.Car.constructor | AssettoCorsaAeroCalculator/car.py:228-316 | The car holds the given chassis, colliders and wings, and defaultWingAngles are the wings' angles. |
| AeroCar.Car.SetWingAngles | AssettoCorsaAeroCalculator/car.py:336-347 | ok holds exactly when the list length equals the number of wings. In that case each wing's angle is resolved from the list; otherwise nothing changes. |
| AeroCar.Car.GetWingAngles | AssettoCorsaAeroCalculator/car.py:349-355 | Returns the wings' angles, in order. |
| AeroCar.Car.IsValidRideHeight | AssettoCorsaAeroCalculator/car.py:357-374 | True exactly when every collider is valid at the stance of the two ride heights. |
| AeroCar.Car.CalculateAero | AssettoCorsaAeroCalculator/car.py:376-398 | The accumulating loop returns AeroOf (so front + rear == total). |
| AeroCar.Car.GetAeroMap | AssettoCorsaAeroCalculator/car.py:400-467 | RHArray holds the two stepped lists. The grids are rear-major, |rear| by |front|, and cell [r][f] is calculateAero and isValidRideHeight at (front_f, rear_r). |
| AeroCar.Car.AeroMapRow | AssettoCorsaAeroCalculator/car.py:447-463 | One row has Count(front) cells, each matching calculateAero and validity at its front ride height. |
| AeroCar.Car.CalculateAeroRHTelem | AssettoCorsaAeroCalculator/car.py:706-743 | The accumulator loop and the six divisions return TelemAverage. |
| AeroCar.Car.OptimiseAeroRHTelem | AssettoCorsaAeroCalculator/car.py:745-851 | validSetups are the in-band setups of the sweep, in visiting order. The three results are the BestSetup of each goal. The car is left at the max-efficiency setup's angles. ok is false at the first wrong-sized configuration, with the wings left at the previous one. |
| AeroCar.Car.SearchBlock | AssettoCorsaAeroCalculator/car.py:782-815 | One wing configuration's rear and front loops advance the state over that configuration's block of setups. |
| AeroCar.Car.VisitRow | AssettoCorsaAeroCalculator/car.py:782-815 | One pass of the rear loop advances the state over one row. |
| AeroCar.Car.SearchRow | AssettoCorsaAeroCalculator/car.py:785-815 | The front loop advances the state over one row of setups. |
| AeroCar.Car.EvaluateSetup | AssettoCorsaAeroCalculator/car.py:792-794 | Shifting the telemetry by the offsets and averaging gives Evaluate(setup). |
| AeroCar.Car.VisitSetup | AssettoCorsaAeroCalculator/car.py:788-815 | One front offset: evaluate, then consider it. |
| SetupSearch.Baseline | AssettoCorsaAeroCalculator/car.py:769 | The baseline is [0, 0, defaultWingAngles]. |
| SetupSearch.Shifted | AssettoCorsaAeroCalculator/car.py:792-793 | Each ride height is moved by the offset, and the length is kept. |
| SetupSearch.ConfigWings | AssettoCorsaAeroCalculator/car.py:779 | The wings after setWingAngles(config) carry the resolved angles. |
| SetupSearch.Evaluate | AssettoCorsaAeroCalculator/car.py:792-794 | Defined exactly when the configuration fits and the averaging divides by no zero. |
| SetupSearch.Row | AssettoCorsaAeroCalculator/car.py:785-788 | The setups of one front loop, in order, at front offsets min + k * 0.001. |
| SetupSearch.Block | AssettoCorsaAeroCalculator/car.py:783-787 | The reference definition of one configuration's rear and front loops: the rows of setups, rear offset outermost. Its length and index are BlockLength and BlockAt. |
| SetupSearch.BlockLength | AssettoCorsaAeroCalculator/car.py:783-787 | A block holds rearCount * frontCount setups. |
| SetupSearch.BlockAt | AssettoCorsaAeroCalculator/car.py:782-788 | Entry r * nf + f of a configuration's block is the setup (front_f, rear_r, config). |
| SetupSearch.Sweep | AssettoCorsaAeroCalculator/car.py:779-787 | The reference definition of the whole sweep: the blocks of the configurations, in order. Its length and index are SweepLength and SweepAt. |
| SetupSearch.SweepAt | AssettoCorsaAeroCalculator/car.py:778-788 | Entry c * (nr * nf) + r * nf + f of the sweep is (front_f, rear_r, config_c): configuration outermost, then rear, then front. |
| SetupSearch.SweepLength | AssettoCorsaAeroCalculator/car.py:778-788 | The sweep holds |configs| * nr * nf setups. |
| SetupSearch.Filter | AssettoCorsaAeroCalculator/car.py:798-804 | The reference definition of validSetups: the visited setups in the balance band, in the order visited. Its properties are FilterKeeps, FilterInBand, FilterConcat and FilterStep. |
| SetupSearch.FilterKeeps | AssettoCorsaAeroCalculator/car.py:797-803 | A setup is kept exactly when it was visited and its weighted balance is in [target - tol, target + tol]. |
| SetupSearch.FilterInBand | AssettoCorsaAeroCalculator/car.py:757-758 | Every kept setup is inside the band. |
| SetupSearch.FilterConcat | AssettoCorsaAeroCalculator/car.py:778-803 | Filtering splits over concatenation, so kept setups stay in visiting order. |
| SetupSearch.FilterStep | AssettoCorsaAeroCalculator/car.py:797-803 | One more visited setup is appended exactly when it is in the band. |
| SetupSearch.Goal.Metric | AssettoCorsaAeroCalculator/car.py:806-814 | Each goal compares one of the six averaged numbers. |
| SetupSearch.Scores | AssettoCorsaAeroCalculator/car.py:806-814 | The goal's number for each valid setup, in order. |
| SetupSearch.Score | AssettoCorsaAeroCalculator/car.py:795-814 | The goal's averaged number of a setup, or 0 for one that cannot be evaluated, which the band never keeps. |
| SetupSearch.BestIndex | AssettoCorsaAeroCalculator/car.py:806-814 | The best is -1 (the mark stands) or an index of a valid setup. |
| SetupSearch.BestSetup | AssettoCorsaAeroCalculator/car.py:769-772 | Each reported best is the baseline or a member of validSetups. |
| SetupSearch.Best | AssettoCorsaAeroCalculator/car.py:806-814 | The running best value is the starting mark or the score of some valid setup. |
| SetupSearch.BestIsFirstOptimum | AssettoCorsaAeroCalculator/car.py:764-814 | No valid setup beats the reported best. The reported best beats the -999/999 mark. It strictly beats every earlier setup, so the first one found wins ties. |
| SetupSearch.BestStep | AssettoCorsaAeroCalculator/car.py:806-814 | One more valid setup replaces a running best exactly when it beats it strictly. |
| SetupSearch.NoValidSetupKeepsBaseline | AssettoCorsaAeroCalculator/car.py:769-772 | With no valid setup, all three bests are the baseline. |
| SetupSearch.ProgressOf | AssettoCorsaAeroCalculator/car.py:764-814 | The search state's valid setups are the filtered visited setups. |
| SetupSearch.ProgressStart | AssettoCorsaAeroCalculator/car.py:764-775 | Before the loops: no valid setups, marks -999, 999 and -999, and the baseline for all three. |
| SetupSearch.ProgressStep | AssettoCorsaAeroCalculator/car.py:797-814 | Out of band nothing changes. In band the setup is appended, then each of the three bests it strictly beats is replaced. |
| SetupSearch.RowStep | AssettoCorsaAeroCalculator/car.py:785-815 | One more front offset extends the visited row. |
| SetupSearch.BlockStep | AssettoCorsaAeroCalculator/car.py:782-815 | One more rear offset extends the visited block. |
| Grip.TyreLatD | AssettoCorsaCamberOptimiser/car.py:24-35 | Zero whenever Fz <= 0, whatever the camber. |
| Grip.LoadedGrip | AssettoCorsaCamberOptimiser/car.py:29-35 | For a loaded tyre, grip times the camber divisor is the load-sensitive D. |
| Grip.ReferenceGrip | AssettoCorsaCamberOptimiser/car.py:29-35 | Given pow(F, e-1) * pow(F, 1-e) = 1 and pow(0, 2) = 0: tyreLatD(FZ0, 0) == DY_REF. |
| Grip.CamberScalesGrip | AssettoCorsaCamberOptimiser/car.py:29-35 | Camber acts only through the multiplier: grip times divisor is independent of camber. |
| Grip.UnloadedSample | AssettoCorsaCamberOptimiser/car.py:171-174 | A sample whose axle load is <= 0 contributes 0. |
| Grip.SampleBetweenTyres | AssettoCorsaCamberOptimiser/car.py:171-176 | With non-negative loads, a sample lies between its two tyres' grips, at the cambers the corner direction gives. |
| Grip.LoadWeightedBetween | AssettoCorsaCamberOptimiser/car.py:176 | The load-weighted average of two grips lies between them. |
| Grip.SampleMirror | AssettoCorsaCamberOptimiser/car.py:160-169 | A corner the other way, with the sides exchanged, gives the same sample grip: the negated camber moves to the other tyre. |
| Grip.AxleTelemetry.WithOffsets | AssettoCorsaCamberOptimiser/car.py:156-157 | The trial camber lists are each camber plus its offset. |
| Grip.SampleLatD | AssettoCorsaCamberOptimiser/car.py:160-176 | The reference definition of one sample: the sign flip by corner direction, then the load-weighted tyre average, or 0 for an unloaded axle. Its properties are UnloadedSample, SampleBetweenTyres and SampleMirror. |
| Grip.AxleLatDs | AssettoCorsaCamberOptimiser/car.py:159-176 | One value per sample: the flipped-sign, load-weighted tyre average, or 0 for an unloaded axle. |
| Grip.AxleAvgLatD | AssettoCorsaCamberOptimiser/car.py:153-178 | The reference definition of frontAxleAvgLatD: the plain mean of AxleLatDs. Its properties are AxleAvgWithinSamples, UnloadedAxle and OffsetsCommute. |
| Grip.AxleAvgWithinSamples | AssettoCorsaCamberOptimiser/car.py:178 | The plain mean lies within any bounds every sample lies within. |
| Grip.UnloadedAxle | AssettoCorsaCamberOptimiser/car.py:171-178 | An axle that never carries load averages to 0. |
| Grip.OffsetsCommute | AssettoCorsaCamberOptimiser/car.py:156-157 | Offsetting the camber lists first gives the same average as passing the offsets. |
| Grip.ComputeAxleAvgLatD | AssettoCorsaCamberOptimiser/car.py:153-178 | The append loop and sum / len return AxleAvgLatD. |
| Grip.AxleLatDArray | AssettoCorsaCamberOptimiser/car.py:159-176 | The loop builds exactly AxleLatDs. |
| Grip.SampleStep | AssettoCorsaCamberOptimiser/car.py:161-176 | One pass of the axle loop computes SampleLatD. |
| Camber.FirstTrial | AssettoCorsaCamberOptimiser/car.py:216-220 | The first trial: the grip one step up when camberMaxOffset allows that step, otherwise the initial 0. |
| Camber.Climb | AssettoCorsaCamberOptimiser/car.py:228-245 | The reference definition of the walk's while loop, by recursion on the steps left. Its properties are ClimbOutcome and ClimbStep. |
| Camber.LineSearch | AssettoCorsaCamberOptimiser/car.py:210-245 | The whole search from offset 0. Its result never has less grip than the baseline; LineSearchFacts gives the rest. |
| Camber.WithinBound | AssettoCorsaCamberOptimiser/car.py:228 | An offset inside the limits leaves a non-negative number of steps, so the walk terminates. |
| Camber.ClimbStep | AssettoCorsaCamberOptimiser/car.py:228-234 | Inside the limits and still improving, the walk evaluates the next offset and keeps it if it beats the best. |
| Camber.ClimbOutcome | AssettoCorsaCamberOptimiser/car.py:228-245 | The walk never ends below the best it started with. It ends at its start or at a trial on its own side of the limits, with the grip measured there. |
| Camber.LineSearchFacts | AssettoCorsaCamberOptimiser/car.py:207-245 | The listed properties of the search result (see below the table). |
| Camber.ImprovementPercent | AssettoCorsaCamberOptimiser/car.py:248 | For a positive baseline, the percentage is positive exactly when the best beats it, and zero exactly when they are equal. |
| Camber.CurveValue | AssettoCorsaCamberOptimiser/car.py:153-178 | The searched function is the axle grip at the mode's offsets. |
| Camber.CamberCar.constructor | AssettoCorsaCamberOptimiser/car.py:39-151 | The car holds the two tyres and the nine filtered channels. |
| Camber.CamberCar.FrontAxleAvgLatD | AssettoCorsaCamberOptimiser/car.py:153-178 | frontAxleAvgLatD is AxleAvgLatD on the front tyre and the FL and FR channels. |
| Camber.CamberCar.RearAxleAvgLatD | AssettoCorsaCamberOptimiser/car.py:180-205 | rearAxleAvgLatD is the same rule on the rear tyre and the RL and RR channels. |
| Camber.CamberCar.Evaluate | AssettoCorsaCamberOptimiser/car.py:309 | One trial calls the axle method with the mode's offsets: (x, x), (x, 0) or (0, x). |
| Camber.CamberCar.SearchCamber | AssettoCorsaCamberOptimiser/car.py:209-245 | The baseline, the single step up and the walk return LineSearch of the axle grip. The baseline value is the grip at offset 0. |
| Camber.CamberCar.Walk | AssettoCorsaCamberOptimiser/car.py:226-245 | The while loop returns Climb from its starting state. |
| Camber.CamberCar.WalkStep | AssettoCorsaCamberOptimiser/car.py:229-234 | One loop body evaluates the offset and keeps it on a strict improvement. |
| Camber.CamberCar.OptimiseSymmetric | AssettoCorsaCamberOptimiser/car.py:207-248 | The reported offset is the LineSearch result with both cambers moved. The improvement is ImprovementPercent against offset 0 and is never negative for a positive baseline. |
| Camber.CamberCar.OptimiseAsymmetric | AssettoCorsaCamberOptimiser/car.py:293-374 | The left search holds the right at 0 and the right search holds the left at 0, both from the baseline. Only the improvement evaluates the pair. |
| Camber.CamberCar.OptimiseFrontCamberSymmetric | AssettoCorsaCamberOptimiser/car.py:207-248 | OptimiseSymmetric on the front axle. |
| Camber.CamberCar.OptimiseRearCamberSymmetric | AssettoCorsaCamberOptimiser/car.py:250-291 | The rear method mirrors the front one, on the rear tyre and the RL and RR channels. |
| Camber.CamberCar.OptimiseFrontCamberAsymmetric | AssettoCorsaCamberOptimiser/car.py:293-374 | OptimiseAsymmetric on the front axle. |
| Camber.CamberCar.OptimiseRearCamberAsymmetric | AssettoCorsaCamberOptimiser/car.py:376-457 | The rear method mirrors the front one. |
| CamberScript.ScriptTyreLatD | AssettoCorsaCamberOptimiser/test.py:28-41 | The script's grip is zero whenever Fz <= 0. |
| CamberScript.ScriptTyreAgrees | AssettoCorsaCamberOptimiser/test.py:28-41 | Defined exactly where Tyre.tyreLatD is, and equal to it for the same tyre data. |
| CamberScript.AxleOf | AssettoCorsaCamberOptimiser/test.py:45-66 | The five lists, cut to the length of latG, as an axle record. |
| CamberScript.AxleLoop | AssettoCorsaCamberOptimiser/test.py:45-66 | The script's axle loop (same sign flip, zero-load rule and mean) returns the class's AxleAvgLatD at zero offsets. |
| CamberScript.SampleByScript | AssettoCorsaCamberOptimiser/test.py:48-61 | One pass of the script's loop computes the class's SampleLatD. |
| CamberScript.FrontAxleAvgLatD | AssettoCorsaCamberOptimiser/test.py:45-66 | The front function is that loop with the front tyre data. |
| CamberScript.RearAxleAvgLatD | AssettoCorsaCamberOptimiser/test.py:69-90 | The rear function is that loop with the rear tyre data. |
| CamberScript.Shift | AssettoCorsaCamberOptimiser/test.py:323-326 | [i + x for i in s]: same length, every element moved by x. |
| CamberScript.RoundToTenth | AssettoCorsaCamberOptimiser/test.py:340 | round(x, 1) is a whole number of tenths within 0.05 of x. |
| CamberScript.NextSweepOffset | AssettoCorsaCamberOptimiser/test.py:340 | Adding 0.1 to the j-th offset and rounding gives the (j+1)-th. |
| CamberScript.RoundWholeTenths | AssettoCorsaCamberOptimiser/test.py:340 | A whole number of tenths rounds to itself. |
| CamberScript.SweepGuard | AssettoCorsaCamberOptimiser/test.py:320-321 | The guard offset < 5 + 0.1 holds exactly for the 101 offsets -5.0, -4.9, ..., 5.0. |
| CamberScript.SweepValues | AssettoCorsaCamberOptimiser/test.py:321-330 | Each axle's average at each offset, in order. |
| CamberScript.SweepOffsets | AssettoCorsaCamberOptimiser/test.py:316-340 | The 101 offsets, in order. |
| CamberScript.FirstMax | AssettoCorsaCamberOptimiser/test.py:311-338 | The best after n trials is the starting (0, 0) or the offset and value of one of those trials. |
| CamberScript.FirstMaxFacts | AssettoCorsaCamberOptimiser/test.py:311-338 | Starting from offset 0 and value 0: no trial exceeds the best, and the best strictly beats every earlier trial, so the first maximum wins. With no trial above 0, the result is offset 0 with value 0. Otherwise it is a trial's offset and value. |
| CamberScript.FirstMaxStep | AssettoCorsaCamberOptimiser/test.py:333-338 | One more trial moves the best exactly on a strict >. |
| CamberScript.Sweep | AssettoCorsaCamberOptimiser/test.py:311-340 | The sweep returns, per axle, the first maximum over the 101 offsets. |
| CamberScript.SweepStep | AssettoCorsaCamberOptimiser/test.py:322-338 | One pass updates both axles' bests by the first-max rule. |
| CamberScript.TrialAxle | AssettoCorsaCamberOptimiser/test.py:323-330 | One axle at the j-th offset gives that axle's j-th sweep value. |
| CamberScript.SweepNoWorse | AssettoCorsaCamberOptimiser/test.py:311-340 | Offset 0 is among the trials, so the reported best is never below the original grip. |
| CamberScript.SweepIsSymmetric | AssettoCorsaCamberOptimiser/test.py:322-330 | Each trial is the class's symmetric objective at that offset: the same offset on all four corners. |
| Telemetry.AxleRideHeight | AssettoCorsaAeroCalculator/aeroMapRHEnvelope.py:75-76 | (left + right) / 2 / 1000: 2000 * rh = left + right, between the two corners in metres. |
| Telemetry.CombinedG2WDBraking | AssettoCorsaAeroCalculator/aeroMapRHEnvelope.py:82-85 | With longitudinal G <= 0, combinedG2WD == combinedG. |
| Telemetry.CombinedG2WDNotBelow | AssettoCorsaAeroCalculator/aeroMapRHEnvelope.py:80-85 | With pow(x, 2) = x * x and sqrt non-decreasing, the 2WD combined G is never below the plain one. |
| Telemetry.CombinedGOf | AssettoCorsaAeroCalculator/aeroMapRHEnvelope.py:80 | sqrt(pow(latG, 2) + pow(longG, 2)). |
| Telemetry.CombinedG2WDOf | AssettoCorsaAeroCalculator/aeroMapRHEnvelope.py:82-85 | The same with a positive longitudinal G doubled; its properties are CombinedG2WDBraking and CombinedG2WDNotBelow. |
| Telemetry.ReadSample | AssettoCorsaAeroCalculator/aeroMapRHEnvelope.py:73-85 | The row's channels from columns 63, 90-93, 22 and 23, with the two facts above. |
| Telemetry.Channel | AssettoCorsaAeroCalculator/aeroMapRHEnvelope.py:73-85 | One channel of every sample, in order. |
| Telemetry.WindowMean | AssettoCorsaAeroCalculator/aeroMapRHEnvelope.py:35-39 | One moving-average point: the mean of the 2 * sp + 1 values centred on the index. |
| Telemetry.WindowSumIsSum | AssettoCorsaAeroCalculator/aeroMapRHEnvelope.py:36-38 | movingSum is the sum of the 2 * sp + 1 values centred on the index. |
| Telemetry.Smoothed | AssettoCorsaAeroCalculator/aeroMapRHEnvelope.py:29-45 | None (the IndexError at line 43) exactly when sp > 0 and len <= 2 * sp. Otherwise the result has the input's length. |
| Telemetry.SmoothedWindows | AssettoCorsaAeroCalculator/aeroMapRHEnvelope.py:35-44 | Interior points are centred window means. The sp points at each end repeat the first or last window mean. |
| Telemetry.SmoothedZero | AssettoCorsaAeroCalculator/aeroMapRHEnvelope.py:35-39 | With smoothingPoints 0 the output is an element-wise copy. |
| Telemetry.SmoothedConstant | AssettoCorsaAeroCalculator/aeroMapRHEnvelope.py:35-44 | A constant input smooths to itself. |
| Telemetry.PaddedIsSmoothed | AssettoCorsaAeroCalculator/aeroMapRHEnvelope.py:42-44 | The moving averages padded with sp copies of their first and last values are the smoothed telemetry. |
| Telemetry.Padded | AssettoCorsaAeroCalculator/aeroMapRHEnvelope.py:42-44 | After i padding rounds the list is i longer at each end. |
| Telemetry.PadStep | AssettoCorsaAeroCalculator/aeroMapRHEnvelope.py:43-44 | insert(0, first) followed by insert(-1, last) adds one copy at each end. |
| Telemetry.Smooth | AssettoCorsaAeroCalculator/aeroMapRHEnvelope.py:29-45 | The append loop, the nested moving sum and the insert loop return Smoothed. |
| Telemetry.MovingAverages | AssettoCorsaAeroCalculator/aeroMapRHEnvelope.py:35-39 | The mean of every full window, in order: n - 2 * sp of them, or none. |
| Telemetry.MovingSum | AssettoCorsaAeroCalculator/aeroMapRHEnvelope.py:36-38 | The inner loop returns WindowSum. |
| Telemetry.Abs | AssettoCorsaAeroCalculator/aeroMapRHEnvelope.py:106 | abs(x) is non-negative and equals x or -x. |
| Telemetry.KeepMask | AssettoCorsaAeroCalculator/aeroMapRHEnvelope.py:100-112 | "all" keeps every sample. "cornering" keeps combined > 1 with |longG| < 0.25 * combined, on the 2WD channel for a 2WD car. Any other mode keeps nothing. |
| Telemetry.Keeps | AssettoCorsaAeroCalculator/aeroMapRHEnvelope.py:101-112 | One sample's filter decision: always under "all"; under "cornering", combined G above 1 with |longG| below a quarter of it, on the 2WD channel for a 2WD car; never otherwise. |
| Telemetry.Kept | AssettoCorsaAeroCalculator/aeroMapRHEnvelope.py:100-112 | The values whose mask entry is true, in order; never more than the input. |
| Telemetry.KeptIndices | AssettoCorsaAeroCalculator/aeroMapRHEnvelope.py:100-112 | The indexes whose mask entry is true, each inside the mask; never more than the mask. |
| Telemetry.KeptStep | AssettoCorsaAeroCalculator/aeroMapRHEnvelope.py:100-112 | One more sample extends the kept values by that sample exactly when its mask entry is true. |
| Telemetry.KeptIndicesFacts | AssettoCorsaAeroCalculator/aeroMapRHEnvelope.py:100-112 | The kept indexes increase, and are exactly the samples the mask keeps. |
| Telemetry.KeptSelects | AssettoCorsaAeroCalculator/aeroMapRHEnvelope.py:100-112 | The output is the values at the kept indexes, in order. |
| Telemetry.KeptSameLength | AssettoCorsaAeroCalculator/aeroMapRHEnvelope.py:100-112 | Two channels filtered by one mask keep the same count. |
| Telemetry.KeptAll | AssettoCorsaAeroCalculator/aeroMapRHEnvelope.py:101-103 | A mask that keeps all keeps every value in order. |
| Telemetry.FilterEnvelopeTelemetry | AssettoCorsaAeroCalculator/aeroMapRHEnvelope.py:96-112 | The filter loop returns the front and rear ride heights the mask keeps, and the two have equal length. |
| Telemetry.EnvelopeTelemetry | AssettoCorsaAeroCalculator/aeroMapRHEnvelope.py:89-112 | None exactly when smoothing fails. |
| Telemetry.EnvelopeAll | AssettoCorsaAeroCalculator/aeroMapRHEnvelope.py:101-103 | Under "all" the result is the smoothed ride heights, unfiltered. With no smoothing it is the raw per-axle ride heights. |
| Telemetry.EnvelopeCornering | AssettoCorsaAeroCalculator/aeroMapRHEnvelope.py:104-112 | Under "cornering", sample i is kept exactly when the cornering test holds on its smoothed channels. |
| Telemetry.ProcessEnvelopeTelemetry | AssettoCorsaAeroCalculator/aeroMapRHEnvelope.py:89-112 | Smoothing the five channels and filtering returns EnvelopeTelemetry. |
| Telemetry.MotecTelemetry | AssettoCorsaAeroCalculator/processingMoTeCData.py:92-109 | None exactly for 4 samples or fewer. Otherwise four outputs of length rawDataPoints: raw ground speed plus the smoothed ride heights and 2WD combined G. |
| Telemetry.PassThrough | AssettoCorsaAeroCalculator/processingMoTeCData.py:104-109 | The always-true filter loop copies each input's first rawDataPoints values. |
| Telemetry.ProcessMotecTelemetry | AssettoCorsaAeroCalculator/processingMoTeCData.py:92-109 | Smoothing four channels with smoothingPoints 2 and passing through returns MotecTelemetry. |
| Numeric.WeightedSumBounds | AssettoCorsaAeroCalculator/car.py:722-734 | With non-negative weights and values in [lo, hi], the weighted sum lies in [lo, hi] times the weight sum. |
| Numeric.WeightedAverageConstant | AssettoCorsaAeroCalculator/car.py:736-741 | The weighted average of a constant is that constant. |
| Numeric.WeightedAverageBounds | AssettoCorsaAeroCalculator/car.py:736-741 | With non-negative weights, the average lies within the values' bounds. |
| Numeric.MeanConstant | AssettoCorsaAeroCalculator/aeroMapRHEnvelope.py:39 | The mean of a constant window is that constant. |
| Numeric.MeanBounds | AssettoCorsaCamberOptimiser/car.py:178 | A mean lies within any bounds every element lies within. |

`Camber.LineSearchFacts` proves these properties of the search result:
- It is never below the baseline grip.
- Offset 0 means the baseline.
- The result is positive exactly when the +step trial beat the baseline.
- Any other result is a trial k * step inside the limits, carrying the grip measured there. The exception is when step > maxOffset: the source then reports (step, 0) without evaluating that step.
- A baseline <= 0 never starts the downward walk.

## Left out

- Reading files is not modelled: the `tyres.ini`, `car.ini`, `suspensions.ini` and `aero.ini` parsing in both `Car.__init__` methods, `readLUTFile`'s file branch, and the CSV reading loops of `test.py`, `aeroMapRHEnvelope.py` and `processingMoTeCData.py`.
  - This includes the camber car's `|latG| >= threshold` row filter. `Camber.CamberCar.constructor` takes the channels already filtered.
  - The scripts' rows arrive as `Telemetry.Sample`s.
- Output is not modelled:
  - plotting (`plotAeroMap`, `plotAeroMaps`, the envelope script's final `plotAeroMaps` call);
  - `__str__`, and every `print` except the camber optimisers' grip improvement, which their methods return;
  - the `round(…, 3)` display rounding.
- `AeroCar.Car.OptimiseAeroRHTelem`: the three final `setWingAngles` calls are modelled, but the recomputation of each best setup's numbers, which is done only for printing, is not.
  - The per-setup CSV print also indexes `wingAngles[0]` and `wingAngles[1]`, so it raises for a car with fewer than two wings once a setup is in band. That print is not modelled.
- `main.py`, `aeroMaps.py` and `optimiseAero.py` are scripts that only wire the core together. They are not part of this model.
- IEEE-754 arithmetic is not modelled:
  - Stepped loops are exact lattices.
  - The camber walk's `round(…, 10)` is the exact k * camberStep.
  - The sweep's `round(…, 1)` is exact tenths.
  - The model therefore says nothing about float drift at the edges of a range.
- The values of sine, cosine, arcsine, square root and power are not modelled. They are parameters, and a property that needs one of their facts takes that fact as a precondition.
- Division by zero is a precondition rather than a modelled error:
  - in efficiency and aero balance;
  - in the weight sum of `calculateAeroRHTelem`;
  - in the axle mean over empty telemetry;
  - in the tyre's camber divisor;
  - in `asin(…/WHEELBASE)`;
  - in the camber optimisers' grip improvement, `(best - current) / current * 100` (AssettoCorsaCamberOptimiser/car.py:248, 291, 374, 457). The Optimise methods of `Camber.CamberCar` require a non-zero baseline grip at offset 0, where the source prints the optimum offset and then raises ZeroDivisionError.
- Geometry.StanceAt: `asin` is a total parameter, so the model returns a stance where `math.asin` raises ValueError because |(rear CG height - front CG height) / wheelbase| > 1 (AssettoCorsaAeroCalculator/car.py:366, 383). Ride heights that far apart are not physical for a car.
- Camber.CamberCar.SearchCamber: requires camberStep > 0.
  - With a step of 0 the source evaluates offset 0 again and returns the baseline, (0, currentAvgLatD). The model does not cover this case.
  - With a negative step the source walks the wrong way and may not terminate.
- Camber.CamberCar.OptimiseAsymmetric: each of the two searches evaluates the baseline itself. The source evaluates it once and reuses the value, which gives the same numbers.
- AeroCar.ClipArrayData2D: only rectangular grids are modelled, such as the ones getAeroMap builds. The source takes a list of lists that may be ragged, and then only the last row's length decides whether `[-1][-2]` raises.
- Camber.Searchable: requires the axle grip to be defined at every camberStep multiple within the limits, ±1000 by default, not only at the trials the walk reaches before it stops.
  - This holds for the tyres.ini data the optimiser is used with: their camber divisor 1 + 1.146γ + 8.2γ² has no real root.
  - For a tyre whose divisor vanishes at some far offset, the model says nothing, even though the source would stop before reaching it.
- The readLUT end cases:
  - A one-entry table returns its single y, because the code's clamp branches come first. This model follows the code, not a reading that requires two entries.
  - An empty table makes `Lut.ReadLUT` return None, but a wing must have four non-empty tables (`Aero.Wing.Valid`). So the IndexError that calculateWing raises for a wing with an empty table is excluded from `CalculateWing`, `CalculateAero`, `GetAeroMap` and `OptimiseAeroRHTelem`, not modelled as an error.
- Wing aliasing, i.e. `Car.wings` entries shared with other objects, is not modelled. The wings are values inside the car.
- Aero.TelemetryAveraged: requires the ride-height lists to be as long as the ground-speed list. The source loops over `len(groundSpeedTelem)` and ignores any extra ride heights; every caller passes channels of one length.
- CamberScript.AxleLoop: requires non-empty telemetry, because the script divides by `len`.
- Telemetry.FilterEnvelopeTelemetry: requires every smoothed channel to cover rawDataPoints, although the "all" branch reads only the ride heights. The scripts always pass channels of that length.
- Telemetry.MotecTelemetry: smoothingPoints is the script's constant 2, and the smoothed longitudinal G the script computes but never uses is not part of the result.
