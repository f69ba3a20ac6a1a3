# CoastProc wave–sediment engine: the grid bookkeeping

This project models the core of CoastProc's wave and sediment engine (the `wave` class and its driver
`runWaveSed` in `notebooks/LongTerm/wavesed/wave.py`). Given a bathymetry grid and a sea level, the
engine does the following:
- Finds the land and the sea, and marks lakes.
- Builds a wave-source mask on the boundary for each wave direction.
- Runs a linear-wave kernel. The model then applies the engine's own clips and masks to the kernel's
  output: the McCowan breaking limit, the travel-time fill, the nearshore transport direction, and the
  zeroing of every field on land.
- Derives the sediment entrainment from the shear stress, with a noise floor, a clamp at 0 and a cap at
  a quarter of the depth.
- Splits the transport into signed unit fractions.
- Redistributes the deposit while keeping its volume, cuts deposition well above water, and updates the
  elevation and the depth.
- When the computation grid is coarser than the bathymetry grid, projects the results back to the
  bathymetry grid.
- Accumulates a percentage-weighted average over the wave scenarios, each run on the terrain the
  previous scenario left.

The numerical kernels are not part of the model. They are fields of `Numerics.Kernels`, so every
statement here holds whatever they compute. This covers:
- the compiled Airy, transport and diffusion models;
- Gaussian filtering, spline resampling, gradients and `arctan2`;
- `log`, `sqrt`, `power`, `sinh`;
- contour tracing and point-in-polygon.

How the model is laid out:
- Grids are values (`Grids.Grid`, rows of exact reals).
- Each per-cell rule is a function in `CellRules`.
- Each method of `wave` has a grid-level definition in `Source`, `Shoreline`, `Land`, `Waves` and
  `Sediment`.
- The class `Engine.Wave` holds the engine's state in three records: the terrain, the wave fields and
  the sediment fields. Its methods update those records.
- Each method is proved to leave exactly the state the grid-level definition describes. The masked
  in-place assignments (`a[mask] = v`) are run on local arrays by the step methods of `WaveOps`,
  `SedOps` and `Engine`.
- `runWaveSed`'s loop is the method `Driver.RunScenarios`. It is proved equal to `Driver.RunFrom`, which
  folds the scenarios one after the other.
- Failures are `Outcomes.Fault` values, not exceptions: an unbound `contourPts`, unbound accumulators, a
  forcing list too short, and the two divisions by zero that numpy would turn into inf/NaN.

Where the code and its documentation differ, the model follows the code:
- The lake pass of `findland` only sets `inland` to 1 on the cells enclosed by a closed contour that lie
  below sea level. It does not move them from the sea cells to the land cells. So the breaking limit,
  the land zeroing and the entrainment cap still treat lake cells as sea.
- The sea and land cells are computed once by `findland`. The elevation updates of later scenarios do not
  refresh them, so a later scenario can see a "sea" cell whose depth is no longer positive.
  That is why the entrainment bounds of `Sediment.EntrainmentNonNegative` are stated on a terrain whose
  cells agree with the sign of the depth (`Sediment.Consistent`), which `findland` establishes
  (`Sediment.FindLandConsistent`).

## Model

| member | source | states |
|---|---|---|
| VanRijn.Regime | notebooks/LongTerm/wavesed/wave.py:235-244 | the regime index is 0..4, and each index holds exactly on its diameter range, with the thresholds 4, 10, 20 and 150 |
| VanRijn.CriticalShearIsTableLookup | notebooks/LongTerm/wavesed/wave.py:235-244 | the five nested branches equal a lookup in the (upper bound, coefficient, exponent) table, and the band chosen is the one `Regime` names |
| Engine.VanRijnShear | notebooks/LongTerm/wavesed/wave.py:235-244 | the constructor's branch statements compute both the nested-branch shear and the table lookup |
| Setup.Configure | notebooks/LongTerm/wavesed/wave.py:225-308 | the resolution factor is any real; one of at most 1 becomes 1, with the computation grid equal to the bathymetry grid; a larger factor scales the spacing; the critical shear is the table's value for the grain's diameter; every other parameter is stored unchanged |
| Engine.Wave.constructor | notebooks/LongTerm/wavesed/wave.py:185-318 | the engine's parameters are those of `Configure`; `ds` and `tau_cr` are set; the terrain holds the bathymetry, the resampled coarse grid when the factor exceeds 1, sea level 0, and no depth, inland mask or land/sea cells yet; every wave and sediment field is empty, as the source's `None` |
| Source.SourceMask | notebooks/LongTerm/wavesed/wave.py:333-366 | the mask has the shape of the computation grid, holds only -2 and 0, and is -2 on every land cell |
| Source.SourceCases | notebooks/LongTerm/wavesed/wave.py:338-364 | for each direction case (0, 90, 180, 270, the four open quadrants, and negative), a cell is open if and only if it is not land and lies on the side or corner that case selects; a negative direction opens nothing |
| Source.QuadrantOpensAtMostOneCell | notebooks/LongTerm/wavesed/wave.py:352-362 | a direction that is not axis-aligned opens at most one cell |
| Source.InteriorIsBlocked | notebooks/LongTerm/wavesed/wave.py:338-362 | an interior cell is blocked for every direction |
| Engine.OpenBoundary | notebooks/LongTerm/wavesed/wave.py:339-362 | the branch statements on the filled array open exactly the cells on the selected boundary |
| Engine.Wave.WaveSource | notebooks/LongTerm/wavesed/wave.py:322-366 | fill, open and land override on a fresh array give exactly `SourceMask` on the engine's land cells |
| Shoreline.ScaleFlipKeepsClosed | notebooks/LongTerm/wavesed/wave.py:383-396 | scaling and flipping a closed contour leaves it closed |
| Shoreline.Examined | notebooks/LongTerm/wavesed/wave.py:386-387 | exactly the first `len // 2` traced contours are examined, each scaled and flipped |
| Shoreline.Close | notebooks/LongTerm/wavesed/wave.py:404-407 | the contour followed by its first vertex: one vertex longer, the same prefix, and closed |
| Shoreline.KeptContoursAppend | notebooks/LongTerm/wavesed/wave.py:392-419 | the filter distributes over concatenation, so the kept contours keep their order |
| Shoreline.ConcatAppend | notebooks/LongTerm/wavesed/wave.py:420-424 | the concatenation of kept vertices distributes over the list of contours |
| Shoreline.KeptContoursMembers | notebooks/LongTerm/wavesed/wave.py:392-419 | a polyline is in the result if and only if some examined contour has more than two vertices after preparation, is longer than `mlen`, and prepares to it |
| Shoreline.KeptContoursShape | notebooks/LongTerm/wavesed/wave.py:404-419 | every kept contour has more than two vertices, and it is closed exactly when the contour it came from was traced closed |
| Shoreline.OpenStaysOpen | notebooks/LongTerm/wavesed/wave.py:394-416 | preparation makes a contour closed exactly when it was traced closed |
| Shoreline.ShorelineFailsIffNothingKept | notebooks/LongTerm/wavesed/wave.py:388-426 | the shoreline fails (unbound `contourPts`) if and only if no examined contour passes the filter |
| Shoreline.ShorelineIgnoresSecondHalf | notebooks/LongTerm/wavesed/wave.py:386-387 | two traced lists with the same first half give the same shoreline |
| Engine.ScaleContours | notebooks/LongTerm/wavesed/wave.py:383-384 | the in-place loop leaves every contour scaled and flipped |
| Engine.PrepareContour | notebooks/LongTerm/wavesed/wave.py:393-416 | the loop body's vertices and length are the contour's `Measure` |
| Engine.KeepContours | notebooks/LongTerm/wavesed/wave.py:388-424 | the loop's `contourList` is the kept contours in order; `start` stays set exactly when nothing was kept; otherwise `contourPts` is their concatenation |
| Engine.ShorelineStep | notebooks/LongTerm/wavesed/wave.py:382-426 | `compute_shoreline` on the traced contours is `ShorelineOf`, with failure exactly when nothing is kept |
| Engine.Wave.ComputeShoreline | notebooks/LongTerm/wavesed/wave.py:368-426 | the method returns `ShorelineOf` of the contours traced on the bathymetry at the engine's sea level |
| Land.PartitionIsExact | notebooks/LongTerm/wavesed/wave.py:450-454 | the sea cells are exactly those with depth > 0 and the land cells exactly those with depth <= 0; the two sets are disjoint and cover the grid; before the lake pass `inland` is 0 exactly on sea cells and 1 elsewhere |
| Land.LakePassAt | notebooks/LongTerm/wavesed/wave.py:459-468 | after the lake loop a cell is 1 if and only if some closed contour encloses it and it is below sea level; every other cell keeps its value |
| Land.FindLandInland | notebooks/LongTerm/wavesed/wave.py:450-468 | after `findland`, `inland` is 0 exactly on the sea cells outside every lake; the lake pass only changes 0 to 1, and only on cells below sea level |
| Land.FindLandIdempotent | notebooks/LongTerm/wavesed/wave.py:438-468 | `findland` keeps the elevations and records the level; running it again with the same level gives the same terrain |
| Sediment.FindLandConsistent | notebooks/LongTerm/wavesed/wave.py:450-454 | after `findland` the sea and land cells agree with the sign of the depth |
| Engine.OpenWaterMask | notebooks/LongTerm/wavesed/wave.py:450-453 | ones with 0 written on the sea cells give the open-water mask |
| Engine.MarkLake | notebooks/LongTerm/wavesed/wave.py:460-468 | one iteration of the lake loop on the array is one `LakeStep` |
| Engine.LakePassOver | notebooks/LongTerm/wavesed/wave.py:459-468 | the lake loop on the array computes `LakePass` over the kept contours in order |
| Engine.FindLandStep | notebooks/LongTerm/wavesed/wave.py:438-468 | the body of `findland` gives the terrain of `FindLandOf`; when the shoreline fails it gives the partition without the lake pass, and the elevations are unchanged |
| Engine.Wave.FindLand | notebooks/LongTerm/wavesed/wave.py:428-470 | only the terrain changes; it becomes `FindLandOf` on success, and the partition with the fault reported when the shoreline fails |
| CellRules.ClipHeight | notebooks/LongTerm/wavesed/wave.py:508-509 | the result is one of the two inputs and at most both, i.e. their minimum |
| CellRules.ShoreHeight | notebooks/LongTerm/wavesed/wave.py:506-509 | the height never exceeds the breaking limit; it is 0 on land outside the sea; a sea cell below the limit keeps its smoothed height, and one above it gets the limit |
| CellRules.FlipContour | notebooks/LongTerm/wavesed/wave.py:558-559 | the contour angle is turned by pi if and only if it differs from the wave direction by more than a right angle |
| CellRules.NoiseFloor | notebooks/LongTerm/wavesed/wave.py:605 | shear below 1e-4 becomes 0 and other shear is kept, so the result is 0 or at least 1e-4 |
| CellRules.CapEntrainment | notebooks/LongTerm/wavesed/wave.py:611-613 | negative entrainment becomes 0; positive entrainment is at most a quarter of the depth and at most its raw value, and is kept when within the cap; it is non-negative wherever the depth is |
| CellRules.Fraction | notebooks/LongTerm/wavesed/wave.py:621-626 | the fraction times the total is the component where the total is positive, and 0 elsewhere |
| CellRules.FractionsAreUnit | notebooks/LongTerm/wavesed/wave.py:621-626 | where the direction is non-zero, `abs(tX) + abs(tY) = 1` and each fraction keeps the sign of its component; otherwise both components and both fractions are 0 |
| CellRules.SuppressDeposition | notebooks/LongTerm/wavesed/wave.py:657-658 | the result never exceeds `dz`; deposition is cut where the depth is below -2; otherwise `dz` is kept |
| CellRules.ProjectHeight | notebooks/LongTerm/wavesed/wave.py:686-691 | the projected height is non-negative, 0 above sea level, and the interpolated value elsewhere when that is non-negative |
| Waves.WavesShaped | notebooks/LongTerm/wavesed/wave.py:496-584 | every field `cmptwaves` writes has the shape of the computation grid |
| Waves.HeightBelowBreaking | notebooks/LongTerm/wavesed/wave.py:501-509 | on every cell the wave height is at most `Hb` (0.78 depth on sea, 0 elsewhere); a sea cell already below the limit keeps its smoothed height, and one above it is clipped to the limit |
| Waves.LandIsCalm | notebooks/LongTerm/wavesed/wave.py:507-584 | on a land cell `waveH`, `waveL`, `waveD`, `waveT`, `waveP`, `waveU`, `waveS`, `transpX` and `transpY` are all 0 |
| Waves.TransportChoice | notebooks/LongTerm/wavesed/wave.py:554-566 | off land the transport follows the (flipped) contour direction exactly within `0 < depth < wavebase / 2`, and the wave direction otherwise |
| Waves.FilledTravelIsLate | notebooks/LongTerm/wavesed/wave.py:512-513 | reached cells keep their travel time; an unreached cell gets a time later than every cell's |
| Grids.GridMax | notebooks/LongTerm/wavesed/wave.py:513 | `max()` is at least every cell and equal to some cell |
| WaveOps.LandZeroed | notebooks/LongTerm/wavesed/wave.py:579-584 | `a[landr, landc] = 0` on a copy gives `OffLand` on every cell |
| WaveOps.SeaOnly | notebooks/LongTerm/wavesed/wave.py:501-503 | zeros with the sea cells written give the value on sea cells and 0 elsewhere |
| WaveOps.HeightStep | notebooks/LongTerm/wavesed/wave.py:501-509 | `Hb`, the smoothing, the land zeroing and the masked clip give `HeightField` |
| WaveOps.FillStep | notebooks/LongTerm/wavesed/wave.py:512-513 | the copy with unreached times replaced is `FilledTravel` |
| WaveOps.DirectionsStep | notebooks/LongTerm/wavesed/wave.py:512-516 | the wave direction is computed from the filled copy, not from the raw travel times |
| WaveOps.PowerStep | notebooks/LongTerm/wavesed/wave.py:519-523 | the wave power, zeroed on land, is `PowerField` |
| WaveOps.PeriodStep | notebooks/LongTerm/wavesed/wave.py:526 | the period from the unzeroed wavelength, zeroed on land, is `PeriodField` |
| WaveOps.LengthStep | notebooks/LongTerm/wavesed/wave.py:579 | the wavelength zeroed on land is `LengthField` |
| WaveOps.DirectionStep | notebooks/LongTerm/wavesed/wave.py:580 | the wave direction zeroed on land is `DirectionField` |
| WaveOps.OrbitalStep | notebooks/LongTerm/wavesed/wave.py:529-539 | orbital velocity on sea cells, 0 elsewhere, zeroed on land, is `OrbitalField` |
| WaveOps.ShearStep | notebooks/LongTerm/wavesed/wave.py:570-584 | Sleath friction on sea cells and the shear from the unzeroed orbital velocity, zeroed on land, is `ShearField` |
| WaveOps.Flipped | notebooks/LongTerm/wavesed/wave.py:558-559 | the masked `+ pi` gives `FlipContour` on every cell |
| WaveOps.Banded | notebooks/LongTerm/wavesed/wave.py:554-566 | `trig(waveD)` overridden in the nearshore band by `trig(cDir)` |
| WaveOps.TransportStep | notebooks/LongTerm/wavesed/wave.py:554-568 | one transport component, band override and land zeroing, is `TransportField` |
| WaveOps.TransportPair | notebooks/LongTerm/wavesed/wave.py:541-568 | both components share one flipped contour angle and are the cos and sin `TransportField`s |
| WaveOps.ComputeWaves | notebooks/LongTerm/wavesed/wave.py:496-584 | the statements after the Airy kernel give exactly `WavesOf` |
| Engine.Wave.CmptWaves | notebooks/LongTerm/wavesed/wave.py:472-586 | on a terrain `findland` has partitioned, only the wave fields change, and they become `WavesOf` on that terrain; the fields `cmptsed` reads are then on the grid |
| Sediment.EntrainmentBounds | notebooks/LongTerm/wavesed/wave.py:606-613 | positive entrainment is at most a quarter of the depth; it is non-negative where the depth is, and 0 where the floored shear is 0 |
| Sediment.HentBounds | notebooks/LongTerm/wavesed/wave.py:614-618 | `Hent` is 0 on land; without smoothing it equals the raw entrainment elsewhere |
| Sediment.EntrainmentNonNegative | notebooks/LongTerm/wavesed/wave.py:604-618 | on a terrain whose sets agree with the depth, the entrainment from the shear of `cmptwaves`, smoothed with any width, is non-negative everywhere and at most a quarter of the depth where it is positive; with `sigma <= 0` the same holds of `Hent` |
| Sediment.CalmEntrainment | notebooks/LongTerm/wavesed/wave.py:604-618 | the same bounds for any floored shear that is zero on land |
| Sediment.FractionsOnGrid | notebooks/LongTerm/wavesed/wave.py:621-626 | on every cell `abs(tX) + abs(tY) = 1` with the signs of the components where the total is positive, and `tX = tY = 0` where it is 0 |
| Sediment.RescaleKeepsVolume | notebooks/LongTerm/wavesed/wave.py:646-653 | the redistributed deposit has the same total as `ndz + dist`; without smoothing it is `ndz + dist` itself |
| Sediment.RescaledSum | notebooks/LongTerm/wavesed/wave.py:648-651 | scaling by `sum(supply) / sum(smoothed)` gives total `sum(supply)` whenever the smoothed total is non-zero |
| Grids.GridSumScale | notebooks/LongTerm/wavesed/wave.py:649-651 | the sum of a grid scaled by `c` is `c` times its sum |
| Sediment.DepositionCutOff | notebooks/LongTerm/wavesed/wave.py:655-658 | `dz` never exceeds `val - Hent`; deposition remains only where the depth is at least -2; erosion is untouched |
| Sediment.ElevationUpdate | notebooks/LongTerm/wavesed/wave.py:660-669 | the new depth is `sealvl - (Z + dz)` on the computation grid; the bathymetry is raised by the (projected) erosion/deposition; the sea level, `inland` and the land/sea cells are unchanged; with `resfac == 1`, `erodep`, `wS` and `wH` are `dz`, the floored shear and the wave height |
| Sediment.SedShapes | notebooks/LongTerm/wavesed/wave.py:660-669 | a successful `cmptsed` leaves the fine fields on the bathymetry grid, and the depth and `dz` on the computation grid |
| Sediment.ProjectedFields | notebooks/LongTerm/wavesed/wave.py:681-695 | the projected height is non-negative; both projected fields are 0 where the raised fine elevation is above sea level; the fine elevation is raised by the projected erosion/deposition |
| SedOps.FloorStep | notebooks/LongTerm/wavesed/wave.py:605 | the masked assignment on `waveS` gives `FlooredShear` |
| SedOps.EntrainStep | notebooks/LongTerm/wavesed/wave.py:606-613 | the three masked assignments to `Hent` give `RawHent` |
| SedOps.HentStep | notebooks/LongTerm/wavesed/wave.py:614-618 | smoothing when `sigma > 0`, then land zeroing, gives `HentOf` |
| SedOps.FractionOf | notebooks/LongTerm/wavesed/wave.py:623-626 | zeros with the component over the total written where the total is positive |
| SedOps.FractionStep | notebooks/LongTerm/wavesed/wave.py:621-626 | `tX` and `tY` are `FractionX` and `FractionY` |
| SedOps.SuppressStep | notebooks/LongTerm/wavesed/wave.py:655-658 | `val - Hent` with deposition cut gives `ErosionDeposition` |
| SedOps.RaiseStep | notebooks/LongTerm/wavesed/wave.py:685 | in-place `regZ += erodep` gives the cell-wise sum |
| SedOps.FineHeightStep | notebooks/LongTerm/wavesed/wave.py:688-691 | the resampled height, zeroed above sea level and clamped at 0, is `FineHeight` |
| SedOps.FineShearStep | notebooks/LongTerm/wavesed/wave.py:693-695 | the resampled shear, zeroed above sea level, is `FineShear` |
| SedOps.InterpolateStep | notebooks/LongTerm/wavesed/wave.py:681-695 | the body of `interpolate` gives `InterpolateOf` |
| SedOps.SedStep | notebooks/LongTerm/wavesed/wave.py:604-669 | the body of `cmptsed` gives the floored shear, `Hent`, and `SedOf` (the outcome or the non-finite fault) |
| Engine.Wave.CmptSed | notebooks/LongTerm/wavesed/wave.py:588-671 | `waveS` is floored and no other wave field changes; on success the terrain and sediment fields are `SedOf`'s outcome; on a non-finite fault the terrain is unchanged and only `Hent` has been written; after a success `interpolate` can be called |
| Engine.Wave.Interpolate | notebooks/LongTerm/wavesed/wave.py:673-697 | on a coarse grid, after `cmptwaves` and `cmptsed`, the bathymetry, `erodep`, `wH` and `wS` become `InterpolateOf`; nothing else changes, and the engine stays valid for its other methods |
| Driver.ScenarioOn | notebooks/LongTerm/wavesed/wave.py:130-151 | `wavesource`, `cmptwaves(h0, sigma=1)` and `cmptsed(sigma=1)` on the engine give `ScenarioOf` on the terrain before the scenario |
| Driver.RunScenario | notebooks/LongTerm/wavesed/wave.py:130-151 | one scenario on the engine is one application of the `Scenario` step |
| Driver.ScenariosLength | notebooks/LongTerm/wavesed/wave.py:124-130 | a successful run has one outcome per height, and then `len(perc)` and `len(dir)` are at least `len(H0)` |
| Driver.MissingForcing | notebooks/LongTerm/wavesed/wave.py:127-130 | a scenario past the end of `perc` or `dir` is an index error |
| Driver.ScenariosChain | notebooks/LongTerm/wavesed/wave.py:125-151 | elevation is cumulative: each scenario of a successful run is computed on the terrain the previous one left (the first on `findland`'s), with its own direction and height |
| Driver.ScenarioOnGrid | notebooks/LongTerm/wavesed/wave.py:130-151 | a successful scenario leaves `wH`, `wS` and `erodep` on the bathymetry grid |
| Driver.FoldIsWeightedSum | notebooks/LongTerm/wavesed/wave.py:168-175 | the running sums (`ave = f * frac` first, then `ave += f * frac`) are cell by cell the weighted sums `sum_s frac_s f_s` |
| Driver.WeightedSumOfEqual | notebooks/LongTerm/wavesed/wave.py:127-175 | the percentages are not normalised: equal fields average to the value times the sum of the fractions, so two 50/50 scenarios with equal fields give that field |
| Driver.ScenariosWeightedSums | notebooks/LongTerm/wavesed/wave.py:124-177 | for any scenario step whose outcomes are on the grid, the averages of a successful run are cell by cell the weighted sums of the outcomes |
| Driver.AveragesAreWeightedSums | notebooks/LongTerm/wavesed/wave.py:124-177 | `avewH`, `avewS` and `avedz` returned by a successful run are, cell by cell of the bathymetry grid, `sum_s (perc[s]/100)` times what scenario `s` left |
| Driver.FoldStep | notebooks/LongTerm/wavesed/wave.py:168-175 | the running sum after one more scenario: the first binding or one addition |
| Driver.AveragesStep | notebooks/LongTerm/wavesed/wave.py:168-175 | the three accumulators after one more scenario, from those before it |
| Driver.Accumulate | notebooks/LongTerm/wavesed/wave.py:168-175 | the `if s > 0` accumulation statements give the averages of the scenarios done so far |
| Driver.ChainAdvances | notebooks/LongTerm/wavesed/wave.py:125-151 | after scenario `s` the run either stops with that scenario's fault or has one more outcome and continues on its terrain |
| Driver.ForcingMissing | notebooks/LongTerm/wavesed/wave.py:127-130 | reaching a scenario with no direction or percentage ends the whole run with an index error |
| Driver.Advance | notebooks/LongTerm/wavesed/wave.py:130-151 | one scenario on the engine advances the run by one outcome or stops it with its fault |
| Driver.Round | notebooks/LongTerm/wavesed/wave.py:125-175 | one pass of the loop: an index error when the forcing is missing; otherwise the scenario, then the accumulators updated to the averages of the scenarios so far |
| Driver.RunFromFails | notebooks/LongTerm/wavesed/wave.py:124-177 | a run whose scenarios stop with a fault returns that fault |
| Driver.RunFromDone | notebooks/LongTerm/wavesed/wave.py:124-177 | an empty `H0` fails with unbound accumulators; otherwise the run returns the averages of all scenarios and the last scenario's terrain |
| Driver.RunScenarios | notebooks/LongTerm/wavesed/wave.py:124-177 | the loop of `runWaveSed` on a prepared engine returns exactly `RunFrom` on its terrain, and the engine is left on the returned terrain |
| Driver.RunWaveSed | notebooks/LongTerm/wavesed/wave.py:118-177 | constructing the engine (`Ce = 1`, `Cd = 30`), running `findland(slvl)` and the loop returns exactly `RunOf`, and the returned engine holds the returned terrain |

## Left out

- The kernels are parameters (`Numerics.Kernels`), so nothing is assumed about what they return. They are foreign compiled code or floating-point library numerics: the Airy, transport and diffusion models, Gaussian filtering, spline resampling, `np.gradient` with `arctan2` and the modulo 2 pi, `log`, `sqrt`, `power`, `sinh`, the friction and period formulas, `find_contours` and `contains_points`.
- Reading the bathymetry file is not modelled: the existence check, `pd.read_csv`, and `dx`, `nx`, `ny` obtained by rounding. The constructor takes the grid, its shape and spacing, and the shape of the coarse grid (which the source computes by rounding).
- The coordinate arrays (`regX`, `regY`, `xi`, `yi`, `XY` and the coarse ones) are not modelled; they only feed the spline and point-in-polygon calls, which are kernels.
- The unused attributes (`poro`, `fric`, `diff`) are not modelled.
- Floating point is not modelled: grids hold exact reals.
- Division by zero is modelled as a fault. A zero diffusion coefficient (`Cd * area == 0`) or a zero smoothed total in the volume rescale makes numpy continue with inf/NaN; the model stops with `NonFiniteCoefficient` or `NonFiniteRescale` instead.
- Python exceptions are `Fault` values: the unbound `contourPts` of `compute_shoreline`, the unbound accumulators of an empty `H0`, and the `IndexError` of a short `dir` or `perc`.
- Engine.Wave.WaveSource: before `findland` has run, `landr`/`landc` are `None`, and numpy's `src[None, None] = -2` blocks every cell; the model's engine then has no land cells, so the mask opens the boundary. Every call `runWaveSed` makes comes after `findland`.
- Engine.Wave.CmptWaves: requires that `findland` has run. Before it, `depth`, `sear` and `seac` are `None`, and the source raises when `cmptwaves` indexes `self.depth[self.sear, self.seac]` (notebooks/LongTerm/wavesed/wave.py:503). The model does not represent that exception.
- Engine.Wave.Interpolate: requires a coarse grid (`resfac > 1`), the wave fields of `cmptwaves` and the `dz` of `cmptsed`. In the other states the source raises, and the model does not represent those exceptions. With `resfac == 1`, `sregX` was never set (notebooks/LongTerm/wavesed/wave.py:309), which gives an AttributeError. With `dz`, `waveH` or `waveS` still `None`, `RectBivariateSpline` raises (notebooks/LongTerm/wavesed/wave.py:682-694).
- `Engine.Wave.CmptSed` does not call the method `Engine.Wave.Interpolate`: it projects through `SedOps.InterpolateStep`, the same body on the values it has just computed, and writes the records once. `Engine.Wave.Interpolate` models `interpolate()` called on its own.
- Array aliasing is not modelled. The fields are values. With `resfac == 1` the source's `erodep`, `wS` and `wH` share arrays with `dz`, `waveS` and `waveH`. The next scenario replaces those arrays before writing into them, so the values agree.
- Driver.RunWaveSed: the default `wbase=None` is not modelled; `wbase` is a real. With `None` the source raises a TypeError at `self.wavebase * 0.5` in `cmptwaves` (notebooks/LongTerm/wavesed/wave.py:563).
- Driver.RunWaveSed: states the returned engine's terrain, but not its wave and sediment fields, which hold the last scenario's (`Driver.ScenarioOn` states them for each scenario).
- Printing, the optional plotting inside `runWaveSed` (`size`, `plotData`), `outputCSV` and `plotData` are left out: they are output only.
- `notebooks/CoastalEvolution/runmodels_functions.py` (shoreline-to-grid geometry, the loop over external models, plotting) and the packaging files are not part of this model.
