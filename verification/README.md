# Raster store and claim simulation, modelled in Dafny

This project models the two logic-bearing pieces of a Vue application that
shows typhoon risk on a globe:

- **The raster store** (`src/stores/dataStore.js`). It holds one raw global
  grid (`rawData`) and derives one canonical raster (`mapDataPoint`) from it.
  `datatransform` accepts a 720 x 1440 nested grid or a flat grid of 720·1440
  values. It flattens the grid row-major and rotates every row by half its
  width, so that longitudes 0..359.75 become -180..179.75. It then publishes
  the latitude and longitude axes, shape, extent, origin and cell size. Pure
  queries read the published record: the full layer, summary statistics, the
  value at a cell, and the value at a coordinate.
- **The claim-simulation engine** (`src/composables/useClaimSimulation.js`).
  It is a four-stage run (`currentStep` 0..3). Starting a run with complete
  parameters arms a 500 ms interval in both modes, because the start resets
  the step to 0 before the debug-mode guard reads it. In debug mode the run
  can also be stepped by hand, and each manual step cancels the interval.
  At the last stage it evaluates the parameters once:
  it checks they are complete, prices the premium and looks the parameters up
  in a fixed five-rule payout table.

Both are written as values and pure transition functions. `DataStore.Store`
stands for the store's state, and `DataStore.DataTransform`,
`DataStore.ResetMapDataPoint` and the queries are functions of it.
`ClaimSimulation.Sim` stands for the composable's state. The interval timer
becomes the `armed` flag plus an explicit `ClaimSimulation.Tick` transition.

Files:

- `wrappers.dfy`: `Option`, whose `None` stands for the `null` a getter returns.
- `real_sort.dfy`: insertion sort and summation over exact reals.
- `data_store.dfy`, `data_store_properties.dfy`: the raster store and its lemmas.
- `claim_simulation.dfy`, `claim_simulation_properties.dfy`: the engine and its lemmas.

Modelling choices:

- A grid value is `Undefined | Null | NaN | Num(real)`. Reading past the end
  of a flat grid yields `Undefined`, as in JavaScript.
- A payload that is absent, falsy or not an array is `NoArray`. An array whose
  elements are scalars is `Flat`. An array whose first element is an array is
  `Nested(first, rest)`.
- The 2-D shape guard is modelled literally: it measures the row count and the
  first row only. Later rows are flattened as they are. A ragged row shifts
  the data. A scalar row makes the spread throw, so nothing is published
  (`SpreadError`).
- The getters return `Option<Value>`. `None` is the `null` for "no data or out
  of range". `Some(Null)` is a stored `null`, which JavaScript cannot tell
  apart from `None`.
- JavaScript's truncating `%` is written out (`DataStore.JsRem360`), and so is
  `Math.floor` (Dafny's `.Floor`).
- The premium is `Pending | NotApplicable | OutOfCoverage | Amount(real)`.
  These stand for the placeholder `'待定'`, `'N/A'`, the out-of-coverage string,
  and a formatted amount. The result message is identified by which text it
  holds (`ClaimSimulation.Message`).

## Model

| member | source | states |
|---|---|---|
| DataStore.ResetMapDataPoint | src/stores/dataStore.js:23-32 | the derived raster is cleared and the raw grid is kept |
| DataStore.SetRawData | src/stores/dataStore.js:34-36 | the raw grid is stored verbatim and nothing is derived |
| DataStore.FlattenRows | src/stores/dataStore.js:54-56 | flattening the rows after the first fails exactly when one of them is not iterable |
| DataStore.Rotate | src/stores/dataStore.js:65-73 | the output has 720·1440 cells; cell (i, j) is the flat input at i·1440 + (j + 720) mod 1440 |
| DataStore.Transform | src/stores/dataStore.js:38-94 | the missing-data, 2-D shape and 1-D length rejections each happen exactly under their guard (the 2-D guard measures the row count and the first row only); a published raster has 720·1440 values, cell (i, j) being the flattened input at i·1440 + (j + 720) mod 1440 |
| DataStore.DataTransform | src/stores/dataStore.js:38-94 | the store changes only by taking the published raster, and the raw grid is never touched |
| DataStore.FullRasterLayer | src/stores/dataStore.js:106-116 | a layer exists iff a raster is published; it exposes that raster's values, shape, name, extent and raster block, with the params as metadata |
| DataStore.CesiumSize | src/stores/dataStore.js:153-161 | width and height are the layer's column and row counts, and are absent without a layer |
| DataStore.ValueAtCell | src/stores/dataStore.js:132-136 | a value is returned iff a raster exists and 0 ≤ row < rows and 0 ≤ col < cols; it is the row-major element row·cols + col |
| DataStore.Trunc | src/stores/dataStore.js:143 | rounding toward zero stays within one unit of its argument, on the side of zero |
| DataStore.JsRem360 | src/stores/dataStore.js:143 | the remainder of x by 360 has the sign of x, magnitude below 360, and differs from x by a whole number of turns |
| DataStore.LookupNormalised | src/stores/dataStore.js:144-147 | the floor-division lookup reports nothing without a raster; on a published raster it finds a cell iff −90 < lat ≤ 90 and −180 ≤ lon < 180 |
| DataStore.NormalizeLon | src/stores/dataStore.js:143 | the result differs from lon by whole turns; it is lon itself on [−180, 180); for lon ≥ −180 it is in [−180, 180); for lon < −180 it stays at or below −180 |
| DataStore.ValueAtCoordinate | src/stores/dataStore.js:138-148 | nothing without a raster; on a published raster and for lon ≥ −180, a value is found iff −90 < lat ≤ 90 |
| DataStore.NormalizeLonWrapped | src/stores/dataStore.js:142-143 | the corrected normalisation always lands in [−180, 180), differs from lon by whole turns, and is lon itself on [−180, 180) |
| DataStore.ValueAtCoordinateWrapped | src/stores/dataStore.js:138-148 | the corrected lookup reports nothing without a raster; on a published raster it finds a value for every longitude iff −90 < lat ≤ 90 |
| DataStore.Numbers | src/stores/dataStore.js:120 | the kept values are exactly the numeric cells, with multiplicity: null, undefined and NaN are dropped |
| DataStore.Statistics | src/stores/dataStore.js:118-130 | no statistics iff there is no raster or no valid value; otherwise the summary of the sorted valid values |
| RealSort.Sort | src/stores/dataStore.js:120 | the result is sorted ascending and is a permutation of the input |
| DataStoreProperties.RejectedGridLeavesStore | src/stores/dataStore.js:38-63 | each of the three guards leaves the whole store unchanged |
| DataStoreProperties.ShapeGuardReadsFirstRowOnly | src/stores/dataStore.js:49-56 | with 720 rows and a first row of 1440, the shape guard passes whatever the other rows' lengths; publication then fails only on a non-iterable row |
| DataStoreProperties.FlattenRectangular | src/stores/dataStore.js:54-56 | flattening rectangular rows puts row i, column c at i·1440 + c |
| DataStoreProperties.NestedGridRotation | src/stores/dataStore.js:49-73 | a rectangular 720 x 1440 grid is published with cell (i, j) = raw[i][(j + 720) mod 1440] |
| DataStoreProperties.FlatGridRotation | src/stores/dataStore.js:57-73 | a flat grid of 720·1440 values is published with cell (i, j) = raw[i·1440 + (j + 720) mod 1440] |
| DataStoreProperties.RotateInvolution | src/stores/dataStore.js:66-73 | rotating a full grid twice gives it back: the half-row shift is its own inverse |
| DataStoreProperties.PublishedRecord | src/stores/dataStore.js:75-94 | latitudes are 90 − 0.25·i and strictly decreasing; longitudes are −180 + 0.25·j and strictly increasing; shape, extent, origin and cell size are the constants; the name defaults to surf_2t when missing or empty; params are carried over |
| DataStoreProperties.PublishedLayer | src/stores/dataStore.js:153-161 | after a successful transform the layer holds 720·1440 values and the renderer size is 1440 wide, 720 high |
| DataStoreProperties.CellLookupAfterTransform | src/stores/dataStore.js:132-136 | after transforming a rectangular grid, cell (i, j) reads raw[i][(j + 720) mod 1440] |
| DataStoreProperties.CellOfCanonical | src/stores/dataStore.js:132-136 | on a published raster every in-range cell is found at its row-major index |
| DataStoreProperties.CoordinateAtGridNode | src/stores/dataStore.js:138-148 | the lookup at grid node (90 − 0.25·i, −180 + 0.25·j) returns cell (i, j), which exists |
| DataStoreProperties.CoordinateOutsideLatitudes | src/stores/dataStore.js:145-147 | latitudes ≤ −90 or > 90 find no cell |
| DataStoreProperties.CoordinateInsideGrid | src/stores/dataStore.js:142-147 | every latitude in (−90, 90] with longitude in [−180, 180) finds a cell |
| DataStoreProperties.NormalizeWrapsEast | src/stores/dataStore.js:143 | for lon ≥ −180 the normalisation lands in [−180, 180) and is unchanged by adding 360 |
| DataStoreProperties.CoordinateWrapsEast | src/stores/dataStore.js:138-148 | for lon ≥ −180 the lookup at lon equals the lookup at lon + 360, on any store |
| DataStoreProperties.CoordinateWestOfGrid | src/stores/dataStore.js:143-147 | for lon < −180 with lon + 180 not a multiple of 360, the normalised longitude stays below −180 and the lookup finds nothing |
| DataStoreProperties.TruncatedWrapMissesWest | src/stores/dataStore.js:142-147 | as written, −200 normalises to −200 and finds nothing, while the same meridian at 160 finds a cell |
| DataStoreProperties.WrappedNormalisation | src/stores/dataStore.js:142-143 | the corrected normalisation agrees with the written one for lon ≥ −180 and is 360-periodic everywhere |
| DataStoreProperties.WrappedCoordinateLookup | src/stores/dataStore.js:138-148 | the corrected lookup is 360-periodic for every longitude and agrees with the written lookup for lon ≥ −180 |
| DataStoreProperties.WrappedCoordinateWestOfGrid | src/stores/dataStore.js:142-147 | the corrected lookup at −200 finds the cell the written lookup finds at 160 |
| DataStoreProperties.StatisticsSummarise | src/stores/dataStore.js:118-129 | count is the number of valid values; min ≤ median ≤ max; range = max − min ≥ 0; min ≤ mean ≤ max; min, max and median occur in the grid; every valid value lies in [min, max] |
| DataStoreProperties.StatisticsOfConstantGrid | src/stores/dataStore.js:118-129 | a grid holding v everywhere has min = max = median = mean = v and range 0 |
| DataStoreProperties.ResetEmptiesQueries | src/stores/dataStore.js:23-32 | after a reset the raw grid is kept and the layer, statistics, cell, coordinate and renderer-size queries all report no data |
| ClaimSimulation.FirstMatch | src/composables/useClaimSimulation.js:134-144 | no rule is found iff no rule matches; a found rule matches and no earlier rule does |
| ClaimSimulation.LevelFactor | src/composables/useClaimSimulation.js:62-68 | the level multiplier lies between 1 and 2 |
| ClaimSimulation.CalculatePremium | src/composables/useClaimSimulation.js:55-85 | N/A iff lat or lon is null or the level is none; out of coverage iff otherwise outside the box [27, 30] x [120, 123]; an amount lies in [1000·f, 1300·f] for the level factor f |
| ClaimSimulation.Stop | src/composables/useClaimSimulation.js:90-95 | the interval is disarmed and nothing else changes |
| ClaimSimulation.ResetDisplay | src/composables/useClaimSimulation.js:98-105 | step 0, not complete, no message, premium pending, no payout and no interval; debug flag and params are kept |
| ClaimSimulation.ResetAll | src/composables/useClaimSimulation.js:108-116 | the display reset, with params also back to (null, null, none, false, none) |
| ClaimSimulation.Evaluate | src/composables/useClaimSimulation.js:118-160 | always complete; pays iff params are complete and some rule matches with a payout other than 0%; incomplete params give N/A; step, interval, mode and params are untouched |
| ClaimSimulation.RuleTriplesDistinct | src/composables/useClaimSimulation.js:46-52 | no two rules share a (level, impact, time) triple |
| ClaimSimulation.FirstMatchIsOnlyMatch | src/composables/useClaimSimulation.js:134-144 | any rule that matches is the first match, so first-match equals any-match |
| ClaimSimulation.Start | src/composables/useClaimSimulation.js:162-188 | step 0 and no payout; incomplete params finish at once with N/A and no interval; complete params arm the interval in either mode |
| ClaimSimulation.Tick | src/composables/useClaimSimulation.js:178-186 | with no interval nothing happens; below the last stage the step rises by one; at the last stage it evaluates and disarms; the step stays in 0..3 |
| ClaimSimulation.NextDebugStep | src/composables/useClaimSimulation.js:191-198 | always disarms; below the last stage the step rises by one, otherwise it evaluates; the step stays in 0..3 |
| ClaimSimulation.Merge | src/composables/useClaimSimulation.js:201-203 | each supplied field overwrites, each missing field is kept |
| ClaimSimulation.SetParams | src/composables/useClaimSimulation.js:201-203 | only the params change, and they become the merge |
| ClaimSimulation.SetDebugMode | src/composables/useClaimSimulation.js:206-210 | the result is the initial state with the requested mode |
| ClaimSimulationProperties.PremiumMinimalAtCentre | src/composables/useClaimSimulation.js:75-79 | inside the box the premium equals the level-adjusted base iff the point is the centre (28.5, 121.5) |
| ClaimSimulationProperties.PremiumSymmetric | src/composables/useClaimSimulation.js:75-79 | mirroring a point through the box centre keeps its premium |
| ClaimSimulationProperties.PremiumExamples | src/composables/useClaimSimulation.js:55-85 | the centre at level 7-8 costs 1500; (10, 10) is out of coverage at every level; the corner (30, 123) at level 9-10 costs 2600 |
| ClaimSimulationProperties.MissedRegionNeverMatches | src/composables/useClaimSimulation.js:146-157 | with no hit on the region no rule matches, there is no payout, and complete params get the missed-region message |
| ClaimSimulationProperties.EvaluationOutcome | src/composables/useClaimSimulation.js:132-159 | with complete params: payout iff the first match exists and is not 0%; its message then congratulates on that rule, otherwise it names the reason by impactRegion; the premium is priced |
| ClaimSimulationProperties.SevereOneWeekPays | src/composables/useClaimSimulation.js:48 | level 9-10, hit, one week pays under the 50% rule |
| ClaimSimulationProperties.MildOneWeekMatchesWithoutPayout | src/composables/useClaimSimulation.js:51 | level 5-6, hit, one week matches the 0% rule and pays nothing |
| ClaimSimulationProperties.TransitionsKeepStepInRange | src/composables/useClaimSimulation.js:177-198 | every transition keeps the step in 0..3 |
| ClaimSimulationProperties.RunsNeverWriteParams | src/composables/useClaimSimulation.js:118-198 | tick, manual step, start, stop, evaluation and display reset leave the params unchanged |
| ClaimSimulationProperties.StopAndResetIdempotent | src/composables/useClaimSimulation.js:90-116 | stopping, the display reset and the full reset are idempotent |
| ClaimSimulationProperties.DebugSwitchForgetsHistory | src/composables/useClaimSimulation.js:206-210 | switching mode gives the same state whatever came before, with default params and no interval |
| ClaimSimulationProperties.AutomaticRun | src/composables/useClaimSimulation.js:162-188 | with complete params three ticks reach stage 3 still armed; the fourth evaluates and disarms; further ticks change nothing |
| ClaimSimulationProperties.DebugStartArmsTimer | src/composables/useClaimSimulation.js:176-178 | in debug mode a start with complete params still arms the interval, which then advances the step |
| ClaimSimulationProperties.ManualRun | src/composables/useClaimSimulation.js:191-198 | three manual steps reach stage 3 with no interval; the fourth evaluates |
| ClaimSimulationProperties.IncompleteStartFinishes | src/composables/useClaimSimulation.js:162-174 | a start without a forecast horizon ends at once at step 0 with no interval, no payout and N/A; no tick follows |
| ClaimSimulationProperties.MergeLaws | src/composables/useClaimSimulation.js:201-203 | an empty patch changes nothing; two merges are one merge of the combined patch; a full patch decides every field |

## Left out

- The radians rectangle of `getCesiumRasterData` (src/stores/dataStore.js:162-167) is left out because it calls the renderer's own degree-to-radian conversion. Only its width and height are modelled (`DataStore.CesiumSize`); `values`, `raster` and `metadata` are the layer's fields, passed through.
- `console.warn` and `console.log` diagnostics are left out. The outcome constructors `ShapeMismatch`, `LengthMismatch` and `SpreadError` stand for the warning paths. The TypeError from spreading a scalar row reaches the caller; the model keeps only that the store is unchanged.
- Floating point is not modelled: coordinates, cell sizes, means and premiums are exact reals. `toFixed(2)` formatting and the display texts of `steps` and the messages are also left out.
- The sort comparator `(a, b) => a - b` is modelled as an ascending order on exact reals, so `RealSort.Sort` is specified as the sorted permutation.
- A 1-D payload whose first element is a scalar but whose later elements are arrays is not modelled, because `Payload` cannot express it.
- DataStore.ValueAtCell: takes integer row and column only. A non-integer index from a direct caller, which JavaScript reads as `undefined`, is not modelled.
- DataStore.Transform: raw params are modelled as present or absent. A falsy non-object params value, which `|| null` also maps to null, is not modelled.
- ClaimSimulation.CalculatePremium: lat and lon are numbers or null. `undefined` or `NaN` written through `setSimulationParams` is not modelled, and neither is the `!params` guard, because the parameter record always exists.
- ClaimSimulation.SetParams: merges the five known fields. Extra keys that `Object.assign` would add are not modelled.
- Vue reactivity, `onUnmounted` (which only calls `stopSimulation`) and the real 500 ms spacing of the interval are left out. The interval is the `armed` flag plus `Tick`.
- Writes to the exported `mapDataPoint` from outside the store are not modelled.
- `src/utils/theme.js`, `server.js`, `src/stores/typhoon.js`, the routers, the entry points and the build configuration are not part of this model. They hold DOM, storage, HTTP, upload and bootstrap code.

## Findings

| source | as written | input that shows it | evidently intended | confidence | as-written member | corrected member |
|---|---|---|---|---|---|---|
| src/stores/dataStore.js:143 | `((lon + 180) % 360) - 180` with JavaScript's truncating `%` leaves every longitude below −180 (except odd multiples of 180) below −180 | lat 0, lon −200: normalised to −200, so the column is negative and the lookup returns null, although −200 is the meridian 160, which has data | the line's own comment says the longitude is normalised into [−180, 180), i.e. a floored remainder | medium (callers may never pass lon < −180), not executed | DataStoreProperties.TruncatedWrapMissesWest | DataStore.ValueAtCoordinateWrapped |
