# Tower parking calculator: a verified model

This project models the domain logic of `TowerParkingCalculator`, a browser
calculator for automated tower car parks. It takes a tower's geometry and
machine speeds and estimates how long one car retrieval takes, and how many
cars an hour the tower delivers. The model covers five parts of the class:

- **Form defaults** (`Params`). A parsed field that is missing or 0 falls back
  to its default. A form with no negative height, speed, distance,
  duration or car count always normalises to parameters the estimator can use.
- **Tower types** (`TowerConfig`). The table of nine tower types and the
  complexity factor derived from them. A type missing from the table uses a
  fallback vector.
- **Level-height resolver** (`LevelHeights`). Above-ground levels are handed
  out first to "Combo 1", then to "Combo 2", and the rest go to the default
  height. One below-ground tier follows.
  - The resolver is modelled as a method. It is proved equal to a functional
    specification built from a general greedy allocation.
  - Separate lemmas prove count conservation, clamping, ordering, and the
    subtotal and total relations.
- **Retrieval-time estimator** (`Estimator`). The arithmetic of one
  calculation, over exact reals: overhead, traverse, half turn and lift,
  giving min, max and average times, batch totals and throughput.
- **Performance indicators** (`Performance`). Efficiency is a piecewise-linear
  score of the average minutes. Speed is the throughput percentage capped at
  100. Each is rated good, moderate or poor.

`Calculator.Calculate` chains these steps in the same order the page does.

Units follow the page: heights and distances in mm, speeds in m/min, the
turntable in rpm, times in s.

Two consequences of the code's constants are worth stating:

- **Unknown tower type.** The fallback vector `[0,0,1,0,1,0,0]` sums to 2, so
  a type missing from the table gets the factor 1.2, the same as "1+1"
  (`TowerConfig.UnknownTypeIsOnePlusOne`). The table's factors range from 1.1
  ("0+1") to 2.2 ("3+3").
- **Efficiency at 3 minutes.** An average of exactly 180 s scores 70 % and is
  still rated good (`Performance.EfficiencyAnchors`). The comment above the
  scoring (js/calculator.js:275) says good means under 3 minutes, while the
  test at line 279 also admits exactly 3 minutes; the model follows the test.

## Model

| member | source | states |
|---|---|---|
| Params.IntOr | js/calculator.js:50-51 | an integer field keeps its parsed value exactly when that value is present and non-zero; otherwise it takes the default |
| Params.RealOr | js/calculator.js:52-69 | a numeric field keeps its parsed value exactly when that value is present and non-zero; otherwise it takes the default |
| Params.TextOr | js/calculator.js:70 | the tower type keeps the selected text unless it is empty, in which case it is "1+1" |
| Params.Normalize | js/calculator.js:48-73 | every field holds the value the form gave for it or the field's default; the checkbox is taken over |
| Params.NormalizeNeverZero | js/calculator.js:52-71 | after normalising, every field whose default is non-zero (all heights, speeds, distances and durations, the tower type and the car count) is non-zero, whatever was typed |
| Params.NormalizeAdmissible | js/calculator.js:48-73 | a form with no negative height, speed, distance, duration or car count yields positive speeds and car count and no negative time, distance or height |
| Params.NormalizeCounts | js/calculator.js:50-57 | a form with no negative level count yields level and combo counts of at least 0 |
| Params.NormalizeIdempotent | js/calculator.js:48-73 | filling the form with normalised values and reading it again changes nothing |
| Params.ZeroMeansMissing | js/calculator.js:50-71 | emptying every numeric field that parsed to 0 gives the same parameters, so in any field a typed 0 gives the field's default |
| TowerConfig.ConfigFactors | js/calculator.js:177 | the factor vector has seven slots, and is the table entry for a known type and the fallback vector otherwise |
| TowerConfig.SumOfSeven | js/calculator.js:178 | the left fold of a seven-slot vector is the sum of its slots |
| TowerConfig.ComplexityFactor | js/calculator.js:178 | one plus a tenth of the vector's sum; for every tower type, unknown ones included, it lies in [1.1, 2.2], so none is below 1 |
| TowerConfig.UnknownTypeIsOnePlusOne | js/calculator.js:177-178 | a type missing from the table has the factor of "1+1", which is 1.2 |
| TowerConfig.ComplexityFactorExamples | js/calculator.js:4-14 | "3+3" gives 2.2, "0+1" gives 1.1, "2+3" gives 1.9 |
| LevelHeights.CalculateLevelHeights | js/calculator.js:75-150 | the method's result is the resolved level data of the functional specification: tiers above and below, their above, below and overall sums |
| LevelHeights.LevelHeights | js/calculator.js:75-150 | reference definition of the resolved levels: the above-ground tiers, then the below-ground tier, with the sums above, below and overall; its properties are the lemmas below |
| LevelHeights.AboveTiers | js/calculator.js:80-131 | reference definition of the above-ground tiers: none without levels, one single tier with combos off, otherwise the greedy allocation of the two combo requests and a default tier for what is left |
| LevelHeights.BelowTiers | js/calculator.js:133-142 | reference definition of the below-ground tier: present only when `levelsBelow` is positive |
| LevelHeights.Label | js/calculator.js:89-136 | the `type` text shown for each tier kind: Combo 1, Combo 2, Default, single above-ground and Below Ground |
| LevelHeights.Allocate | js/calculator.js:83-109 | reference greedy allocation: each request with a positive count, met while levels remain, takes the smaller of its count and the remaining budget |
| LevelHeights.LabelsDistinct | js/calculator.js:89-136 | the five tier kinds carry five different `type` labels |
| LevelHeights.AboveGroundLevels | js/calculator.js:76-131 | the combo branch, pushed step by step with a decreasing budget, yields the specified above-ground tiers and their summed height |
| LevelHeights.PushCombo | js/calculator.js:86-109 | one combo band takes the smaller of its request and the remaining budget when it asks and levels remain, and nothing otherwise; its entry is appended, its subtotal added to the running sum, and the budget reduced by the same count |
| LevelHeights.ComboTiersOrdered | js/calculator.js:86-120 | Combo 1, Combo 2 and Default, each present or absent, come in rank order and end at or before the default rank |
| LevelHeights.SumsAppend | js/calculator.js:94-148 | heights and counts summed over two joined tier lists are the sums over each list, added |
| LevelHeights.AllocateConserves | js/calculator.js:83-120 | the levels the greedy allocation hands out plus those left over equal the budget, and the leftover lies between 0 and the budget |
| LevelHeights.AllocateWellFormed | js/calculator.js:86-109 | every allocated tier has a positive count no larger than the budget, and a subtotal equal to height times count |
| LevelHeights.ComboAllocation | js/calculator.js:83-120 | Combo 1 gets the smaller of its request and the levels above; Combo 2 the smaller of its request and what remains; all counts fit the budget; each combo tier appears iff it asks and levels remain; Default appears iff levels are left |
| LevelHeights.AboveWellFormed | js/calculator.js:86-128 | every above-ground tier has a positive count and a subtotal equal to height times count |
| LevelHeights.AboveOrdered | js/calculator.js:86-128 | above-ground tiers come in the order Combo 1, Combo 2, Default, and all rank before Below Ground |
| LevelHeights.ResolvedShape | js/calculator.js:86-148 | the tier list is well formed and ordered Combo 1, Combo 2, Default or single, Below Ground; the total height is the sum of all subtotals and equals above plus below |
| LevelHeights.AboveCountsConserved | js/calculator.js:83-129 | with levels above ground, the above-ground tier counts add up to exactly `levelsAbove` |
| LevelHeights.LevelsCounted | js/calculator.js:81-142 | the counts of all tiers add up to the positive part of `levelsAbove` plus the positive part of `levelsBelow` |
| LevelHeights.CombosDisabled | js/calculator.js:121-130 | with combos off, the combo counts and heights have no effect, and the first tier is the single above-ground tier of `aboveHeight1` × `levelsAbove` |
| LevelHeights.NoLevels | js/calculator.js:81-149 | with no levels above or below, there are no tiers and the height is 0 |
| LevelHeights.ComboAboveHeight | js/calculator.js:92-119 | with combos on, the above-ground height is each band's height times the levels it received, summed |
| LevelHeights.AboveHeightNonNegative | js/calculator.js:94-129 | heights of at least 0 give an above-ground height of at least 0 |
| LevelHeights.TotalHeightNonNegative | js/calculator.js:129-148 | heights of at least 0 give a total height of at least 0 |
| LevelHeights.ThreeBandExample | js/calculator.js:83-120 | 10 levels with combo requests 3 and 4 give 3 at 1900, 4 at 2200 and the remaining 3 at 2100, 20800 mm in all |
| LevelHeights.ClampExample | js/calculator.js:86-96 | a Combo 1 request of 5 with 2 levels is clamped to 2, and nothing else appears |
| Estimator.TravelTime | js/calculator.js:158-174 | a travel time is 0.06 × distance / speed, never negative, and positive for a positive distance |
| Estimator.HalfTurnTime | js/calculator.js:170 | the half turn takes 30 / rpm seconds, which is positive |
| Estimator.BaseTime | js/calculator.js:162-163 | the overhead is at least the door time and never negative when none of the five durations is negative |
| Estimator.TravelTimeMonotone | js/calculator.js:174 | a longer way at the same speed takes no less time, and the extra time is the travel time of the difference |
| Estimator.Assemble | js/calculator.js:181-191 | 0 < overhead + half turn ≤ min < avg < max, with avg the midpoint and max the scaled sum; the batch identities hold and the rate and percentage are positive |
| Estimator.BatchIdentities | js/calculator.js:186-191 | batch hours × 3600 = batch seconds; cars per hour × avg = 3600; throughput × batch seconds = 360000; hours × hourly rate = cars; throughput × cars = rate × 100 |
| Estimator.TimesOrdered | js/calculator.js:158-183 | the estimate is built from overhead, lift, mean traverse and half turn; min uses a tenth of the lift; max adds the other nine tenths and scales by the factor; 0 < min < avg < max |
| Estimator.Estimate | js/calculator.js:158-191 | the estimator: 0 < min < avg < max with avg the midpoint; batch seconds = avg × cars; hours × 3600 = seconds; cars per hour × avg = 3600; throughput × batch seconds = 360000; hours × hourly rate = cars; throughput × cars = rate × 100; rate and throughput positive |
| Estimator.HeightMonotone | js/calculator.js:173-191 | a taller tower never lowers min, max or average time, and never raises the throughput percentage |
| Estimator.LiftMonotone | js/calculator.js:181-191 | a longer lift, all else equal, never lowers the times or raises the throughput |
| Estimator.ThroughputAntitone | js/calculator.js:189-190 | at a fixed batch constant, a longer average gives a throughput percentage no larger |
| Estimator.DefaultsExample | js/calculator.js:158-183 | with the factory defaults, no levels and "1+1", overhead is 77 s, mean traverse 6.96 s, max is 1.2 × min, and avg is 107.356 s |
| Performance.Efficiency | js/calculator.js:274-287 | the score is never negative; it is at most 100 iff the time is not negative; it is 0 iff the average is 660 s or more; rated good iff ≤ 180 s, moderate iff in (180, 300] s, poor iff > 300 s |
| Performance.Speed | js/calculator.js:289-291 | the bar is at most 100 and at most the throughput; it equals the throughput iff that is ≤ 100; rated good iff throughput > 50, moderate iff in (25, 50], poor iff ≤ 25 |
| Performance.EfficiencyAnchors | js/calculator.js:278-287 | 0 s scores 100 good, 180 s 70 good, 300 s 30 moderate, 660 s 0 poor: the bands meet |
| Performance.EfficiencyBands | js/calculator.js:278-287 | good scores in [70, 100], moderate in [30, 70), poor below 30 |
| Performance.EfficiencyAntitone | js/calculator.js:278-287 | a longer average never raises the score or improves the rating, and the score falls by at most a third of a percent per second of extra time |
| Performance.SpeedMonotone | js/calculator.js:289-291 | a higher throughput never lowers the bar or worsens the rating |
| Performance.ClassName | js/calculator.js:281-293 | the CSS class shown for each rating: `performance-good`, `performance-moderate`, `performance-poor` |
| Performance.ClassNamesDistinct | js/calculator.js:281-293 | the three ratings show as three different CSS classes |
| Calculator.Calculate | js/calculator.js:152-213 | a form without negative measures is normalised; its levels are resolved and estimated; a level count that is not positive adds no height; 0 < min < avg < max; both bars are scored from the shown figures and lie in [0, 100] |

## Left out

- Reading and writing the page: element lookups, text and style updates, event-listener wiring, `toggleComboInputs`, `toggleBreakdown`, and `resetToDefaults` with its confirmation and reload. The parsed form values arrive as a `RawInput` instead.
- The string parsing of `parseInt` and `parseFloat`: each numeric field is given as already parsed, with `None` for a value that does not parse.
- The HTML of `updateLevelSummary`, and the `toFixed`/`toLocaleString` formatting of `updateResults` and `updateIndicator`: presentation only.
- `exportResults`: it assembles a CSV file download over Blob, URL and a timestamp, from already-rounded display text.
- Floating point: the estimator works over exact reals. NaN, Infinity, rounding and the `try`/`catch` that logs errors are not modelled.
- `palletInner`: the form reads it but nothing uses it.
- Tower-type lookups of inherited object property names such as "constructor": the type comes from a fixed select list.
- Estimator.Estimate: requires positive speeds and car count, and no negative duration, distance or total height. The page does not reject such input; with exact reals a zero or negative divisor has no meaning, and the model does not say what the page shows then.
- Calculator.Calculate: requires a form without a negative height, speed, distance, duration or car count, for the same reason. Level and combo counts may be negative: as on the page, a count that is not positive contributes no levels.
