# Personality mixer: a Dafny model

This project models the computational core of the SwiftUI personality mixer. The user drags a knob inside a disc. Four traits sit around the disc at top, right, bottom and left, and the knob's position decides how much of each trait is in the blend. The model covers six things:

- **Drag pipeline** (`Drag`). One drag event goes through `updatePosition`:
  1. the location becomes an offset in units of the disc's radius;
  2. the offset is projected into the unit disc;
  3. it is pulled toward the centre when it is close to it;
  4. it is checked against the centre zone, so that the haptic tick fires once per crossing.

  `Drive` feeds a sequence of drag events through that step in arrival order.
- **Weights** (`Weights`). `calculateWeight` gives every trait a weight at the control point. Below a distance of 0.15 each trait gets 0.25. Elsewhere the weight is a raised-cosine affinity of the angle between the knob and the trait, divided by the sum over all traits.
- **View's copy of the weight** (`MixerView`). `PersonalityMixerView` has its own copy of `calculateWeight`. The model proves that copy returns the mixer's weight. It also models the view's `traitWeights` list, the `(trait, weight)` payload of `notifyBlendChange`, and the four-trait convenience initialiser.
- **Knob colour** (`BlendColor`). `blendedColor` averages the colours of the traits with positive weight, weighting each by its weight. The knob's distance from the centre then moves the result from white toward that average.
- **Pie chart** (`PieChart`). `PersonalityPieChart` shapes chart values from the weights (a 0.25 fallback and a 2 % floor). It picks the dominant entry with the first-maximum semantics of Swift's `max(by:)`. It prints legend percentages by truncating the original weight.
- **Preview weight** (`Demo`). The preview screen computes its own weight: the positive part of the dot product of the knob position with the trait's axis.

The model is built like this:

- Values of type `CGFloat`/`Double` are modelled as `real`.
- The platform functions `sqrt`, `atan2`, `cos` and `pow` are fields of a `MathLib` value that is passed to every member using them. The predicate `ValidMath` lists the only facts the model relies on:
  - the square root is the non-negative root;
  - `atan2` lies in [-π, π];
  - cosine lies in [-1, 1] and is above -1 strictly inside (-π, π);
  - `pow(b, 2.5)` lies in [0, 1] for b in [0, 1], and is positive for b in (0, 1].
- Colours are RGB triples of reals. The system colours the initialiser names come from a caller-supplied resolver.

Three behaviours are kept as the code has them:

- **Centre weight.** The centre weight is 0.25 for every trait whatever the number of traits, not 1/N. The weights at the centre therefore add up to one only for four traits (`Weights.CentreWeightsAreQuarters`).
- **Knob colour.** The colour is a weight-normalised average over the traits with positive weight, faded by the distance, not the unnormalised sum Σ wᵢ·cᵢ.
- **First drag.** A session starts with `wasInCenter = false` while the knob is at the centre. The first drag event that settles inside the centre zone therefore fires the tick even though the knob never left the zone (`Drag.FreshSessionFiresAtCentre`).

In the code:

- The tuning constants are fixed (0.15, 0.3, 0.25, 2.5, disc size 300 plus 120 for labels). They are not parameters.
- The drag handler is always called with the mixer's own frame, so a non-positive radius cannot reach it. No error path for that exists.
- Duplicate trait names are not rejected. The legend reads the weight of the first trait with the entry's name (`PieChart.LegendPercent`).

## Model

| member | source | states |
|---|---|---|
| Traits.Angle | DWQuadPreference/PersonalityMixer.swift:19-26 | each position's angle lies in (-180, 180] |
| Traits.AnglesAreQuarterTurns | DWQuadPreference/PersonalityMixer.swift:19-26 | distinct positions have distinct angles, and top → right → bottom → left each turn by +90° |
| Geometry.Distance | DWQuadPreference/PersonalityMixer.swift:335 | `sqrt(x*x + y*y)` is the non-negative number whose square is the squared norm |
| Geometry.DistanceBelow | DWQuadPreference/PersonalityMixer.swift:343 | comparing the distance with a non-negative bound is comparing the squared norm with the bound's square |
| Geometry.DistanceAtMostOne | DWQuadPreference/PersonalityMixer.swift:335-336 | the distance is at most 1 exactly when the point lies in the closed unit disc |
| Geometry.DistanceScale | DWQuadPreference/PersonalityMixer.swift:337-338 | scaling both coordinates by k ≥ 0 scales the squared norm by k² and the distance by k |
| Geometry.SameDirectionTransitive | DWQuadPreference/PersonalityMixer.swift:337-346 | a positive rescaling of a positive rescaling of a point is a positive rescaling of it, so the two adjustments compose without turning the point |
| Drag.KnobLocation | DWQuadPreference/PersonalityMixer.swift:227-230 | the knob's frame location for a position; normalising that location in the mixer's frame gives the position back |
| Drag.Relative | DWQuadPreference/PersonalityMixer.swift:327-332 | the drag location is the frame centre plus the offset times the disc's radius (the offset is recovered exactly) |
| Drag.KnobFollowsDrag | DWQuadPreference/PersonalityMixer.swift:227-230 | drawing the knob at an unadjusted offset in the mixer's frame puts it exactly under the drag location |
| Drag.ClampToDisc | DWQuadPreference/PersonalityMixer.swift:334-340 | the result lies in the disc; a point already in the disc is unchanged; a point outside lands on the unit circle in the same direction, with distance 1 |
| Drag.ClampLandsOnCircle | DWQuadPreference/PersonalityMixer.swift:336-339 | dividing a point outside the disc by its distance gives a point of norm 1 in the same direction |
| Drag.PullStrength | DWQuadPreference/PersonalityMixer.swift:344 | strictly inside the magnetic radius and off-centre, the pull lies strictly between 0 and the magnetic strength |
| Drag.PullStrongerNearCentre | DWQuadPreference/PersonalityMixer.swift:344 | the pull strictly decreases as the distance grows |
| Drag.MagneticPull | DWQuadPreference/PersonalityMixer.swift:342-348 | for 0 < d < 0.25 both coordinates are scaled by the same factor 1 - pull, the direction is kept, and the new distance lies strictly between (1 - 0.3)·d and d; any other point is left unchanged; the stored distance is the point's distance |
| Drag.PullShortens | DWQuadPreference/PersonalityMixer.swift:345-347 | scaling a point by 1 - pull, with pull in (0, 0.3), keeps its direction and shortens it by less than 30 % |
| Drag.ShrinkTo | DWQuadPreference/PersonalityMixer.swift:345-347 | removing a fraction in (0, 0.3) of a positive length leaves a length strictly between 70 % of it and all of it |
| Drag.CenterStep | DWQuadPreference/PersonalityMixer.swift:350-355 | the remembered side becomes "distance < 0.15", and the tick fires exactly when that differs from the previously remembered side |
| Drag.UpdatePosition | DWQuadPreference/PersonalityMixer.swift:326-360 | the new position lies in the disc; `wasInCenter` says whether it is within 0.15 of the centre; the tick fires exactly when that flag changed; an offset at distance in [0.25, 1] is kept as is; a drag at the exact centre settles at the origin; the knob always lies on the ray from the centre through the drag offset, never farther out than the offset; an offset outside the disc ends exactly on the unit circle |
| Drag.PullStaysInDisc | DWQuadPreference/PersonalityMixer.swift:342-348 | the magnetic pull never moves a point of the disc outside it |
| Drag.SettleKeepsRay | DWQuadPreference/PersonalityMixer.swift:334-348 | clamping and then pulling keeps the offset on its ray from the centre and never increases its distance |
| Drag.SecondUpdateFiresOnlyOnCrossing | DWQuadPreference/PersonalityMixer.swift:350-355 | of two consecutive drag events, the second fires exactly when the two settled positions lie on different sides of the centre threshold, so staying on one side never fires |
| Drag.Drive | DWQuadPreference/PersonalityMixer.swift:236-239 | feeding drag events in order gives one update per event, update i being `UpdatePosition` of the previous event's state (the initial state for the first) and location i in the mixer's frame, each in the disc with a correct centre flag, and each firing exactly when its flag differs from the previous event's (or the initial state's) |
| Drag.FreshSessionFiresAtCentre | DWQuadPreference/PersonalityMixer.swift:350-355 | from the initial state (origin, `wasInCenter` unset) a drag at the frame's centre fires the tick |
| Weights.InlineAngle | DWQuadPreference/PersonalityMixer.swift:424-431 | the inline `switch` gives every position the same angle as `Position.angle` |
| Weights.SelectorAngle | DWQuadPreference/PersonalityMixer.swift:434 | the knob's direction in degrees lies in [-180, 180] |
| Numeric.Abs | DWQuadPreference/PersonalityMixer.swift:437 | the result is non-negative and is either the argument or its negation |
| Weights.WrapDiff | DWQuadPreference/PersonalityMixer.swift:437-440 | for two angles in [-180, 180] the folded difference lies in [0, 180] |
| Weights.WrapDiffIsCircularDistance | DWQuadPreference/PersonalityMixer.swift:437-440 | the folded difference is symmetric and is the shorter of the two ways round the circle |
| Weights.Affinity | DWQuadPreference/PersonalityMixer.swift:444-446 | the raised-cosine affinity lies in [0, 1] |
| Weights.PositionAffinity | DWQuadPreference/PersonalityMixer.swift:437-446 | the raw weight of a position seen from the knob's angle lies in [0, 1] |
| Weights.RawWeights | DWQuadPreference/PersonalityMixer.swift:449-464 | one raw affinity per trait, in trait order, each in [0, 1] |
| Numeric.Sum | DWQuadPreference/PersonalityMixer.swift:466 | `reduce(0, +)` as a left fold over the list; no contract of its own, its facts are stated by `Numeric.SumNonNegative`, `Numeric.ElementAtMostSum`, `Numeric.ZeroSumMeansAllZero` and `Numeric.SumDivideAll` |
| Weights.TotalAffinity | DWQuadPreference/PersonalityMixer.swift:466 | the sum of the raw affinities is non-negative |
| Weights.Weight | DWQuadPreference/PersonalityMixer.swift:415-470 | the weight is non-negative; it is 0.25 within 0.15 of the centre and when the total is 0; otherwise weight × total equals the trait's raw affinity |
| Weights.WeightVector | DWQuadPreference/PersonalityMixer.swift:382-383 | one non-negative weight per trait, in trait order, each the trait's `calculateWeight` |
| Weights.CentreWeightsAreQuarters | DWQuadPreference/PersonalityMixer.swift:419-422 | in the centre zone every weight is 0.25, they sum to N/4, and they sum to 1 exactly when there are four traits |
| Weights.WeightsSumToOne | DWQuadPreference/PersonalityMixer.swift:466-469 | outside the centre zone with a positive total, the weights sum to exactly 1 |
| Weights.WeightIsShare | DWQuadPreference/PersonalityMixer.swift:466-469 | outside the centre zone with a positive total, a trait's weight is its raw affinity divided by the total |
| Weights.DegenerateFallback | DWQuadPreference/PersonalityMixer.swift:466-469 | outside the centre zone with a zero total, every trait has zero affinity and gets 0.25 |
| Weights.WeightAtMostOne | DWQuadPreference/PersonalityMixer.swift:466-469 | the weight of a position that some trait occupies is at most 1 |
| Weights.SingleTraitTakesAll | DWQuadPreference/PersonalityMixer.swift:466-469 | outside the centre zone a lone trait with any affinity gets weight 1 |
| Weights.AffinityPositive | DWQuadPreference/PersonalityMixer.swift:437-446 | a trait not exactly opposite the knob has a positive raw affinity |
| Weights.OppositeIsUnique | DWQuadPreference/PersonalityMixer.swift:437-440 | of two different positions at most one is exactly opposite the knob |
| Weights.TotalAffinityPositive | DWQuadPreference/PersonalityMixer.swift:449-466 | two traits at different positions make the total positive, so the fallback cannot fire |
| Weights.TwoPositionsSumToOne | DWQuadPreference/PersonalityMixer.swift:415-470 | outside the centre zone, two traits at different positions make the weights sum to exactly 1 |
| Weights.BisectorIsFair | DWQuadPreference/PersonalityMixer.swift:437-446 | a knob on the bisector of two opposite positions gives both the same raw affinity |
| BlendColor.MixPositive | DWQuadPreference/PersonalityMixer.swift:382-398 | the total weight is non-negative and is zero exactly when no trait has positive weight; with colours in [0, 1] each channel sum lies in [0, total] |
| BlendColor.AddEntry | DWQuadPreference/PersonalityMixer.swift:393-396 | adding one positive-weight trait adds its weight to the total and keeps each channel sum in [0, total] |
| BlendColor.Average | DWQuadPreference/PersonalityMixer.swift:400-403 | dividing channel sums in [0, total] by the total gives a colour in the unit cube |
| BlendColor.AverageBounds | DWQuadPreference/PersonalityMixer.swift:400-403 | each channel sum between 0 and the positive total, divided by the total, gives a channel in [0, 1] |
| BlendColor.Fade | DWQuadPreference/PersonalityMixer.swift:406-408 | a channel is white at influence 0 and the mixed value at influence 1, and stays in [0, 1] |
| BlendColor.Toward | DWQuadPreference/PersonalityMixer.swift:405-408 | the colour is white at influence 0 and the mixed colour at influence 1, and stays in the unit cube |
| BlendColor.BlendedColor | DWQuadPreference/PersonalityMixer.swift:366-412 | white when the distance is not positive or no trait has positive weight; otherwise the mixed average faded by the distance; in the unit cube whenever the knob is in the disc and the trait colours are |
| BlendColor.MixOfUniform | DWQuadPreference/PersonalityMixer.swift:382-398 | when all traits share one colour, each channel sum is that colour's channel times the total weight |
| BlendColor.AddUniform | DWQuadPreference/PersonalityMixer.swift:393-396 | one loop iteration keeps channel sums proportional to a shared colour |
| BlendColor.AverageOfUniform | DWQuadPreference/PersonalityMixer.swift:400-403 | dividing proportional channel sums by the total recovers the shared colour |
| BlendColor.UniformBlend | DWQuadPreference/PersonalityMixer.swift:366-412 | traits sharing one colour blend to that colour faded by the distance |
| MixerView.CalculateWeight | DWQuadPreference/PersonalityMixerView.swift:147-199 | the view's copy returns the same weight as the mixer's `calculateWeight` for the same position and trait list |
| MixerView.AllRawWeights | DWQuadPreference/PersonalityMixerView.swift:178-193 | the view's list of raw weights is the mixer's list, element for element |
| MixerView.ViewTraitAngle | DWQuadPreference/PersonalityMixerView.swift:155-161 | the view's `switch` gives every position the angle of `Position.angle` |
| MixerView.ViewRawWeight | DWQuadPreference/PersonalityMixerView.swift:166-175 | the view's raw weight is the mixer's raised-cosine affinity of the folded difference |
| MixerView.TraitWeights | DWQuadPreference/PersonalityMixerView.swift:143-145 | the list is the mixer's weight vector: one weight per trait, in trait order |
| MixerView.NotifyBlendChange | DWQuadPreference/PersonalityMixerView.swift:201-205 | the payload has one entry per trait, pairing trait i with its weight, in trait order |
| MixerView.DefaultTraits | DWQuadPreference/PersonalityMixerView.swift:211-220 | four traits with pairwise distinct names and positions, covering all four positions |
| MixerView.DefaultBlendSumsToOne | DWQuadPreference/PersonalityMixerView.swift:201-220 | with the default traits, the reported weights sum to exactly 1 at every control point |
| MixerView.ReportedBlendSumsToOne | DWQuadPreference/PersonalityMixerView.swift:195-205 | outside the centre zone, a trait list with two different positions reports weights summing to 1 |
| PieChart.ChartData | Sources/PersonalityMixer/PersonalityPieChart.swift:13-25 | one entry per trait in trait order, each at least 0.02; all 0.25 when the weights sum to ≤ 0; otherwise a weight above 0.02 passes through and any other becomes exactly 0.02 |
| PieChart.ChartValueIsFlooredWeight | Sources/PersonalityMixer/PersonalityPieChart.swift:20-24 | with a positive total each chart value is the larger of the weight and 0.02 |
| PieChart.SumAtLeast | Sources/PersonalityMixer/PersonalityPieChart.swift:23 | a list whose elements are all at least c sums to at least c per element |
| PieChart.ChartTotalPositive | Sources/PersonalityMixer/PersonalityPieChart.swift:13-25 | chart values sum to at least 0.02 per trait, so a non-empty chart has a positive total |
| PieChart.Dominant | Sources/PersonalityMixer/PersonalityPieChart.swift:48 | no entry for an empty chart; otherwise an entry whose value no other exceeds, and the first such |
| PieChart.IndexOr | Sources/PersonalityMixer/PersonalityPieChart.swift:75 | the `?? 0` applied to `firstIndex`; no contract of its own, `PieChart.LegendPercent` states the index it yields |
| PieChart.FirstIndexByName | Sources/PersonalityMixer/PersonalityPieChart.swift:75 | the first index whose trait has the name, or none when no trait has it |
| PieChart.LegendPercent | Sources/PersonalityMixer/PersonalityPieChart.swift:75 | the percentage read at the first index whose trait has the entry's name (no earlier trait has that name), from the original weight; for unique names the entry's own weight; in 0...100 for weights in [0, 1] |
| PieChart.LegendReadsOwnWeight | Sources/PersonalityMixer/PersonalityPieChart.swift:75 | with distinct names every legend line shows its own trait's truncated percentage |
| PieChart.FloorIsNotInLegend | Sources/PersonalityMixer/PersonalityPieChart.swift:23 | a zero weight is drawn at 0.02 while its legend reads 0 % |
| PieChart.DefaultChartShowsBlend | Sources/PersonalityMixer/PersonalityPieChart.swift:14-23 | the chart of the default view's reported weights never takes the fallback, so weights above 0.02 are drawn as they are |
| Numeric.Truncate | Sources/PersonalityMixer/PersonalityPieChart.swift:75 | `Int(x)` rounds toward zero: for x ≥ 0 the largest integer ≤ x, for x < 0 the smallest ≥ x |
| Numeric.Percent | Sources/PersonalityMixer/PersonalityPieChart.swift:75 | `Int(w * 100)` is the whole percentage below w·100, in 0...100 for w in [0, 1] |
| Demo.AxisVector | DWQuadPreference/PersonalityMixer.swift:523-529 | the `traitVector` table in screen coordinates; no contract of its own, its facts are stated by `Demo.AxesAreUnit` and `Demo.OppositeAxes` |
| Demo.Dot | DWQuadPreference/PersonalityMixer.swift:531 | the `dotProduct` of the control point with the axis; no contract of its own, `Demo.ProjectionOnAxis` states that it picks out the signed coordinate |
| Demo.DemoWeight | DWQuadPreference/PersonalityMixer.swift:522-533 | the weight is non-negative: the dot product when that is positive, 0 otherwise |
| Demo.AxesAreUnit | DWQuadPreference/PersonalityMixer.swift:523-529 | every trait axis has length one |
| Demo.OppositeAxes | DWQuadPreference/PersonalityMixer.swift:523-529 | opposite positions have opposite axes |
| Demo.ProjectionOnAxis | DWQuadPreference/PersonalityMixer.swift:531 | projecting on an axis picks out one coordinate with the axis's sign |
| Demo.DemoWeightAtMostOne | DWQuadPreference/PersonalityMixer.swift:522-533 | inside the disc no demo weight exceeds one |
| Demo.OppositesExclude | DWQuadPreference/PersonalityMixer.swift:531-532 | of two opposite traits at least one has weight 0 |
| Demo.DemoCentreIsEmpty | DWQuadPreference/PersonalityMixer.swift:531-532 | at the centre every demo weight is 0 |
| Demo.LowerRightWeights | DWQuadPreference/PersonalityMixer.swift:531-532 | below and right of the centre, right and bottom get the coordinates as weights |
| Demo.DemoWeightsCanExceedOne | DWQuadPreference/PersonalityMixer.swift:531-532 | the demo weights are not normalised: at (0.7, 0.7), inside the disc, two of them add up to more than one |
| Demo.DemoPercent | DWQuadPreference/PersonalityMixer.swift:509 | the printed percentage is the whole percentage below weight·100, in 0...100 inside the disc |

## Left out

- SwiftUI rendering is not modelled, because it is presentation with no computation to state: the `body` views, gradients, shadows, blur, animations, the `labelPosition`/`labelRotation` layout and the Charts `SectorMark`s.
- The `localPosition`/`mixerPosition` binding synchronisation (`onChange`, `onAppear`, `currentPosition`) is not modelled, because it is framework lifecycle. Every member takes the control point as a parameter.
- `UIImpactFeedbackGenerator` is represented only by the boolean `haptic` of each update, because the generator itself is a platform side effect.
- Colour resolution is not modelled, because it is platform code. `UIColor(...).getRed` and SwiftUI system colours are replaced by RGB triples and the `resolve` parameter of `MixerView.DefaultTraits`. The alpha channel is not modelled.
- The call to the optional `onBlendChange` callback is not modelled, because it is the caller's code. `MixerView.NotifyBlendChange` returns the payload it would receive.
- Floating point is replaced by real arithmetic, because IEEE-754 behaviour is outside the model. This leaves out IEEE-754 rounding, NaN, infinities and signed zero in all members, and the trap of `Int(_)` on non-finite or huge values.
- The exact values of `sqrt`, `atan2`, `cos` and `pow` are not modelled; only the facts in `ValidMath` are. As a result:
  - the selector angle of a concrete point (such as `atan2(0, x) = 0`) is not known;
  - `Weights.BisectorIsFair` is stated for the selector angle rather than for a point on the bisector.
- The preview screen's trait list (DWQuadPreference/PersonalityMixer.swift:482-487) is not a separate member, because it is the same list as the convenience initialiser, which `MixerView.DefaultTraits` models.
- `PieChart.ChartData` (when the weights sum to more than 0) and `PieChart.LegendPercent` require at least as many weights as traits, where the Swift code would trap on `weights[index]` out of range. The trap is not modelled as an error path, because the only call site (DWQuadPreference/PersonalityMixerView.swift:110) passes `traitWeights`, which is `traits.map`, so both lists always have the same length.
- PieChart.FirstIndexByName: matches trait names by equality of their code-point sequences, while Swift's `String ==` also treats canonically equivalent spellings (such as a precomposed and a decomposed "é") as equal, because Unicode normalisation is outside the model.
- PieChart.LegendPercent: the "first trait with the entry's name" is the first one whose name has the same code points, so for canonically equivalent but differently spelled names it can read a later weight than the Swift code does, for the same reason.
- PieChart.LegendReadsOwnWeight: its "distinct names" hypothesis is distinctness of code-point sequences, not Swift's canonical-equivalence notion of distinct strings, for the same reason.
- DWQuadPreference/ContentView.swift and Package.swift are not part of this model, because they hold only a background view, logging and the build manifest.
