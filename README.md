# Segmented ring engine — a Dafny model

The repository is a library of React loading spinners. Three of its
components share one real piece of logic: a ring split into coloured
segments (`{angle, color, gap}`), which
- rotates continuously;
- periodically redistributes its segment angles (one segment fixed, the
  smaller of the first two other segments grows, the larger shrinks but never below 30°);
- animates each redistribution with a 120-frame cubic ease-in-out
  transition;
- is drawn as wedges whose start angles are prefix sums of `angle + gap`.

This project models that engine and the three components built on it:

| component | source | modelled as |
|---|---|---|
| `ArcLoadingIndicator` | `arc-loading-indicator.tsx` | class `ArcIndicator.ArcLoadingIndicator`, one field per piece of React state |
| `MultiArcIndicator` | `multi-arc-indicator.tsx` | class `MultiArcIndicator.MultiArcLoadingIndicator`, one `seq<LayerState>` field |
| `MultiLayerArcLoadingIndicator` | `multi-layer-arc-loading-indicator.tsx` | class `MultiLayerIndicator.MultiLayerArcLoadingIndicator`, four parallel `seq` fields |

The engine parts appear once in each source file. They are defined once
here, in shared modules:
- `Segments`: ring data and sums;
- `Easing`: `easeInOutCubic`;
- `Redistribution`: the target computation;
- `Transition`: one animation frame;
- `Rotation`: `(r + speed) % 360`;
- `Layout`: `renderArcs`.

Their table rows cite `arc-loading-indicator.tsx`. The same code sits in
the other two files:
- `multi-arc-indicator.tsx`: 6-8, 111-183, 210-247, 329-368;
- `multi-layer-arc-loading-indicator.tsx`: 6-8, 121-177, 215-245, 300-337.

Each interval or animation-frame callback is a method of its class. The
method changes only the fields the callback sets. Its `ensures` ties the new
state to a pure function of the old state (`NextTarget`, `Step`, `Tick`).
The class predicates `Valid` and `Floored` are the invariants every callback
keeps:
- current and target rings have the same shape;
- progress stays in [0, 1];
- the target's angle sum is never below the displayed ring's;
- every angle stays at least 30° once it is.

Angles are `real`. `Math.random()` is a parameter in [0, 1). A redistribution
on fewer than three segments throws in the source (`otherIndices[1]` is
undefined). Here it is an `Err` result, and the class method reports
`ok == false` and changes nothing.

Three behaviours of the code are worth knowing when reading the contracts:
- **Angle-sum drift is never corrected.** Each redistribution adds
  `max(0, 40 − d)` to the ring's angle sum, where `d` is the shrinking
  segment's angle (`TargetAngleSum`). No step lowers the sum
  (`TargetNeverShrinksRing`, `StepKeepsConsistent`). `DriftCanTriggerWarning`
  gives a ring that crosses the ±1° tolerance in one round.
- **Rotation can go negative.** JavaScript `%` keeps the sign of its left
  operand, and the generated layers have speed `1 − 0.2·i`, which is below 0
  from the seventh layer on. So a rotation can be negative
  (`Remainder360`, `Tick`).
- **A short ring fails late.** A ring of fewer than three segments is accepted
  at mount, and the first redistribution throws.

## Model

| member | source | states |
|---|---|---|
| Segments.EvenRing | arc-loading-indicator.tsx:27-31 | the default ring (three 110° segments with 10° gaps) has three segments, each at least 30°, tiling exactly 360° with no warning |
| Segments.SumWarning | arc-loading-indicator.tsx:186-189 | the diagnostic (also multi-arc-indicator.tsx:259-266) fires exactly when the ring's angle sum including gaps lies outside [359°, 361°] |
| Segments.SameShapeTotals | arc-loading-indicator.tsx:186 | for rings of equal length, colours and gaps, the totals with gaps differ exactly as the angle sums do |
| Easing.Ease | arc-loading-indicator.tsx:6-8 | maps [0, 0.5) into [0, 0.5) and [0.5, 1] into [0.5, 1] |
| Easing.EaseFixedPoints | arc-loading-indicator.tsx:6-8 | ease(0) = 0, ease(0.5) = 0.5, ease(1) = 1 |
| Easing.EaseMonotone | arc-loading-indicator.tsx:6-8 | non-decreasing on [0, 1] |
| Easing.EaseSymmetric | arc-loading-indicator.tsx:6-8 | ease(1 − x) = 1 − ease(x) for every x |
| Redistribution.FixedIndex | arc-loading-indicator.tsx:62 | `floor(r·n)` with r in [0, 1) is an index in [0, n) |
| Redistribution.Remaining | arc-loading-indicator.tsx:65-66 | the filtered index list is ascending, omits the fixed index, contains every other index below n, and has length n − 1 |
| Redistribution.Choose | arc-loading-indicator.tsx:62-79 | succeeds iff there are at least 3 segments; fixed, grow and shrink indices are distinct; grow and shrink are the first two indices other than the fixed one; the grown segment is not larger, and on a tie it is the earlier one |
| Redistribution.MaxDecrease | arc-loading-indicator.tsx:88 | the largest safe decrease: non-negative, shrinking by it never goes below min(angle, 30), and it lands exactly on 30° when the angle is at least 30° |
| Redistribution.AngleChange | arc-loading-indicator.tsx:96-103 | a whole number of degrees, at least 10, and within every one of the three limits (max decrease, 70% of the growing angle, maxAngleChange) that is at least 10 |
| Redistribution.NextTarget | arc-loading-indicator.tsx:62-121 | succeeds iff at least 3 segments; keeps length, colours and gaps; the grown segment gains exactly the change; the shrunk one is at least 30°, loses exactly the change when it had at least 40°, and becomes 30° otherwise; every other segment is copied |
| Redistribution.TargetAngleSum | arc-loading-indicator.tsx:88-121 | the angle sum, and the total with gaps, grow by exactly 0 when the shrinking segment had at least 40°, and by 40 − its angle otherwise |
| Redistribution.TargetNeverShrinksRing | arc-loading-indicator.tsx:106-121 | a redistribution never lowers the angle sum or the total with gaps |
| Redistribution.TargetKeepsFloor | arc-loading-indicator.tsx:106-121 | if every angle is at least 30° before, every target angle is at least 30° |
| Redistribution.DefaultRoundPreservesCircle | arc-loading-indicator.tsx:27-34 | from the default ring with limit 40, for any draws: the target still tiles exactly 360°, one segment strictly grows, one strictly shrinks, and the fixed one is unchanged |
| Redistribution.DriftCanTriggerWarning | arc-loading-indicator.tsx:186-189 | a ring within tolerance (35°, 35°, 230°, gaps 20°) leaves it after one round |
| Transition.Interpolate | arc-loading-indicator.tsx:149-160 | keeps length, colours and gaps; for e in [0, 1] each angle lies between current and target; e = 0 gives the current ring and e = 1 the target angles |
| Transition.InterpolateAngleSum | arc-loading-indicator.tsx:149-160 | the interpolated angle sum is the same interpolation of the two sums |
| Transition.Step | arc-loading-indicator.tsx:135-167 | idle (progress ≥ 1) is left alone; otherwise progress becomes min(1, p + 1/120) and strictly increases; it never exceeds 1; on reaching 1 the ring is exactly the target; before that it keeps its shape and every angle lies between current and target |
| Transition.RunProgress | arc-loading-indicator.tsx:138-146 | started at 0, the k-th frame (k ≤ 120) has progress k/120 |
| Transition.RunReachesTarget | arc-loading-indicator.tsx:138-167 | from 0, after 120 or more frames the ring equals the target exactly and progress is 1 |
| Transition.StepKeepsFloor | arc-loading-indicator.tsx:149-167 | a frame never takes an angle below a floor that the current and target rings both respect |
| Transition.StepAngleSum | arc-loading-indicator.tsx:149-167 | a frame moves the angle sum towards the target's and never past it |
| Transition.StepKeepsConsistent | arc-loading-indicator.tsx:133-171 | a frame keeps same shape, progress in [0, 1] and target sum ≥ current sum, and never lowers the current sum |
| Rotation.Remainder360 | arc-loading-indicator.tsx:53 | JavaScript `% 360`: in [0, 360) for non-negative input and in (−360, 0] for negative input; the identity inside (−360, 360); differs from its input by a whole number of turns |
| Rotation.Tick | arc-loading-indicator.tsx:53 | one rotation step `(rotation + speed) % 360` (also multi-arc-indicator.tsx:97 and multi-layer-arc-loading-indicator.tsx:112): in [0, 360) when the sum is non-negative, in (−360, 0] when it is negative (layers whose speed is below zero spin backwards, so every result stays strictly within one turn of zero), and a whole number of turns away from the sum |
| Rotation.TickStaysInTurn | arc-loading-indicator.tsx:53 | with rotation in [0, 360) and non-negative speed, the result stays in [0, 360): unchanged sum below 360, minus 360 in [360, 720) |
| Rotation.TickWrapsExample | arc-loading-indicator.tsx:53 | 350 advanced by 20 gives 10 |
| Layout.LargeArcFlag | arc-loading-indicator.tsx:307 | the flag is 0 or 1, and 1 exactly when the arc exceeds 180° |
| Layout.RenderArcs | arc-loading-indicator.tsx:222-259 | one wedge per segment, in order, each starting at the sum of angle + gap over the segments before it, with the segment's angle, colour and large-arc flag |
| Layout.StartAngleIsPrefixSpan | arc-loading-indicator.tsx:231-255 | the running start angle before segment i is the total with gaps of the first i segments |
| Layout.StartAngleMonotone | arc-loading-indicator.tsx:231-255 | with non-negative angles and gaps, wedges never overlap: each starts no earlier than every earlier one ends |
| Layout.RingCloses | arc-loading-indicator.tsx:186-189 | when the ±1° check is silent, the last wedge and its gap end within 1° of 360 |
| Layout.BandRadii | arc-loading-indicator.tsx:178-183 | outer − inner equals the width, and the band is centred on the radius |
| ArcIndicator.DefaultSegments | arc-loading-indicator.tsx:27-31 | three segments, each at least 30°, tiling exactly 360° |
| ArcIndicator.ArcLoadingIndicator.constructor | arc-loading-indicator.tsx:41-47 | rotation 0, progress 1 (idle), current and target both equal the configured segments |
| ArcIndicator.ArcLoadingIndicator.RotationTick | arc-loading-indicator.tsx:50-54 | only the rotation changes, to `(rotation + speed) % 360`, staying in [0, 360) for non-negative speed |
| ArcIndicator.ArcLoadingIndicator.ChangeAngles | arc-loading-indicator.tsx:60-126 | succeeds iff at least 3 segments; the target becomes the redistribution of the displayed ring and progress restarts at 0; on failure nothing changes; the invariants and the 30° floor are kept |
| ArcIndicator.ArcLoadingIndicator.TransitionFrame | arc-loading-indicator.tsx:133-171 | a frame is requested iff a transition is running; current ring and progress become one Step; the displayed angle sum never decreases; invariants and floor kept |
| ArcIndicator.ArcLoadingIndicator.Render | arc-loading-indicator.tsx:173-211 | group rotation is the state's rotation; one wedge per segment on the band 35..49 with prefix-sum start angles, the segment's angle and colour, and the large-arc rule |
| MultiArcIndicator.DefaultLayers | multi-arc-indicator.tsx:36-70 | three layers of radius 30, 42 and 54 and width 8, each three segments tiling exactly 360° with no warning |
| MultiArcIndicator.AdvanceLayer | multi-arc-indicator.tsx:212-246 | an idle layer is returned unchanged; a running one takes one Step; rotation and target are kept; the layer invariant is kept and the angle sum never decreases |
| Redistribution.ChangePeriod | multi-arc-indicator.tsx:194 | a layer's redistribution period `changeInterval + i·stagger` (stagger 500 here, 400 at multi-layer-arc-loading-indicator.tsx:192) is at least changeInterval, and strictly more for every layer after the first |
| Redistribution.ChangePeriodsStaggered | multi-arc-indicator.tsx:194 | with a positive stagger, later layers have strictly longer periods |
| MultiArcIndicator.MultiArcLoadingIndicator.constructor | multi-arc-indicator.tsx:82-87 | one idle record per layer with current = target = configured segments and the configured rotation |
| MultiArcIndicator.MultiArcLoadingIndicator.RotationTick | multi-arc-indicator.tsx:91-101 | only the given layer's rotation changes, to `(rotation + rotationSpeed) % 360` |
| MultiArcIndicator.MultiArcLoadingIndicator.ChangeLayerAngles | multi-arc-indicator.tsx:111-192 | only the given layer's target (the redistribution of its displayed ring) and progress (0) change; failure on fewer than 3 segments changes nothing; invariants and floor kept |
| MultiArcIndicator.MultiArcLoadingIndicator.TransitionFrame | multi-arc-indicator.tsx:201-252 | a frame is requested iff some layer is running; every layer becomes its AdvanceLayer; no layer's angle sum decreases; invariants and floor kept |
| MultiArcIndicator.MultiArcLoadingIndicator.Render | multi-arc-indicator.tsx:293-319 | the layer's rotation, and one wedge per displayed segment with prefix-sum start angles on a band of the layer's width centred on its radius, carrying the segment's angle and colour, with the large-arc flag set exactly when the wedge exceeds 180° |
| MultiLayerIndicator.Round | multi-layer-arc-loading-indicator.tsx:55-57 | `Math.round` is the integer nearest its argument, halves rounding up |
| MultiLayerIndicator.Factor | multi-layer-arc-loading-indicator.tsx:54 | `index / (layers − 1)`: NaN exactly for a one-layer ramp; otherwise in [0, 1] and equal to the index once multiplied by `layers − 1` |
| MultiLayerIndicator.Mix | multi-layer-arc-loading-indicator.tsx:55-57 | a channel is NaN exactly when the factor is; otherwise it is the interpolated value rounded to within half a unit |
| MultiLayerIndicator.RampEntryBetween | multi-layer-arc-loading-indicator.tsx:53-57 | with two or more layers every rounded channel lies between the start and end channel |
| MultiLayerIndicator.RampEnds | multi-layer-arc-loading-indicator.tsx:53-57 | with two or more layers the first entry is exactly the start colour and the last exactly the end colour |
| MultiLayerIndicator.Ramp | multi-layer-arc-loading-indicator.tsx:53-59 | one entry per layer, each the rounded mix by index/(layers − 1); a single layer gives NaN channels; ends exact; every entry between the ends |
| MultiLayerIndicator.BlueShades | multi-layer-arc-loading-indicator.tsx:36-60 | the ramp has one entry per layer, runs from the mode's start colour to its end colour (swapped when reversed), stays between them, and is NaN for a single layer |
| MultiLayerIndicator.ShadesReversed | multi-layer-arc-loading-indicator.tsx:46-51 | reversing the colours reverses the ramp: entry i reversed equals entry layers − 1 − i unreversed |
| MultiLayerIndicator.Digits | multi-layer-arc-loading-indicator.tsx:58 | a channel prints as a non-empty decimal numeral without leading zeros |
| MultiLayerIndicator.ChannelText | multi-layer-arc-loading-indicator.tsx:58 | a channel prints as "NaN" exactly when it is NaN; a non-negative value prints as a numeral that reads back as the value, a negative one as "-" followed by the numeral of its magnitude |
| MultiLayerIndicator.CssColor | multi-layer-arc-loading-indicator.tsx:58 | the colour string is at least 12 characters, opens with "rgb(" and closes with ")" |
| MultiLayerIndicator.CssColorInjective | multi-layer-arc-loading-indicator.tsx:58 | the printed `rgb(r, g, b)` string determines the shade: two shades that print the same are equal, channel by channel, NaN included |
| MultiLayerIndicator.ChannelTextInjective | multi-layer-arc-loading-indicator.tsx:58 | distinct channel values (NaN, non-negative, negative) print as distinct texts |
| MultiLayerIndicator.DigitsRoundTrip | multi-layer-arc-loading-indicator.tsx:58 | the printed numeral reads back as the channel value |
| MultiLayerIndicator.CreateInitialLayers | multi-layer-arc-loading-indicator.tsx:79-97 | layer i has three 110°/10° segments in the i-th shade tiling 360°, a band of width 12 + i centred on 42 − 4i, and speed 1 − 0.2i |
| MultiLayerIndicator.LayersNestInwards | multi-layer-arc-loading-indicator.tsx:82-94 | a later layer has a strictly smaller outer radius and a strictly lower speed |
| MultiLayerIndicator.AdvanceLayers | multi-layer-arc-loading-indicator.tsx:210-249 | the per-layer pass leaves every layer's progress and segments exactly as one Step leaves them (idle layers untouched), and keeps each layer's radii and speed |
| MultiLayerIndicator.MultiLayerArcLoadingIndicator.constructor | multi-layer-arc-loading-indicator.tsx:76-106 | layers created from the ramp printed as CSS colours, rotations 0, every layer idle with target = its segments |
| MultiLayerIndicator.MultiLayerArcLoadingIndicator.RotationTick | multi-layer-arc-loading-indicator.tsx:109-117 | every rotation i becomes `(rotation + speed_i) % 360`; nothing else changes |
| MultiLayerIndicator.MultiLayerArcLoadingIndicator.ChangeLayerAngles | multi-layer-arc-loading-indicator.tsx:121-188 | only index i of the targets (the redistribution of layer i's displayed ring) and of the progress array (0) change; failure changes nothing; invariants and floor kept |
| MultiLayerIndicator.MultiLayerArcLoadingIndicator.TransitionFrame | multi-layer-arc-loading-indicator.tsx:200-252 | requested iff some layer is running; each layer takes one Step; radii and speed kept; no layer's angle sum decreases; invariants and floor kept |
| MultiLayerIndicator.MultiLayerArcLoadingIndicator.Render | multi-layer-arc-loading-indicator.tsx:274-290 | the layer's rotation, and one wedge per displayed segment with prefix-sum start angles on the layer's own inner and outer radius, carrying the segment's angle and colour (the layer's ramp colour), with the large-arc flag set exactly when the wedge exceeds 180° |

## Left out

- Wedge path geometry: the body of `createRoundedArc` (trigonometry, floating point, SVG path text) is not modelled; a wedge records the builder's arguments and its large-arc flag only.
- React plumbing: `useState`/`useEffect`, `setInterval`, `requestAnimationFrame`, cleanup and re-subscription are not modelled. Each callback is a method the environment may call in any order, so the model allows a redistribution at any moment. The components schedule redistributions differently:
  - `ArcLoadingIndicator`: the redistribution effect depends on `[segments.length, currentSegments, maxAngleChange, changeInterval]` (arc-loading-indicator.tsx:131). Every frame changes `currentSegments`, so the interval is re-created and redistributions are postponed while a transition runs.
  - `MultiArcIndicator`: the effect depends only on `[changeInterval, maxAngleChange]` (multi-arc-indicator.tsx:198). Its intervals are never re-created, so redistributions do happen in the middle of a transition.
  - `MultiLayerArcLoadingIndicator`: the dependencies include `transitions` and `arcLayers` (multi-layer-arc-loading-indicator.tsx:197), so every frame re-creates all intervals. Layer 0's period, `changeInterval + 0`, is the shortest and fires first; while frames run normally, layers 1 and above never redistribute.
- `Math.random()` is not modelled; its two draws are parameters in [0, 1).
- IEEE-754 arithmetic is not modelled: angles, progress and colours are exact reals. Whether 120 floating-point additions of 1/120 reach exactly 1 is therefore not captured.
- The unused `maxIncrease` and `totalAngleWithoutGaps` values (arc-loading-indicator.tsx:81, 91-93 and their copies) affect nothing and are not modelled.
- `console.warn` is the predicate `SumWarning`; the message text is not modelled.
- Fill opacity, filters, background circles and dark-mode colours of the markup are not modelled; the dark-mode ramp endpoints are.
- A negative `layers` count makes `Array(layers)` throw a RangeError; the model takes `layers` as a natural number instead.
- The other spinner files only rotate by a constant speed or hold no logic and are not part of this model.
