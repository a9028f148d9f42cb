# Spin wheel outcome rule, in Dafny

This project models the logic of the prize wheel widget in
`components/SpinWheel.tsx`. The drawing, animation and timer code are left out.
What is modelled:

- the prize table and the ten-wedge segment sequence (`WheelConfig`);
- the spin outcome rule (`SpinRule`). A draw of `Math.random()` becomes a target
  rotation of five to six full turns. The target is reduced with JavaScript's `%`
  to a resting angle. The resting angle gives a wedge index under the fixed
  pointer at 12 o'clock, and the index decides whether the win effect is scheduled.
  The wedge layout (`index * sliceAngle`, and the end angle one slice further)
  serves as the geometry the index must agree with;
- the spin controller (`SpinWheelWidget.SpinWheel`), a class that holds the
  `isSpinning` flag, the wheel's transform angle and transition, and the queue of
  scheduled 2.5 s resolution callbacks. `Spin` is `spinWheel` itself, `Press` is a
  click on the Spin button, and `Resolve` is the deferred callback firing.

Angles are exact `real` degrees, measured clockwise from 12 o'clock. The draw of
`Math.random()` is a parameter `r` with `0 <= r < 1`. JavaScript's `%` is modelled
as a truncating remainder. `Math.floor` is `.Floor`. Reading `segments[i]` out of
range gives `undefined`, modelled as `None`. The win test `!== "❌"` compares the
lookup with `Some(NoWin)`.

`spinWheel` does not look at `isSpinning` (lines 68-77). Only the button's
`disabled={isSpinning}` (line 111) blocks a second click. So `Spin` is unguarded,
and `Press` holds the guard.

Resolution uses the normalised index (`index % N`; see Findings). For the shipped
table this makes no difference to whether the effect is scheduled
(`ShippedTableEffectUnaffected`).

## Model

| member | source | states |
|---|---|---|
| `WheelConfig.PrizeTableHasFiveEntries` | components/SpinWheel.tsx:9-15 | the prize table has exactly the five distinct icons as keys |
| `WheelConfig.SegmentsUsePrizeKeys` | components/SpinWheel.tsx:9-17 | there are ten wedges, each is a key of the prize table (so the colour and name lookups are total), the no-win sentinel is a prize, and the second five wedges repeat the first five, which show every prize once |
| `SpinRule.SliceAngle` | components/SpinWheel.tsx:81 | each wedge has positive width and N widths make exactly one full turn |
| `SpinRule.WedgesTileCircle` | components/SpinWheel.tsx:34-44 | the wedges start at 0, each ends where the next starts, all have the same width, and wedge N starts at 360: no gaps and no overlaps |
| `SpinRule.WedgeStartMonotone` | components/SpinWheel.tsx:37 | a wedge ends no later than any later wedge starts |
| `SpinRule.Target` | components/SpinWheel.tsx:74 | the target rotation lies in [1800, 2160): at least five and fewer than six full turns |
| `SpinRule.Trunc` | components/SpinWheel.tsx:80 | the truncation used by `%` is the integer between 0 and x nearest to x |
| `SpinRule.RestingAngle` | components/SpinWheel.tsx:80 | `degree % 360` lies in [0, 360) for a non-negative degree and in (-360, 0] otherwise, and differs from the degree by whole turns |
| `SpinRule.RestingAngleOfTarget` | components/SpinWheel.tsx:74-80 | the resting angle of a spin is exactly 360·r: the five extra turns vanish |
| `SpinRule.UnderPointer` | components/SpinWheel.tsx:82 | the wheel point under the 12 o'clock pointer lies in [0, 360) and is the negated resting angle modulo a turn |
| `SpinRule.FloorOfWedge` | components/SpinWheel.tsx:82 | the floor of x divided by the slice is an index whose wedge contains x |
| `SpinRule.WedgeIndexCoversPointer` | components/SpinWheel.tsx:81-82 | for every resting angle in (0, 360) the index of line 82 lies in [0, N) and its wedge [i·slice, (i+1)·slice) contains 360 − angle |
| `SpinRule.WedgeIndexAtZero` | components/SpinWheel.tsx:82 | at resting angle 0 the index of line 82 equals N, outside the table |
| `SpinRule.ResolvedIndex` | components/SpinWheel.tsx:81-82 | the normalised index is in [0, N), its wedge holds the point under the pointer, it equals line 82's index for every angle above 0, and it is 0 at angle 0 |
| `SpinRule.CoveringWedgeIsResolved` | components/SpinWheel.tsx:81-82 | any wedge that holds the point under the pointer is the resolved one, so that wedge is unique |
| `SpinRule.OutcomeOf` | components/SpinWheel.tsx:80-98 | with the normalised index: the winning wedge is in range, lies under the pointer, and its icon is the table entry; the effect is scheduled if and only if that icon is not the no-win sentinel |
| `SpinRule.AsWrittenAgreesAwayFromZero` | components/SpinWheel.tsx:80-88 | for every resting angle other than 0 the source's index and effect decision equal the normalised ones |
| `SpinRule.AsWrittenAtRestingZero` | components/SpinWheel.tsx:82-88 | at resting angle 0 the source's index is N, the lookup is undefined, and the win effect is scheduled anyway, while the normalised index is 0 |
| `SpinRule.ZeroDrawReachesOutOfRangeIndex` | components/SpinWheel.tsx:74-82 | the draw 0 gives target 1800, resting angle 0 and an out-of-range index |
| `SpinRule.NoWinFirstWedgeCounterexample` | components/SpinWheel.tsx:82-88 | on a table whose first wedge is the sentinel, the source schedules the effect for a spin that lands on that sentinel; the normalised rule schedules none |
| `SpinRule.ShippedTableEffectUnaffected` | components/SpinWheel.tsx:82-88 | with the shipped table the source's effect decision equals the normalised one for every target, because wedge 0 is not the sentinel |
| `SpinRule.WorkedCaseCandyAndDrink` | components/SpinWheel.tsx:17-82 | resting at 324 gives index 1, the candy, with the effect; resting at 0 gives wedge 0, the drink, with the effect |
| `SpinRule.WorkedCaseNoWinBand` | components/SpinWheel.tsx:82 | every resting angle in (216, 252] gives index 3, the sentinel, and no effect |
| `SpinRule.OutcomeOfDraw` | components/SpinWheel.tsx:74-82 | a draw r in (0, 1) wins wedge floor(N·(1 − r)), and the draw 0 wins wedge 0 |
| `SpinWheelWidget.SpinWheel.constructor` | components/SpinWheel.tsx:22-23 | a new wheel is mounted, idle and unrotated, with nothing scheduled |
| `SpinWheelWidget.SpinWheel.Detach` | components/SpinWheel.tsx:79 | clearing the wheel reference changes nothing else |
| `SpinWheelWidget.SpinWheel.Spin` | components/SpinWheel.tsx:68-77 | without a mounted wheel, or with fewer than two wedges, nothing changes; otherwise `spinning` is set, the transform animates to the target, and one resolution for that target joins the queue; `spinning` itself is not checked |
| `SpinWheelWidget.SpinWheel.Press` | components/SpinWheel.tsx:111 | a click while spinning changes nothing; at most one resolution is pending, a pending resolution implies `spinning`, and a mounted, spinning wheel has one pending |
| `SpinWheelWidget.SpinWheel.Resolve` | components/SpinWheel.tsx:78-99 | the oldest callback leaves the queue; on a mounted wheel the transform snaps to the resting angle without animation, `spinning` is cleared whatever the outcome, and the effect is scheduled exactly as `OutcomeOf` says, which on the shipped table is the decision of lines 82 and 88 as written; on an unmounted wheel nothing else changes |
| `SpinWheelWidget.ClickTwiceThenSettle` | components/SpinWheel.tsx:68-111 | one click, then a second click during the spin, then the timer: the button is busy during the spin and free after it, the wheel rests at 360·r, and the effect is scheduled exactly when the wedge under the pointer is not the sentinel |

## Left out

- SVG construction and teardown, and the legend (lines 25-65, 102-135). These are DOM rendering.
- Trigonometric placement of wedge edges, arcs and labels (lines 19, 38-62). It is floating-point trigonometry. Only the wedge start `index * sliceAngle` and the end one slice further are kept, in degrees rather than radians.
- The transition and transform strings (lines 72, 75-76, 84-85). They are kept only as the angle `rotation` and the flag `animated`. The reset to `rotate(0deg)` at line 72 is overwritten in the same synchronous step, and only the final transform is recorded.
- The 2500 ms and 250 ms timers (lines 78, 89-97). The first is the explicit `Resolve` step. The second is the returned flag `effect`.
- `Math.random()` (line 74). It is a parameter `r` in [0, 1).
- `canvas-confetti`, `LeanCodersQr`, `Button`, `Loader2` (lines 4-7, 91-95, 107, 111-120). These are components whose code is not part of this model.
- IEEE-754 rounding. Angles are exact reals. Over doubles, `Math.random() * 360 + 1800` can also round up to exactly 2160, a second route to the resting angle 0. Over reals only the draw 0 reaches it.
- `SpinRule.OutcomeOf`: uses the normalised index, not line 82's raw index; the two differ only at resting angle 0 (`AsWrittenAgreesAwayFromZero`, `AsWrittenAtRestingZero`).
- `SpinWheelWidget.SpinWheel.Resolve`: uses the normalised index, not line 82's raw index. The two differ only at resting angle 0, and for the shipped table the effect decision is the same (`ShippedTableEffectUnaffected`).

## Findings

| source | as written | input that shows it | evidently intended | confidence | as-written member | corrected member |
|---|---|---|---|---|---|---|
| components/SpinWheel.tsx:82 | `Math.floor((360 - adjustedAngle) / sliceAngle)` is not reduced modulo the wedge count; line 88 then compares `segments[10]` (undefined) with the sentinel | `Math.random()` returns 0: degree 1800, resting angle 0, index 10, `segments[10]` undefined, effect scheduled | index `% segments.length`, i.e. wedge 0, which is under the pointer | high (not executed) | `SpinRule.AsWrittenAtRestingZero` | `SpinRule.ResolvedIndex` |
