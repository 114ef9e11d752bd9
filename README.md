# Analog watch face: hand angles, hand outlines and battery bar

A Dafny model of the arithmetic inside the analog watch face `src/modern.c`,
a Pebble watch face. On every redraw the face reads the local time, turns the
hour and minute into whole-degree hand angles, converts those into the path
library's fixed-point turn unit (`TRIG_MAX_ANGLE` units to the full turn) and
asks the library to rotate two constant four-point hand outlines about the
centre of the screen. A battery service reports a charge percentage, which the
face stores in a module-level variable and later paints as a white bar of up
to 23 pixels inside a 24x2 layer.

The model has three modules:

- `HandShapes` (`hand_shapes.dfy`): the two hand outlines as constant path
  descriptions, with their shape, symmetry and extent proved.
- `ClockHands` (`clock_hands.dfy`): the hour-angle, minute-angle and
  turn-unit formulas as functions, what each hand-drawing routine hands to the
  path library, and lemmas relating the formulas to the time of day (reference
  definitions, ordering, read-back, the twelve-hour offset, exactness of the
  turn-unit conversion).
- `Battery` (`battery.dfy`): the stored battery level as a class with one
  field, the report callback as a method that overwrites it, the redraw as a
  method that reads it, and the bar width as a function with its range,
  rounding, monotonicity and end points proved.

Points of the code that the model keeps as written:

- The hour is not reduced modulo 12 (src/modern.c:114): from noon on the
  hour angle is 360 to 719 degrees. `HourAngleHalfDayApart` proves the
  afternoon angle is exactly 360 more than the morning one at the same
  minute, and therefore different.
- Angles are not normalised into one turn and out-of-range input is not
  clamped; the rotation is left to wrap. The model takes the ranges that
  `localtime` guarantees as preconditions.
- The full width of the battery bar is the constant 23 (src/modern.c:53).

A consequence the model makes visible: the code divides `TRIG_MAX_ANGLE` by
360 before multiplying (src/modern.c:117, 130). With the SDK's full turn of
0x10000 units each degree is worth 182 units, so 360 degrees convert to 65520
units, 16 short of a full turn. An afternoon hour hand is therefore asked to
turn about a tenth of a degree less than the morning hand at the same minute
(`AfternoonHourHandSixteenUnitsShort`). This is below one pixel at the hand's
length, so it is recorded as a property rather than as a defect.

## Model

| member | source | states |
|---|---|---|
| `HandShapes.HandsAreFourPointRectangles` | src/modern.c:20-39 | both path descriptions declare exactly the 4 points they list, and each outline is an axis-aligned rectangle |
| `HandShapes.HandsAreMirrorSymmetric` | src/modern.c:20-39 | the set of points of each outline is unchanged by reflection in x = 0 |
| `HandShapes.MinuteHandReachesFarther` | src/modern.c:20-39 | the minute hand's tip is at y = -70, the hour hand's at y = -50, so the minute hand reaches farther from the pivot |
| `HandShapes.HandsShareTail` | src/modern.c:20-39 | both hands extend the same 15 px below the pivot |
| `HandShapes.HandsShareWidth` | src/modern.c:20-39 | both hands are 4 px either side of the pivot (8 px wide) |
| `ClockHands.HourAngle` | src/modern.c:114 | the hour angle lies in 0..719, inside the hour's own sector `[hour*30, hour*30+30)`, and its offset in the sector is the minute halved and rounded down |
| `ClockHands.MinuteAngle` | src/modern.c:127 | the minute angle lies in 0..360, inside `[minute*6, minute*6+6]`, strictly below the next minute's base exactly when the second is below 60, and its offset is the second divided by ten, rounded down |
| `ClockHands.TurnUnits` | src/modern.c:117 | the turn-unit value times 360 falls short of `deg * TRIG_MAX_ANGLE` by exactly `deg * (TRIG_MAX_ANGLE % 360)`, the loss of dividing before multiplying |
| `ClockHands.DrawHourHand` | src/modern.c:113-117 | the hour hand is the hour outline placed at the given centre, with the rotation converted from the hour angle, less than two full turns |
| `ClockHands.DrawMinuteHand` | src/modern.c:126-130 | the minute hand is the minute outline placed at the given centre, with a rotation of at most one full turn and below it outside a leap second |
| `ClockHands.UpdateTime` | src/modern.c:139-147 | a redraw places the hour hand first and then the minute hand, both about the same centre, with rotations converted from the hour angle and the minute angle of the same time sample |
| `ClockHands.HourHandFollowsMinuteHand` | src/modern.c:139-147 | within one redraw, outside a leap second, the hour hand stands at its hour's base plus one twelfth of the minute hand's angle, rounded down, as geared clock hands do |
| `ClockHands.HourAngleIsHalfMinuteOfDay` | src/modern.c:114 | the hour angle equals the minutes since midnight halved, rounded down |
| `ClockHands.MinuteAngleIsTenthSecondOfHour` | src/modern.c:127 | the minute angle equals the seconds since the hour began divided by ten, rounded down |
| `ClockHands.HourAngleOrderedByTime` | src/modern.c:114 | a later time of day never gives a smaller hour angle (so with the hour fixed it is monotone in the minute), and a later hour always gives a larger one |
| `ClockHands.MinuteAngleOrderedByTime` | src/modern.c:127 | a later second of the hour never gives a smaller minute angle (so with the minute fixed it is monotone in the second) |
| `ClockHands.HourAngleDecodes` | src/modern.c:114 | the hour is the hour angle divided by 30 and the half-minute is its remainder |
| `ClockHands.HourAngleEqualIff` | src/modern.c:114 | two times share an hour angle exactly when they share the hour and the whole two-minute step |
| `ClockHands.MinuteAngleDecodes` | src/modern.c:127 | outside a leap second the minute is the minute angle divided by 6 and the ten-second step its remainder |
| `ClockHands.LeapSecondMeetsNextMinute` | src/modern.c:127 | at second 60 the minute angle equals the next minute's angle at second 0, and 360 at 59:60 |
| `ClockHands.HourAngleHalfDayApart` | src/modern.c:114 | the angle for `hour + 12` is exactly 360 more than for `hour` at the same minute, so the hour is not reduced modulo 12 |
| `ClockHands.TurnUnitsMonotone` | src/modern.c:117 | more degrees never give fewer turn units |
| `ClockHands.TurnUnitsAdditive` | src/modern.c:117 | the conversion of a sum of degrees is the sum of the conversions |
| `ClockHands.TurnUnitsExactIff` | src/modern.c:117 | the conversion is exactly `deg / 360` of a full turn if and only if `deg` is 0 or 360 divides the full turn |
| `ClockHands.FullCircleInTurnUnits` | src/modern.c:117 | 360 degrees convert to at most one full turn and less than 360 units short of it, exactly one turn if and only if 360 divides the full turn |
| `ClockHands.HalfDayRotationOffset` | src/modern.c:114-117 | the rotation for an afternoon hour exceeds the morning one at the same minute by the conversion of 360 degrees |
| `ClockHands.AfternoonHourHandSixteenUnitsShort` | src/modern.c:113-117 | with the SDK's full turn of 0x10000 units the afternoon hour hand's rotation is the morning one plus a full turn minus 16 units |
| `Battery.BarWidthFor` | src/modern.c:53 | the bar width is the largest whole number of pixels not above `level` percent of 23, and lies in 0..23 for levels up to 100 |
| `Battery.BatteryIndicator.constructor` | src/modern.c:18 | the stored battery level starts at zero |
| `Battery.BatteryIndicator.OnBatteryState` | src/modern.c:44-47 | the stored level becomes the reported charge percentage and nothing else is kept |
| `Battery.BatteryIndicator.UpdateProc` | src/modern.c:49-62 | a redraw paints the layer's bounds as background and a bar from the top-left corner, as tall as the layer, as wide as the stored level gives |
| `Battery.BarWidthMonotone` | src/modern.c:53 | a higher charge never gives a narrower bar |
| `Battery.BarWidthEndpoints` | src/modern.c:53 | 0 percent gives width 0, 50 gives 11, 100 gives 23 |
| `Battery.BarFullAndEmptyIff` | src/modern.c:53 | within 0..100 the bar is full exactly at 100 and empty exactly below 5 percent |
| `Battery.BarInsideLayer` | src/modern.c:173 | within 0..100 the bar is narrower than the 24 px battery layer |
| `Battery.RepeatedReport` | src/modern.c:44-47 | delivering the same report twice leaves the level of one delivery and the same bar at the next redraw |

## Left out

- The rotation and painting of the hand outlines (`gpath_create`, `gpath_move_to`, `gpath_rotate_to`, `gpath_draw_filled`, `gpath_draw_outline`) happen inside the platform's path library, which is not part of this model; the model stops at the outline, centre and rotation handed to it.
- A new path is created on every redraw of each hand (src/modern.c:115, 128) and never destroyed; memory allocation is not modelled.
- The centre dot (`draw_center`, src/modern.c:106-111) is two filled circles of constant radii and colours at the redraw's centre, and the battery layer's fill colours are constants; colours and circle drawing are not modelled.
- The date and weekday text (`draw_date`, `update_date`, src/modern.c:64-104) uses `strftime` and a `DAYS` table from `lang.h`, which is not part of this model.
- Window and layer creation and destruction, bitmap and font loading, the tick and battery subscriptions and the start-up call that feeds the first battery report (src/modern.c:154-229) are platform wiring with no arithmetic of their own.
- `time`, `localtime` and the layer-bounds and centre queries are host input: the model takes the hour, minute, second, centre and layer bounds as parameters.
- `TRIG_MAX_ANGLE` is defined by the SDK header `pebble.h`, which is not part of this model. Every general turn-unit lemma takes the full turn as a parameter. `DrawHourHand`, `DrawMinuteHand`, `UpdateTime`, `HourHandFollowsMinuteHand` and `AfternoonHourHandSixteenUnitsShort` use the SDK value 0x10000, and the rotation bounds in the contracts of `DrawHourHand` and `DrawMinuteHand` (below two full turns, at most one full turn) are proved for that value only.
- C integer widths: for the ranges `localtime` and the battery service deliver, no intermediate value comes near the limits of `int` or `unsigned int` (the largest is 182 * 719), so the model uses unbounded integers and C's truncating division agrees with Dafny's on these non-negative operands.
- Battery reports above 100 percent: the report type allows up to 255, for which `BarWidthFor` still gives the floor of `level * 23 / 100`, but the layer-fit and end-point lemmas are stated for 0..100 only, the range the battery service reports.
