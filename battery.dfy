/** The battery indicator (src/modern.c:18, 44-62, 173): the battery service
    reports a charge percentage, the watch face keeps the last report in a
    module-level variable, and every redraw of the 24x2 battery layer paints a
    black background and a white bar whose width is that percentage of 23
    pixels, rounded down. */
module Battery {

  /** The C type `uint8_t`. */
  newtype uint8 = x: int | 0 <= x < 256

  /** What the battery service reports (`BatteryChargeState`). Only the
      percentage is used by the watch face. */
  datatype BatteryChargeState = BatteryChargeState(chargePercent: uint8, isCharging: bool, isPlugged: bool)

  /** A rectangle of the platform's screen geometry (`GRect`). */
  datatype Rect = Rect(x: int, y: int, w: int, h: int)

  /** The width in pixels of a full bar (src/modern.c:52-53). */
  const BAR_FULL_WIDTH: int := 23

  /** Where the battery layer sits in the window (src/modern.c:173). */
  const BATTERY_LAYER_FRAME: Rect := Rect(60, 26, 24, 2)

  /** The width of the bar for a stored battery level (src/modern.c:53): the
      largest whole number of pixels not exceeding `level` percent of 23. */
  function BarWidthFor(level: int): (r: int)
    requires 0 <= level < 256
    ensures 100 * r <= 23 * level < 100 * r + 100
    ensures 0 <= r
    ensures level <= 100 ==> r <= BAR_FULL_WIDTH
  {
    (level * 23) / 100
  }

  /** The module-level battery state of the watch face. */
  class BatteryIndicator {
    /** The last reported charge percentage (`s_battery_level`). */
    var level: int

    /** The stored level always came from an 8-bit report (or is the initial
        zero). */
    ghost predicate Valid()
      reads this
    {
      0 <= level < 256
    }

    /** A C variable with static storage starts at zero (src/modern.c:18). */
    constructor ()
      ensures Valid() && level == 0
    {
      level := 0;
    }

    /** `battery_callback` (src/modern.c:44-47): record the reported
        percentage; the charging and plugged flags are ignored. */
    method OnBatteryState(state: BatteryChargeState)
      modifies this
      ensures Valid()
      ensures level == state.chargePercent as int
    {
      level := state.chargePercent as int;
    }

    /** `battery_update_proc` (src/modern.c:49-62): the rectangles painted
        into a layer with the given bounds, the black background first and
        the white bar, anchored at the layer's top-left corner, over it. */
    method UpdateProc(bounds: Rect) returns (background: Rect, bar: Rect)
      requires Valid()
      ensures background == bounds
      ensures bar == Rect(0, 0, BarWidthFor(level), bounds.h)
    {
      var width := BarWidthFor(level);
      background := bounds;
      bar := Rect(0, 0, width, bounds.h);
    }
  }

  /** A higher charge never draws a shorter bar. */
  lemma BarWidthMonotone(p1: int, p2: int)
    requires 0 <= p1 <= p2 < 256
    ensures BarWidthFor(p1) <= BarWidthFor(p2)
  {
  }

  /** An empty battery draws no bar and a full one the whole 23 pixels; half
      charge draws 11 (11.5 rounded down). */
  lemma BarWidthEndpoints()
    ensures BarWidthFor(0) == 0
    ensures BarWidthFor(50) == 11
    ensures BarWidthFor(100) == BAR_FULL_WIDTH
  {
  }

  /** Within 0-100 percent the bar is full exactly at 100 percent, and it is
      empty exactly below 5 percent. */
  lemma BarFullAndEmptyIff(level: int)
    requires 0 <= level <= 100
    ensures BarWidthFor(level) == BAR_FULL_WIDTH <==> level == 100
    ensures BarWidthFor(level) == 0 <==> level < 5
  {
  }

  /** Within 0-100 percent the bar painted by a redraw stays inside the
      battery layer, one pixel short of its right edge even when full. */
  lemma BarInsideLayer(level: int)
    requires 0 <= level <= 100
    ensures 0 <= BarWidthFor(level) < BATTERY_LAYER_FRAME.w
  {
  }

  /** Delivering the same report twice leaves the same stored level as
      delivering it once, and a later redraw paints the same bar. */
  method RepeatedReport(b: BatteryIndicator, state: BatteryChargeState, bounds: Rect)
    returns (bar: Rect)
    modifies b
    ensures b.Valid() && b.level == state.chargePercent as int
    ensures bar == Rect(0, 0, BarWidthFor(state.chargePercent as int), bounds.h)
  {
    b.OnBatteryState(state);
    var once := b.level;
    b.OnBatteryState(state);
    assert b.level == once;
    var _, bar' := b.UpdateProc(bounds);
    bar := bar';
  }
}
