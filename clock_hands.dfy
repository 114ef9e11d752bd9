/** The hand angles of the analog face (src/modern.c:113-148).

    The drawing code reads hour, minute and second from the C `struct tm` that
    `localtime` fills in, turns them into whole degrees, converts degrees into
    the path library's fixed-point turn unit (TRIG_MAX_ANGLE units make one
    full turn) and hands a constant hand outline, the face's centre and that
    rotation to the path library, which rotates and draws the outline. The
    rotation itself happens inside the library and is not modelled; what is
    modelled is every number the watch face computes on the way there. */
module ClockHands {
  import opened HandShapes

  /** The fields of C's `struct tm` that the hands read. */
  datatype Tm = Tm(hour: int, min: int, sec: int)

  /** The ranges `localtime` guarantees for those fields; the C standard lets
      `tm_sec` reach 60 to hold a leap second. */
  predicate ValidTm(t: Tm) {
    0 <= t.hour <= 23 && 0 <= t.min <= 59 && 0 <= t.sec <= 60
  }

  /** The number of turn units in one full turn, as the Pebble SDK header
      defines it. Every general lemma below takes the value as a parameter
      instead, so they hold whatever the header says. */
  const TRIG_MAX_ANGLE: nat := 0x10000

  /** The hour hand's angle in degrees clockwise from twelve o'clock
      (src/modern.c:114): 30 degrees per hour plus half a degree per whole
      two minutes. The hour is NOT reduced modulo 12: from 12:00 on the angle
      is 360 or more, and the library's rotation is left to wrap it. */
  function HourAngle(hour: int, minute: int): (r: nat)
    requires 0 <= hour <= 23 && 0 <= minute <= 59
    ensures r <= 719
    ensures hour * 30 <= r < hour * 30 + 30
    ensures 2 * (r - hour * 30) <= minute < 2 * (r - hour * 30) + 2
  {
    hour * 30 + minute / 2
  }

  /** The minute hand's angle in degrees (src/modern.c:127): 6 degrees per
      minute plus one degree per whole ten seconds. It stays below the next
      minute's angle except during a leap second, when it reaches it. */
  function MinuteAngle(minute: int, second: int): (r: nat)
    requires 0 <= minute <= 59 && 0 <= second <= 60
    ensures r <= 360
    ensures minute * 6 <= r <= minute * 6 + 6
    ensures r < minute * 6 + 6 <==> second < 60
    ensures 10 * (r - minute * 6) <= second < 10 * (r - minute * 6) + 10
  {
    minute * 6 + second / 10
  }

  /** Degrees converted to turn units as the drawing code does it
      (src/modern.c:117, 130): the integer division of the full turn by 360
      happens FIRST, so each degree is worth `trigMax / 360` units and the
      remainder `trigMax % 360` is lost once per degree. */
  function TurnUnits(trigMax: nat, deg: nat): (r: nat)
    ensures 360 * r + deg * (trigMax % 360) == deg * trigMax
    ensures 360 * r <= deg * trigMax
  {
    (trigMax / 360) * deg
  }

  /** What `draw_hour_hand` and `draw_minute_hand` hand to the path library:
      the outline (`gpath_create`), the point it is moved to (`gpath_move_to`)
      and the rotation in turn units (`gpath_rotate_to`). */
  datatype HandPlacement = HandPlacement(shape: PathInfo, center: Point, rotation: nat)

  /** The hour hand of one redraw (src/modern.c:113-117). */
  function DrawHourHand(center: Point, t: Tm): (p: HandPlacement)
    requires ValidTm(t)
    ensures p.shape == HOUR_HAND_PATH_POINTS && p.center == center
    ensures p.rotation == TurnUnits(TRIG_MAX_ANGLE, HourAngle(t.hour, t.min))
    ensures p.rotation < 2 * TRIG_MAX_ANGLE
  {
    HandPlacement(HOUR_HAND_PATH_POINTS, center, TurnUnits(TRIG_MAX_ANGLE, HourAngle(t.hour, t.min)))
  }

  /** The minute hand of one redraw (src/modern.c:126-130). */
  function DrawMinuteHand(center: Point, t: Tm): (p: HandPlacement)
    requires ValidTm(t)
    ensures p.shape == MINUTE_HAND_PATH_POINTS && p.center == center
    ensures p.rotation == TurnUnits(TRIG_MAX_ANGLE, MinuteAngle(t.min, t.sec))
    ensures p.rotation <= TRIG_MAX_ANGLE
    ensures t.sec < 60 ==> p.rotation < TRIG_MAX_ANGLE
  {
    HandPlacement(MINUTE_HAND_PATH_POINTS, center, TurnUnits(TRIG_MAX_ANGLE, MinuteAngle(t.min, t.sec)))
  }

  /** One redraw of the hands (src/modern.c:139-147): the hour hand first,
      then the minute hand over it, both about the same centre. */
  function UpdateTime(center: Point, t: Tm): (hands: seq<HandPlacement>)
    requires ValidTm(t)
    ensures |hands| == 2
    ensures hands[0].shape == HOUR_HAND_PATH_POINTS && hands[1].shape == MINUTE_HAND_PATH_POINTS
    ensures hands[0].center == center == hands[1].center
    ensures hands[0].rotation == TurnUnits(TRIG_MAX_ANGLE, HourAngle(t.hour, t.min))
    ensures hands[1].rotation == TurnUnits(TRIG_MAX_ANGLE, MinuteAngle(t.min, t.sec))
  {
    [DrawHourHand(center, t), DrawMinuteHand(center, t)]
  }

  /** Within one redraw the two hands agree like geared clock hands: outside
      a leap second the hour hand stands at its hour's base plus one twelfth
      of the minute hand's angle, rounded down. */
  lemma HourHandFollowsMinuteHand(center: Point, t: Tm)
    requires ValidTm(t) && t.sec < 60
    ensures HourAngle(t.hour, t.min) == 30 * t.hour + MinuteAngle(t.min, t.sec) / 12
    ensures UpdateTime(center, t)[0].rotation
         == TurnUnits(TRIG_MAX_ANGLE, 30 * t.hour + MinuteAngle(t.min, t.sec) / 12)
  {
  }

  /** The hour hand moves half a degree per minute of the day: its angle is
      the minutes since midnight, halved and rounded down. */
  lemma HourAngleIsHalfMinuteOfDay(hour: int, minute: int)
    requires 0 <= hour <= 23 && 0 <= minute <= 59
    ensures HourAngle(hour, minute) == (60 * hour + minute) / 2
  {
  }

  /** The minute hand moves a tenth of a degree per second of the hour: its
      angle is the seconds since the hour began, divided by ten and rounded
      down. */
  lemma MinuteAngleIsTenthSecondOfHour(minute: int, second: int)
    requires 0 <= minute <= 59 && 0 <= second <= 60
    ensures MinuteAngle(minute, second) == (60 * minute + second) / 10
  {
  }

  /** A later time of day never puts the hour hand at a smaller angle; in
      particular, with the hour fixed the angle does not decrease as the
      minutes pass, and a later hour always gives a strictly larger angle. */
  lemma HourAngleOrderedByTime(h1: int, m1: int, h2: int, m2: int)
    requires 0 <= h1 <= 23 && 0 <= m1 <= 59 && 0 <= h2 <= 23 && 0 <= m2 <= 59
    requires 60 * h1 + m1 <= 60 * h2 + m2
    ensures HourAngle(h1, m1) <= HourAngle(h2, m2)
    ensures h1 < h2 ==> HourAngle(h1, m1) < HourAngle(h2, m2)
  {
  }

  /** A later second of the hour never puts the minute hand at a smaller
      angle, leap seconds included. */
  lemma MinuteAngleOrderedByTime(m1: int, s1: int, m2: int, s2: int)
    requires 0 <= m1 <= 59 && 0 <= s1 <= 60 && 0 <= m2 <= 59 && 0 <= s2 <= 60
    requires 60 * m1 + s1 <= 60 * m2 + s2
    ensures MinuteAngle(m1, s1) <= MinuteAngle(m2, s2)
  {
  }

  /** The hour and the half-minute can be read back from the hour angle:
      each hour owns its own 30-degree sector and the position inside the
      sector is the whole two-minute steps elapsed. */
  lemma HourAngleDecodes(hour: int, minute: int)
    requires 0 <= hour <= 23 && 0 <= minute <= 59
    ensures HourAngle(hour, minute) / 30 == hour
    ensures HourAngle(hour, minute) % 30 == minute / 2
  {
  }

  /** Two times give the same hour angle exactly when they share the hour and
      the whole two-minute step. */
  lemma HourAngleEqualIff(h1: int, m1: int, h2: int, m2: int)
    requires 0 <= h1 <= 23 && 0 <= m1 <= 59 && 0 <= h2 <= 23 && 0 <= m2 <= 59
    ensures HourAngle(h1, m1) == HourAngle(h2, m2) <==> h1 == h2 && m1 / 2 == m2 / 2
  {
  }

  /** Outside a leap second the minute and the ten-second step can be read
      back from the minute angle. */
  lemma MinuteAngleDecodes(minute: int, second: int)
    requires 0 <= minute <= 59 && 0 <= second <= 59
    ensures MinuteAngle(minute, second) / 6 == minute
    ensures MinuteAngle(minute, second) % 6 == second / 10
  {
  }

  /** During a leap second the minute hand already stands where the next
      minute will start it, and at 59:60 it stands at a full turn. */
  lemma LeapSecondMeetsNextMinute(minute: int)
    requires 0 <= minute <= 59
    ensures minute < 59 ==> MinuteAngle(minute, 60) == MinuteAngle(minute + 1, 0)
    ensures minute == 59 ==> MinuteAngle(minute, 60) == 360
  {
  }

  /** The hour is not reduced modulo 12: an afternoon hour lies exactly one
      full turn of degrees beyond the morning hour with the same minute, so
      the two angles differ. */
  lemma HourAngleHalfDayApart(hour: int, minute: int)
    requires 0 <= hour <= 11 && 0 <= minute <= 59
    ensures HourAngle(hour + 12, minute) == HourAngle(hour, minute) + 360
    ensures HourAngle(hour + 12, minute) != HourAngle(hour, minute)
  {
  }

  /** More degrees never give fewer turn units. */
  lemma TurnUnitsMonotone(trigMax: nat, d1: nat, d2: nat)
    requires d1 <= d2
    ensures TurnUnits(trigMax, d1) <= TurnUnits(trigMax, d2)
  {
  }

  /** Converting a sum of degrees gives the sum of the conversions: the loss
      from dividing first is the same for every degree. */
  lemma TurnUnitsAdditive(trigMax: nat, a: nat, b: nat)
    ensures TurnUnits(trigMax, a + b) == TurnUnits(trigMax, a) + TurnUnits(trigMax, b)
  {
  }

  /** The conversion is exact (`deg / 360` of a full turn) precisely when no
      degrees are converted or the full turn is a multiple of 360 units. */
  lemma TurnUnitsExactIff(trigMax: nat, deg: nat)
    ensures 360 * TurnUnits(trigMax, deg) == deg * trigMax <==> deg == 0 || trigMax % 360 == 0
  {
  }

  /** 360 degrees convert to at most one full turn and to less than 360
      units short of it; exactly one turn only when 360 divides the full
      turn. */
  lemma FullCircleInTurnUnits(trigMax: nat)
    ensures trigMax - 360 < TurnUnits(trigMax, 360) <= trigMax
    ensures TurnUnits(trigMax, 360) == trigMax <==> trigMax % 360 == 0
  {
  }

  /** The rotation requested for an afternoon hour exceeds the morning one at
      the same minute by the conversion of 360 degrees, which is a whole
      number of full turns only when 360 divides the full turn. */
  lemma HalfDayRotationOffset(trigMax: nat, hour: int, minute: int)
    requires 0 <= hour <= 11 && 0 <= minute <= 59
    ensures TurnUnits(trigMax, HourAngle(hour + 12, minute))
         == TurnUnits(trigMax, HourAngle(hour, minute)) + TurnUnits(trigMax, 360)
  {
  }

  /** With the SDK's full turn of 0x10000 units, each degree is worth 182
      units, so an afternoon hour hand is asked to turn 16 units (about a
      tenth of a degree) less than one extra full turn beyond the morning
      hand. */
  lemma AfternoonHourHandSixteenUnitsShort(center: Point, t: Tm)
    requires ValidTm(t) && t.hour <= 11
    ensures DrawHourHand(center, Tm(t.hour + 12, t.min, t.sec)).rotation
         == DrawHourHand(center, t).rotation + TRIG_MAX_ANGLE - 16
  {
  }
}
