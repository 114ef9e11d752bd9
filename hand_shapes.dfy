/** The two constant hand outlines of the watch face (src/modern.c:20-39).
    Each is a path of four points in the hand's own coordinate frame: the
    origin is the pivot, x grows to the right and y grows DOWNWARDS, so the
    tip of a hand pointing at twelve o'clock has a negative y. */
module HandShapes {

  /** A point of the platform's integer screen geometry. */
  datatype Point = Point(x: int, y: int)

  /** A path description: the number of points the path library is told to
      read, and the points themselves. */
  datatype PathInfo = PathInfo(numPoints: nat, points: seq<Point>)

  /** The outline of the minute hand (src/modern.c:20-28). */
  const MINUTE_HAND_PATH_POINTS: PathInfo :=
    PathInfo(4, [Point(-4, 15), Point(4, 15), Point(4, -70), Point(-4, -70)])

  /** The outline of the hour hand (src/modern.c:31-39). */
  const HOUR_HAND_PATH_POINTS: PathInfo :=
    PathInfo(4, [Point(-4, 15), Point(4, 15), Point(4, -50), Point(-4, -50)])

  /** The declared point count matches the points given, so the library never
      reads past the point array. */
  predicate WellFormed(info: PathInfo) {
    info.numPoints == |info.points|
  }

  /** Reflecting any point of the path in the vertical axis x = 0 gives a point
      of the path again: the hand looks the same mirrored left-to-right. */
  predicate MirrorSymmetric(pts: seq<Point>) {
    MirroredPoints(pts) == Points(pts)
  }

  /** The points of a path, as a set. */
  function Points(pts: seq<Point>): set<Point> {
    set i | 0 <= i < |pts| :: pts[i]
  }

  /** The reflections of the points of a path, as a set. */
  function MirroredPoints(pts: seq<Point>): set<Point> {
    set i | 0 <= i < |pts| :: Mirror(pts[i])
  }

  /** The reflection of a point in the vertical axis x = 0. */
  function Mirror(p: Point): Point {
    Point(-p.x, p.y)
  }

  /** Four corners, taken in order around an axis-aligned rectangle that starts
      with its bottom edge. */
  predicate IsAxisRectangle(pts: seq<Point>) {
    |pts| == 4 &&
    pts[0].y == pts[1].y && pts[1].x == pts[2].x &&
    pts[2].y == pts[3].y && pts[3].x == pts[0].x &&
    pts[0].x < pts[1].x && pts[2].y < pts[1].y
  }

  /** The smallest y of a non-empty path: how far above the pivot the path
      reaches (its tip, for a hand at twelve o'clock). */
  function MinY(pts: seq<Point>): (r: int)
    requires |pts| > 0
    ensures exists i :: 0 <= i < |pts| && pts[i].y == r
    ensures forall i :: 0 <= i < |pts| ==> r <= pts[i].y
  {
    if |pts| == 1 then pts[0].y
    else
      var rest := MinY(pts[1..]);
      assert forall i :: 1 <= i < |pts| ==> pts[i] == pts[1..][i - 1];
      if pts[0].y <= rest then pts[0].y else rest
  }

  /** The largest y of a non-empty path: how far the path extends below the
      pivot (the counterweight tail of a hand). */
  function MaxY(pts: seq<Point>): (r: int)
    requires |pts| > 0
    ensures exists i :: 0 <= i < |pts| && pts[i].y == r
    ensures forall i :: 0 <= i < |pts| ==> pts[i].y <= r
  {
    if |pts| == 1 then pts[0].y
    else
      var rest := MaxY(pts[1..]);
      assert forall i :: 1 <= i < |pts| ==> pts[i] == pts[1..][i - 1];
      if rest <= pts[0].y then pts[0].y else rest
  }

  /** The largest |x| of a non-empty path: half the width of a hand that is
      symmetric about x = 0. */
  function HalfWidth(pts: seq<Point>): (r: int)
    requires |pts| > 0
    ensures 0 <= r
    ensures exists i :: 0 <= i < |pts| && (pts[i].x == r || pts[i].x == -r)
    ensures forall i :: 0 <= i < |pts| ==> -r <= pts[i].x <= r
  {
    var a := if pts[0].x < 0 then -pts[0].x else pts[0].x;
    if |pts| == 1 then a
    else
      var rest := HalfWidth(pts[1..]);
      assert forall i :: 1 <= i < |pts| ==> pts[i] == pts[1..][i - 1];
      if rest <= a then a else rest
  }

  /** Both descriptions declare exactly the four points they list, and each
      outline is an axis-aligned rectangle. */
  lemma HandsAreFourPointRectangles()
    ensures WellFormed(MINUTE_HAND_PATH_POINTS) && MINUTE_HAND_PATH_POINTS.numPoints == 4
    ensures WellFormed(HOUR_HAND_PATH_POINTS) && HOUR_HAND_PATH_POINTS.numPoints == 4
    ensures IsAxisRectangle(MINUTE_HAND_PATH_POINTS.points)
    ensures IsAxisRectangle(HOUR_HAND_PATH_POINTS.points)
  {
  }

  /** Both hands are mirror images of themselves about the vertical axis
      through the pivot, so rotating them about the pivot draws a hand centred
      on the direction it points in. */
  lemma HandsAreMirrorSymmetric()
    ensures MirrorSymmetric(MINUTE_HAND_PATH_POINTS.points)
    ensures MirrorSymmetric(HOUR_HAND_PATH_POINTS.points)
  {
    var m := MINUTE_HAND_PATH_POINTS.points;
    assert MirroredPoints(m) == {m[1], m[0], m[3], m[2]};
    assert Points(m) == {m[0], m[1], m[2], m[3]};
    var h := HOUR_HAND_PATH_POINTS.points;
    assert MirroredPoints(h) == {h[1], h[0], h[3], h[2]};
    assert Points(h) == {h[0], h[1], h[2], h[3]};
  }

  /** The minute hand's tip lies 70 px beyond the pivot and the hour hand's
      50 px, so the minute hand is the longer one. */
  lemma MinuteHandReachesFarther()
    ensures MinY(MINUTE_HAND_PATH_POINTS.points) == -70
    ensures MinY(HOUR_HAND_PATH_POINTS.points) == -50
    ensures MinY(MINUTE_HAND_PATH_POINTS.points) < MinY(HOUR_HAND_PATH_POINTS.points)
  {
  }

  /** Both hands share the same 15 px counterweight tail below the pivot. */
  lemma HandsShareTail()
    ensures MaxY(MINUTE_HAND_PATH_POINTS.points) == MaxY(HOUR_HAND_PATH_POINTS.points) == 15
  {
  }

  /** Both hands are 8 px wide, 4 px either side of the pivot; they differ
      only in length. */
  lemma HandsShareWidth()
    ensures HalfWidth(MINUTE_HAND_PATH_POINTS.points) == HalfWidth(HOUR_HAND_PATH_POINTS.points) == 4
  {
  }
}
