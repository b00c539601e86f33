/**
 * What the feature extractors need from the pose detector and from the
 * floating-point math library. The detector's landmarks arrive as data; the
 * trigonometric functions are parameters constrained only by their ranges,
 * so nothing here depends on their exact floating-point values.
 */
module Geometry {
  import opened Common

  /** A 2D landmark position (normalized, or pixels after scaling). */
  datatype Point = Point(x: real, y: real)

  /** The landmarks of one detected body that the extractors read. */
  datatype Pose = Pose(
    leftShoulder: Point, rightShoulder: Point,
    leftEye: Point, rightEye: Point,
    nose: Point,
    mouthLeft: Point, mouthRight: Point)

  /**
   * The math-library functions the extractors call:
   * `atan2Deg(y, x)` is `math.degrees(math.atan2(y, x))`,
   * `acosDeg(c)` is `math.degrees(math.acos(c))`,
   * `hypot(x, y)` is `math.hypot(x, y)` (and `math.dist` of two points).
   */
  datatype Trig = Trig(
    atan2Deg: (real, real) -> real,
    acosDeg: real -> real,
    hypot: (real, real) -> real)

  /** The ranges of those functions, the only facts the model relies on. */
  ghost predicate TrigLaws(t: Trig)
  {
    && (forall y: real, x: real :: -180.0 <= t.atan2Deg(y, x) <= 180.0)
    && (forall y: real, x: real :: 0.0 <= x ==> -90.0 <= t.atan2Deg(y, x) <= 90.0)
    && (forall c: real :: -1.0 <= c <= 1.0 ==> 0.0 <= t.acosDeg(c) <= 180.0)
    && (forall x: real, y: real :: 0.0 <= t.hypot(x, y))
    && (forall x: real, y: real :: t.hypot(x, y) == 0.0 <==> x == 0.0 && y == 0.0)
  }

  /** `max(-1.0, min(1.0, c))`: the cosine guard before `acos`. */
  function ClampUnit(c: real): (r: real)
    ensures -1.0 <= r <= 1.0
    ensures -1.0 <= c <= 1.0 ==> r == c
    ensures c < -1.0 ==> r == -1.0
    ensures 1.0 < c ==> r == 1.0
  {
    MaxReal(-1.0, MinReal(1.0, c))
  }

  /** Scales a normalized landmark to pixel coordinates; one inside the frame lands inside the image. */
  function ToPixels(p: Point, imgW: real, imgH: real): (q: Point)
    ensures 0.0 <= imgW && 0.0 <= p.x <= 1.0 ==> 0.0 <= q.x <= imgW
    ensures 0.0 <= imgH && 0.0 <= p.y <= 1.0 ==> 0.0 <= q.y <= imgH
  {
    Point(p.x * imgW, p.y * imgH)
  }
}
