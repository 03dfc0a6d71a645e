/** Plane geometry used to normalise a landmark snapshot: the distance
    between two points and the rotation of a point about a centre.
    The transcendental library functions (`Math.atan2`, `Math.cos`,
    `Math.sin`, `Math.hypot`) are not defined here: they arrive as the
    fields of a `Numerics` value, so every fact proved below holds for
    whatever those functions compute. */
module Geometry {

  datatype Point = Point(x: real, y: real)

  /** The floating-point library functions the service calls. */
  datatype Numerics = Numerics(
    atan2: (real, real) -> real,
    cos: real -> real,
    sin: real -> real,
    hypot: (real, real) -> real)

  function Abs(v: real): (r: real)
    ensures 0.0 <= r && (r == v || r == -v)
  {
    if v < 0.0 then -v else v
  }

  /** `distance2D(a, b)`: `Math.hypot` of the coordinate differences. */
  function Distance2D(num: Numerics, a: Point, b: Point): real
  {
    num.hypot(a.x - b.x, a.y - b.y)
  }

  /** `rotatePoint(point, center, angle)`: the standard rotation by
      `-angle` about `center`. Whatever cosine and sine the library
      returns, the centre stays where it is, and a rotation whose cosine
      is 1 and sine is 0 leaves every point in place. */
  function RotatePoint(num: Numerics, p: Point, center: Point, angle: real): (q: Point)
    ensures p == center ==> q == center
    ensures num.cos(-angle) == 1.0 && num.sin(-angle) == 0.0 ==> q == p
  {
    var x0 := p.x - center.x;
    var y0 := p.y - center.y;
    var cosA := num.cos(-angle);
    var sinA := num.sin(-angle);
    Point(x0 * cosA - y0 * sinA + center.x, x0 * sinA + y0 * cosA + center.y)
  }
}
