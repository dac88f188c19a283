/**
 * Camera auto-framing of a freshly loaded model (viewer.component.ts, the
 * success callback of loadIFC). The bounding box of the model is an input;
 * `tan` is an uninterpreted function handed in by the caller, so only the
 * structure of the computation is modelled, over mathematical reals.
 */
module Framing {

  datatype Vec3 = Vec3(x: real, y: real, z: real)

  /** Centre and per-axis extent of an axis-aligned bounding box (Box3.getCenter / Box3.getSize). */
  datatype Box = Box(center: Vec3, size: Vec3)

  /** JavaScript's Math.PI, as a decimal. */
  const PI: real := 3.141592653589793

  /** Margin factor applied to the fitted distance ("cameraZ *= 2.0"). */
  const Margin: real := 2.0

  function Abs(r: real): (a: real)
    ensures a >= 0.0
    ensures a == r || a == -r
  {
    if r < 0.0 then -r else r
  }

  /** Math.max over three numbers. */
  function Max3(a: real, b: real, c: real): (m: real)
    ensures m >= a && m >= b && m >= c
    ensures m == a || m == b || m == c
  {
    if a >= b && a >= c then a else if b >= c then b else c
  }

  /** Degrees to radians, as the source writes it: fov * (PI / 180). */
  function Radians(degrees: real): real
  {
    degrees * (PI / 180.0)
  }

  /** The value the source hands to Math.tan: half the field of view, in radians. */
  function HalfFov(fovDegrees: real): real
  {
    Radians(fovDegrees) / 2.0
  }

  /**
   * Distance from the box centre along each axis:
   * Margin * |maxDim / 2 / tanHalf|. There is no fallback for a degenerate box:
   * the distance is zero exactly when the largest extent is zero.
   */
  function CameraDistance(maxDim: real, tanHalf: real): (d: real)
    requires tanHalf != 0.0
    ensures d >= 0.0
    ensures d == 0.0 <==> maxDim == 0.0
    ensures d * Abs(tanHalf) == Abs(maxDim)
  {
    var q := maxDim / 2.0 / tanHalf;
    assert q * tanHalf * 2.0 == maxDim;
    Margin * Abs(q)
  }

  /** The point the camera is moved to: the centre shifted by the same distance on all three axes. */
  function Offset(center: Vec3, d: real): (p: Vec3)
    ensures p.x - center.x == d && p.y - center.y == d && p.z - center.z == d
  {
    Vec3(center.x + d, center.y + d, center.z + d)
  }

  /** The camera position the success callback computes for `box` with a camera of `fovDegrees`. */
  function FramePosition(box: Box, fovDegrees: real, tan: real -> real): (p: Vec3)
    requires tan(HalfFov(fovDegrees)) != 0.0
    ensures p.x - box.center.x == p.y - box.center.y == p.z - box.center.z >= 0.0
    ensures p == box.center <==> Max3(box.size.x, box.size.y, box.size.z) == 0.0
  {
    var d := CameraDistance(Max3(box.size.x, box.size.y, box.size.z), tan(HalfFov(fovDegrees)));
    Offset(box.center, d)
  }

  /** A larger model is framed from at least as far away. */
  lemma CameraDistanceMonotone(a: real, b: real, tanHalf: real)
    requires tanHalf != 0.0
    requires 0.0 <= a <= b
    ensures CameraDistance(a, tanHalf) <= CameraDistance(b, tanHalf)
  {
    var da, db := CameraDistance(a, tanHalf), CameraDistance(b, tanHalf);
    var t := Abs(tanHalf);
    assert t > 0.0;
    assert da * t == a;
    assert db * t == b;
    CancelPositive(da, db, t, a, b);
  }

  /** Dividing both sides of p <= q by the same positive factor keeps the order. */
  lemma CancelPositive(x: real, y: real, t: real, p: real, q: real)
    requires t > 0.0 && x * t == p && y * t == q && p <= q
    ensures x <= y
  {
    assert x == p / t && y == q / t;
    assert y - x == (q - p) / t;
  }
}
