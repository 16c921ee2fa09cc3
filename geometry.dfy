/**
 * The Unity value types the core passes around, with floats abstracted to
 * `real`. Only the operations whose definition matters to the core are
 * written out (the clamped linear interpolations); quaternion angles,
 * look-rotations and vector magnitudes are supplied by callers as functions.
 */
module Geometry {

  datatype Vec3 = Vec3(x: real, y: real, z: real)

  const Zero: Vec3 := Vec3(0.0, 0.0, 0.0)

  datatype Quat = Quat(x: real, y: real, z: real, w: real)

  const Identity: Quat := Quat(0.0, 0.0, 0.0, 1.0)

  datatype Pose = Pose(position: Vec3, rotation: Quat)

  /** Mathf.Clamp01 */
  function Clamp01(t: real): (r: real)
    ensures 0.0 <= r <= 1.0
    ensures 0.0 <= t <= 1.0 ==> r == t
  {
    if t < 0.0 then 0.0 else if t > 1.0 then 1.0 else t
  }

  /** Mathf.Clamp */
  function Clamp(v: real, lo: real, hi: real): (r: real)
    requires lo <= hi
    ensures lo <= r <= hi
    ensures lo <= v <= hi ==> r == v
  {
    if v < lo then lo else if v > hi then hi else v
  }

  /** Mathf.Lerp: the interpolation parameter is clamped to [0, 1]. */
  function Lerp(a: real, b: real, t: real): real
  {
    a + (b - a) * Clamp01(t)
  }

  /** Vector3.Lerp, clamped like Mathf.Lerp, coordinate by coordinate. */
  function LerpVec(a: Vec3, b: Vec3, t: real): Vec3
  {
    Vec3(Lerp(a.x, b.x, t), Lerp(a.y, b.y, t), Lerp(a.z, b.z, t))
  }

  function Sub(a: Vec3, b: Vec3): Vec3
  {
    Vec3(a.x - b.x, a.y - b.y, a.z - b.z)
  }

  function Div(a: Vec3, d: real): Vec3
    requires d != 0.0
  {
    Vec3(a.x / d, a.y / d, a.z / d)
  }

  /** `r` lies on the closed segment between `a` and `b`. */
  predicate Between(a: real, b: real, r: real)
  {
    (a <= r <= b) || (b <= r <= a)
  }

  predicate BetweenVec(a: Vec3, b: Vec3, r: Vec3)
  {
    Between(a.x, b.x, r.x) && Between(a.y, b.y, r.y) && Between(a.z, b.z, r.z)
  }

  /** A clamped interpolation never leaves the segment between its ends,
      so it never overshoots the target. */
  lemma LerpStaysBetween(a: real, b: real, t: real)
    ensures Between(a, b, Lerp(a, b, t))
    ensures t <= 0.0 ==> Lerp(a, b, t) == a
    ensures t >= 1.0 ==> Lerp(a, b, t) == b
  {
    var c := Clamp01(t);
    var d := b - a;
    var p := d * c;
    assert Lerp(a, b, t) == a + p;
    ScaledBounds(d, c);
    if a <= b {
      assert a <= a + p <= b;
    } else {
      assert b <= a + p <= a;
    }
  }

  /** A fraction `c` of `d` lies between 0 and `d`. */
  lemma ScaledBounds(d: real, c: real)
    requires 0.0 <= c <= 1.0
    ensures d >= 0.0 ==> 0.0 <= d * c <= d
    ensures d < 0.0 ==> d <= d * c <= 0.0
    ensures c == 0.0 ==> d * c == 0.0
    ensures c == 1.0 ==> d * c == d
  {
    if d >= 0.0 {
      assert d * c <= d * 1.0;
    } else {
      assert d * 1.0 <= d * c;
    }
  }

  /** The distance to the target never grows: repeated interpolation towards
      a fixed target converges monotonically. */
  lemma LerpApproaches(a: real, b: real, t: real)
    ensures Lerp(a, b, t) - b == (a - b) * (1.0 - Clamp01(t))
    ensures a <= b ==> b - Lerp(a, b, t) <= b - a
    ensures b <= a ==> Lerp(a, b, t) - b <= a - b
  {
    LerpStaysBetween(a, b, t);
  }

  lemma LerpVecStaysBetween(a: Vec3, b: Vec3, t: real)
    ensures BetweenVec(a, b, LerpVec(a, b, t))
    ensures t <= 0.0 ==> LerpVec(a, b, t) == a
  {
    LerpStaysBetween(a.x, b.x, t);
    LerpStaysBetween(a.y, b.y, t);
    LerpStaysBetween(a.z, b.z, t);
  }
}
