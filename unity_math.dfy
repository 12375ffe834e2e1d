/**
 * The scalar and vector arithmetic of Unity that the replay camera uses
 * (Mathf.Clamp, Mathf.Clamp01, Mathf.Lerp, Vector3 and its operators),
 * over exact reals. Quaternions are symbolic terms; the parts of the engine
 * that need trigonometry or square roots are the fields of `Engine`.
 */
module UnityMath {

  /** Mathf.Clamp: `lo` below the range, `hi` above it, `v` inside it. */
  function Clamp(v: real, lo: real, hi: real): (r: real)
    ensures lo <= hi ==> lo <= r <= hi
    ensures lo <= v <= hi ==> r == v
  {
    if v < lo then lo else if v > hi then hi else v
  }

  /** Mathf.Abs. */
  function Abs(v: real): (r: real)
    ensures r >= 0.0 && (r == v || r == -v)
  {
    if v < 0.0 then -v else v
  }

  /** Mathf.Clamp01. */
  function Clamp01(t: real): (r: real)
    ensures 0.0 <= r <= 1.0
    ensures 0.0 <= t <= 1.0 ==> r == t
  {
    Clamp(t, 0.0, 1.0)
  }

  /** Mathf.Lerp, which clamps its interpolation parameter to [0, 1]. */
  function Lerp(a: real, b: real, t: real): (r: real)
    ensures a <= b ==> a <= r <= b
    ensures b <= a ==> b <= r <= a
    ensures t <= 0.0 ==> r == a
    ensures t >= 1.0 ==> r == b
  {
    var c := Clamp01(t);
    var d := b - a;
    var p := d * c;
    ScaleBetween(d, c, p);
    a + p
  }

  /** Scaling by a factor in [0, 1] moves a number towards zero without changing its sign. */
  lemma ScaleBetween(d: real, c: real, p: real)
    requires 0.0 <= c <= 1.0 && p == d * c
    ensures d >= 0.0 ==> 0.0 <= p <= d
    ensures d <= 0.0 ==> d <= p <= 0.0
    ensures c == 0.0 ==> p == 0.0
    ensures c == 1.0 ==> p == d
  {
    assert d * (1.0 - c) == d - p;
    assert (-d) * c == -p;
    assert (-d) * (1.0 - c) == p - d;
    if d >= 0.0 {
      MulNonNegative(d, c);
      MulNonNegative(d, 1.0 - c);
    } else {
      MulNonNegative(-d, c);
      MulNonNegative(-d, 1.0 - c);
    }
  }

  lemma MulNonNegative(x: real, y: real)
    requires x >= 0.0 && y >= 0.0
    ensures x * y >= 0.0
  {
  }

  datatype Vec3 = Vec3(x: real, y: real, z: real)

  const Zero := Vec3(0.0, 0.0, 0.0)
  /** Vector3.up */
  const Up := Vec3(0.0, 1.0, 0.0)
  /** Vector3.back */
  const Back := Vec3(0.0, 0.0, -1.0)

  function Add(a: Vec3, b: Vec3): Vec3 { Vec3(a.x + b.x, a.y + b.y, a.z + b.z) }
  function Sub(a: Vec3, b: Vec3): Vec3 { Vec3(a.x - b.x, a.y - b.y, a.z - b.z) }
  function Scale(a: Vec3, k: real): Vec3 { Vec3(a.x * k, a.y * k, a.z * k) }
  function SqrMagnitude(a: Vec3): real { a.x * a.x + a.y * a.y + a.z * a.z }

  /** Unity's `==` on Vector3: the squared distance is below 1e-10. */
  predicate ApproxEqual(a: Vec3, b: Vec3) {
    SqrMagnitude(Sub(a, b)) < 0.0000000001
  }

  /** Vector3.Lerp, which clamps its interpolation parameter to [0, 1]. */
  function LerpVec(a: Vec3, b: Vec3, t: real): Vec3 {
    Add(a, Scale(Sub(b, a), Clamp01(t)))
  }

  /**
   * A rotation, kept as the term that produced it: a rotation read from the
   * engine, Quaternion.Euler(pitch, yaw, 0), Quaternion.LookRotation(forward),
   * or Quaternion.Lerp(from, to, t) with t already clamped. `Unset` is the
   * all-zero value of an unassigned Quaternion field.
   */
  datatype Rotation =
    | Unset
    | Observed(id: int)
    | Euler(pitch: real, yaw: real)
    | LookRotation(forward: Vec3)
    | Blend(from: Rotation, to: Rotation, t: real)

  /** Quaternion.Lerp: the parameter is clamped to [0, 1]. */
  function QuaternionLerp(a: Rotation, b: Rotation, t: real): (r: Rotation)
    ensures r.Blend? && 0.0 <= r.t <= 1.0
  {
    Blend(a, b, Clamp01(t))
  }

  /**
   * The engine's own maths, which the camera code calls but does not define:
   * Quaternion.eulerAngles (each angle in [0, 360)), quaternion-times-vector,
   * Vector3.normalized and Vector3.magnitude.
   */
  datatype Engine = Engine(
    eulerAngles: Rotation -> Vec3,
    rotate: (Rotation, Vec3) -> Vec3,
    normalized: Vec3 -> Vec3,
    magnitude: Vec3 -> real)

  /** Vector3.Distance */
  function Distance(eng: Engine, a: Vec3, b: Vec3): real {
    eng.magnitude(Sub(a, b))
  }
}
