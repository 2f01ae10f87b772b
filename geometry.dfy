/** The small part of Unity's vector, quaternion and rigidbody vocabulary the core uses,
    over real numbers. */
module Geometry {

  datatype Vec3 = Vec3(x: real, y: real, z: real)

  const Zero: Vec3 := Vec3(0.0, 0.0, 0.0)
  const Up: Vec3 := Vec3(0.0, 1.0, 0.0)

  function Add(a: Vec3, b: Vec3): Vec3 {
    Vec3(a.x + b.x, a.y + b.y, a.z + b.z)
  }

  function Scale(v: Vec3, k: real): Vec3 {
    Vec3(v.x * k, v.y * k, v.z * k)
  }

  /** Component-wise product (Vector3.Scale). */
  function Mul(a: Vec3, b: Vec3): Vec3 {
    Vec3(a.x * b.x, a.y * b.y, a.z * b.z)
  }

  function Dot(a: Vec3, b: Vec3): real {
    a.x * b.x + a.y * b.y + a.z * b.z
  }

  /** Unity's kEpsilon below which Vector3.normalized gives the zero vector. */
  const NormalizeEpsilon: real := 0.00001

  /** `m` is the length of `v` (the engine's square root of the squared length). */
  predicate IsMagnitude(v: Vec3, m: real) {
    m >= 0.0 && m * m == Dot(v, v)
  }

  /** Vector3.normalized, given the vector's magnitude (the engine's square root).
      A vector whose magnitude exceeds the epsilon becomes a unit vector; a shorter one
      becomes zero. */
  function Normalized(v: Vec3, magnitude: real): (r: Vec3)
    requires IsMagnitude(v, magnitude)
    ensures magnitude > NormalizeEpsilon ==> Dot(r, r) == 1.0
    ensures magnitude <= NormalizeEpsilon ==> r == Zero
  {
    if magnitude > NormalizeEpsilon then
      var r := Scale(v, 1.0 / magnitude);
      assert Dot(r, r) == Dot(v, v) * (1.0 / magnitude) * (1.0 / magnitude);
      assert (1.0 / magnitude) * magnitude == 1.0;
      r
    else Zero
  }

  /** Scaling a vector by `k` scales its squared length by `k * k`. */
  lemma ScaleSquaredLength(v: Vec3, k: real)
    ensures Dot(Scale(v, k), Scale(v, k)) == k * k * Dot(v, v)
  {
    assert v.x * k * (v.x * k) == k * k * (v.x * v.x);
    assert v.y * k * (v.y * k) == k * k * (v.y * v.y);
    assert v.z * k * (v.z * k) == k * k * (v.z * v.z);
  }

  /** A unit vector scaled by `k` has squared length `k * k`. */
  lemma UnitScaled(d: Vec3, k: real)
    requires Dot(d, d) == 1.0
    ensures Dot(Scale(d, k), Scale(d, k)) == k * k
  {
    ScaleSquaredLength(d, k);
  }

  /** Normalising by a non-zero magnitude `m`, scaling by `k`, then scaling back by `m`
      gives the original vector scaled by `k`: the direction is kept. */
  lemma Rescaled(v: Vec3, m: real, k: real)
    requires m != 0.0
    ensures Scale(Scale(Scale(v, 1.0 / m), k), m) == Scale(v, k)
  {
    var u := 1.0 / m;
    assert u * m == 1.0;
    assert v.x * u * k * m == v.x * k * (u * m);
    assert v.y * u * k * m == v.y * k * (u * m);
    assert v.z * u * k * m == v.z * k * (u * m);
  }

  lemma ScaleZero(k: real)
    ensures Scale(Zero, k) == Zero
  {
  }

  /** A quaternion with Unity's component order. */
  datatype Quat = Quat(x: real, y: real, z: real, w: real)

  const Identity: Quat := Quat(0.0, 0.0, 0.0, 1.0)

  /** Quaternion composition (Quaternion operator *). */
  function QMul(a: Quat, b: Quat): Quat {
    Quat(a.w * b.x + a.x * b.w + a.y * b.z - a.z * b.y,
         a.w * b.y + a.y * b.w + a.z * b.x - a.x * b.z,
         a.w * b.z + a.z * b.w + a.x * b.y - a.y * b.x,
         a.w * b.w - a.x * b.x - a.y * b.y - a.z * b.z)
  }

  lemma QMulIdentity(q: Quat)
    ensures QMul(q, Identity) == q && QMul(Identity, q) == q
  {
  }

  /** Rotating a point by a quaternion (Quaternion * Vector3), as the engine computes it. */
  function Rotate(q: Quat, p: Vec3): Vec3 {
    var x2, y2, z2 := q.x * 2.0, q.y * 2.0, q.z * 2.0;
    var xx, yy, zz := q.x * x2, q.y * y2, q.z * z2;
    var xy, xz, yz := q.x * y2, q.x * z2, q.y * z2;
    var wx, wy, wz := q.w * x2, q.w * y2, q.w * z2;
    Vec3((1.0 - (yy + zz)) * p.x + (xy - wz) * p.y + (xz + wy) * p.z,
         (xy + wz) * p.x + (1.0 - (xx + zz)) * p.y + (yz - wx) * p.z,
         (xz - wy) * p.x + (yz + wx) * p.y + (1.0 - (xx + yy)) * p.z)
  }

  /** The world placement of a transform without a parent. */
  datatype Pose = Pose(position: Vec3, rotation: Quat, scale: Vec3)

  /** Transform.TransformPoint: local coordinates to world coordinates. */
  function TransformPoint(t: Pose, local: Vec3): Vec3 {
    Add(t.position, Rotate(t.rotation, Mul(t.scale, local)))
  }

  /** How a force is handed to the physics integrator (ForceMode). */
  datatype ForceMode = Force | Acceleration | Impulse | VelocityChange

  /** One call into the rigidbody: AddForce or AddTorque. */
  datatype Effect =
    | AddForce(force: Vec3, mode: ForceMode)
    | AddTorque(torque: Vec3, mode: ForceMode)
}
