/** Values and objects shared by the three controllers: three.js vectors,
    quaternions and scene nodes, cannon-es bodies, and the parts of the
    JavaScript Math library the controllers rely on. */
module Scene {

  /** A three.js `Vector3` / cannon-es `Vec3`, with exact real components. */
  datatype Vec3 = Vec3(x: real, y: real, z: real)

  /** A rotation quaternion, carried around but never computed with. */
  datatype Quat = Quat(x: real, y: real, z: real, w: real)

  /** A position and orientation, as cannon-es reports a wheel's world transform. */
  datatype Transform = Transform(position: Vec3, quaternion: Quat)

  const Zero: Vec3 := Vec3(0.0, 0.0, 0.0)
  const Identity: Quat := Quat(0.0, 0.0, 0.0, 1.0)

  function Add(a: Vec3, b: Vec3): Vec3 {
    Vec3(a.x + b.x, a.y + b.y, a.z + b.z)
  }

  function Sub(a: Vec3, b: Vec3): Vec3 {
    Vec3(a.x - b.x, a.y - b.y, a.z - b.z)
  }

  function Scale(v: Vec3, k: real): Vec3 {
    Vec3(v.x * k, v.y * k, v.z * k)
  }

  function Abs(a: real): real { if a < 0.0 then -a else a }

  function LengthSq(v: Vec3): real {
    v.x * v.x + v.y * v.y + v.z * v.z
  }

  /** `Vector3.lerp(target, alpha)`: every component moves the fraction
      `alpha` of the way from `p` to `t`, so the part `1 - alpha` of the gap
      is left; alpha 0 stays at `p`, alpha 1 arrives at `t`. */
  function Lerp(p: Vec3, t: Vec3, alpha: real): (r: Vec3)
    ensures Sub(t, r) == Scale(Sub(t, p), 1.0 - alpha)
    ensures alpha == 0.0 ==> r == p
    ensures alpha == 1.0 ==> r == t
    ensures p == t ==> r == t
  {
    Vec3(p.x + (t.x - p.x) * alpha, p.y + (t.y - p.y) * alpha, p.z + (t.z - p.z) * alpha)
  }

  /** The JavaScript functions `Math.sqrt`, `Math.cos` and `Math.sin`, which
      the model does not compute but receives from its caller. */
  datatype MathLib = MathLib(sqrt: real -> real, cos: real -> real, sin: real -> real)

  /** The facts about those functions that the controllers depend on. Each
      holds exactly of the IEEE 754 functions too: the square roots of 0 and
      1 are 0 and 1, the square root of a positive number is positive, and
      the cosine and sine of 0 are 1 and 0. */
  ghost predicate Lawful(m: MathLib) {
    m.sqrt(0.0) == 0.0 && m.sqrt(1.0) == 1.0 &&
    (forall r :: r > 0.0 ==> m.sqrt(r) > 0.0) &&
    m.cos(0.0) == 1.0 && m.sin(0.0) == 0.0
  }

  /** Rotation about the vertical (Y) axis by the angle whose cosine is `c`
      and sine is `s`: what `applyAxisAngle((0, 1, 0), angle)` does. The
      height is kept, the zero vector stays zero, and the angle 0 changes
      nothing. */
  function RotateY(v: Vec3, c: real, s: real): (r: Vec3)
    ensures r.y == v.y
    ensures v == Zero ==> r == Zero
    ensures c == 1.0 && s == 0.0 ==> r == v
  {
    Vec3(v.x * c + v.z * s, v.y, v.z * c - v.x * s)
  }

  /** Rotation about the lateral (X) axis: the pitch part of an Euler rotation. */
  function RotateX(v: Vec3, c: real, s: real): (r: Vec3)
    ensures r.x == v.x
    ensures v == Zero ==> r == Zero
    ensures c == 1.0 && s == 0.0 ==> r == v
  {
    Vec3(v.x, v.y * c - v.z * s, v.y * s + v.z * c)
  }

  /** `Vector3.normalize()`, which divides by `length() || 1`. The zero
      vector, whose length is 0, is left as it is instead of being divided by
      zero, and a vector of length one is left as it is too. */
  function Normalize(v: Vec3, m: MathLib): (r: Vec3)
    requires Lawful(m)
    ensures v == Zero ==> r == Zero
    ensures LengthSq(v) == 1.0 ==> r == v
  {
    var len := m.sqrt(LengthSq(v));
    Scale(v, 1.0 / (if len == 0.0 then 1.0 else len))
  }

  /** A three.js scene node (a `Mesh` or the `PerspectiveCamera`): position,
      orientation as a quaternion, and the Euler angles `rotation`. */
  class Object3D {
    var position: Vec3
    var quaternion: Quat
    var rotation: Vec3

    constructor (p: Vec3)
      ensures position == p && quaternion == Identity && rotation == Zero
    {
      position, quaternion, rotation := p, Identity, Zero;
    }
  }

  /** A cannon-es rigid body. The physics step, which is not part of this
      model, changes its position, orientation and velocity between frames. */
  class Body {
    const mass: real
    var position: Vec3
    var quaternion: Quat
    var velocity: Vec3

    constructor (mass: real, p: Vec3)
      ensures this.mass == mass && position == p && quaternion == Identity && velocity == Zero
    {
      this.mass, position, quaternion, velocity := mass, p, Identity, Zero;
    }
  }
}
