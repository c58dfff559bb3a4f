/** The orbit camera of Camera.js: yaw and pitch driven by the mouse, the
    pitch held within a bound, and a per-frame step that moves the camera a
    fixed fraction of the way toward a point behind and above its target. */
module CameraRig {
  import opened Scene

  /** Radians per pixel of mouse movement, for both angles. */
  const MouseSensitivity: real := 0.002
  /** The pitch bound: the value `Math.PI / 3` prints as. */
  const PitchLimit: real := 1.0471975511965976
  /** The fraction of the remaining distance covered by each update. */
  const Smoothing: real := 0.1
  /** The camera's position relative to the target before rotation. */
  const DefaultOffset: Vec3 := Vec3(0.0, 1.5, 4.0)
  /** The point the camera looks at, relative to the target. */
  const DefaultLookAtOffset: Vec3 := Vec3(0.0, 1.5, 0.0)

  function Min(a: real, b: real): real { if a <= b then a else b }
  function Max(a: real, b: real): real { if a >= b then a else b }

  /** `Math.max(-B, Math.min(B, phi))`: the pitch brought back within
      [-B, B]. A pitch already in range is kept; one beyond a bound becomes
      that bound. */
  function Clamp(phi: real): (r: real)
    ensures -PitchLimit <= r <= PitchLimit
    ensures -PitchLimit <= phi <= PitchLimit ==> r == phi
    ensures phi > PitchLimit ==> r == PitchLimit
    ensures phi < -PitchLimit ==> r == -PitchLimit
  {
    Max(-PitchLimit, Min(PitchLimit, phi))
  }

  /** Clamping twice is clamping once. */
  lemma ClampIdempotent(phi: real)
    ensures Clamp(Clamp(phi)) == Clamp(phi)
  {
  }

  /** The camera's yaw (`theta`) and pitch (`phi`). */
  datatype Angles = Angles(theta: real, phi: real)

  /** A mouse movement as the listener sees it: whether any element holds
      the pointer lock, and the movement in pixels. */
  datatype MouseMove = MouseMove(locked: bool, movementX: real, movementY: real)

  /** What the mousemove listener does to the angles. Without pointer lock
      nothing changes. Under lock the yaw moves by exactly -0.002 per pixel,
      with no bound, and the pitch ends within the bound whatever the size
      of the movement: a step that stays in range is taken exactly, and one
      beyond a bound ends on that bound. */
  function Look(a: Angles, mv: MouseMove): (r: Angles)
    ensures !mv.locked ==> r == a
    ensures mv.locked ==> r.theta == a.theta - mv.movementX * MouseSensitivity
    ensures mv.locked ==> -PitchLimit <= r.phi <= PitchLimit
    ensures mv.locked && -PitchLimit <= a.phi - mv.movementY * MouseSensitivity <= PitchLimit ==>
      r.phi == a.phi - mv.movementY * MouseSensitivity
    ensures mv.locked && a.phi - mv.movementY * MouseSensitivity > PitchLimit ==> r.phi == PitchLimit
    ensures mv.locked && a.phi - mv.movementY * MouseSensitivity < -PitchLimit ==> r.phi == -PitchLimit
  {
    if mv.locked then
      Angles(a.theta - mv.movementX * MouseSensitivity,
             Clamp(a.phi - mv.movementY * MouseSensitivity))
    else
      a
  }

  /** The angles after the listener has run on each movement in turn. */
  function LookAll(a: Angles, moves: seq<MouseMove>): Angles
    decreases |moves|
  {
    if moves == [] then a else LookAll(Look(a, moves[0]), moves[1..])
  }

  /** The horizontal movement made under pointer lock. */
  function LockedTravel(moves: seq<MouseMove>): real
    decreases |moves|
  {
    if moves == [] then 0.0
    else (if moves[0].locked then moves[0].movementX else 0.0) + LockedTravel(moves[1..])
  }

  /** From a pitch in range (the initial 0 is), every sequence of mouse
      movements keeps the pitch in range. */
  lemma {:induction false} PitchStaysInRange(a: Angles, moves: seq<MouseMove>)
    requires -PitchLimit <= a.phi <= PitchLimit
    ensures -PitchLimit <= LookAll(a, moves).phi <= PitchLimit
    decreases |moves|
  {
    if moves != [] {
      PitchStaysInRange(Look(a, moves[0]), moves[1..]);
    }
  }

  /** The yaw is the starting yaw minus 0.002 times the horizontal movement
      made under lock: it is never clamped. */
  lemma {:induction false} YawIsLockedTravel(a: Angles, moves: seq<MouseMove>)
    ensures LookAll(a, moves).theta == a.theta - LockedTravel(moves) * MouseSensitivity
    decreases |moves|
  {
    if moves != [] {
      YawIsLockedTravel(Look(a, moves[0]), moves[1..]);
    }
  }

  /** The camera offset turned by the Euler angles (pitch, yaw, 0) in the
      order 'YXZ': pitch about X first, then yaw about Y. */
  function OrbitOffset(offset: Vec3, a: Angles, m: MathLib): (r: Vec3)
    ensures r.y == offset.y * m.cos(a.phi) - offset.z * m.sin(a.phi)
    ensures m.cos(a.theta) == 1.0 && m.sin(a.theta) == 0.0 ==>
      r == RotateX(offset, m.cos(a.phi), m.sin(a.phi))
    ensures m.cos(a.phi) == 1.0 && m.sin(a.phi) == 0.0 ==>
      r == RotateY(offset, m.cos(a.theta), m.sin(a.theta))
  {
    RotateY(RotateX(offset, m.cos(a.phi), m.sin(a.phi)), m.cos(a.theta), m.sin(a.theta))
  }

  /** Where the camera heads for: the target plus the turned offset. With
      both angles 0 it is the target plus the plain offset. */
  function Desired(target: Vec3, offset: Vec3, a: Angles, m: MathLib): (r: Vec3)
    requires Lawful(m)
    ensures a == Angles(0.0, 0.0) ==> r == Add(target, offset)
  {
    Add(target, OrbitOffset(offset, a, m))
  }

  /** One update toward a fixed point `t`: 0.9 of the gap is left on each
      axis, and a camera already at `t` stays there. */
  function Follow(p: Vec3, t: Vec3): (r: Vec3)
    ensures Sub(t, r) == Scale(Sub(t, p), 0.9)
    ensures p == t ==> r == t
  {
    Lerp(p, t, Smoothing)
  }

  /** The position after `n` updates toward the fixed point `t`: no update
      leaves `p` where it is, and once at `t` the camera stays at `t`. */
  function FollowN(p: Vec3, t: Vec3, n: nat): (r: Vec3)
    ensures n == 0 ==> r == p
    ensures p == t ==> r == t
  {
    if n == 0 then p else Follow(FollowN(p, t, n - 1), t)
  }

  /** A gap `d` after `n` updates: 0.9 to the power n, times d. */
  function Shrink(d: real, n: nat): real {
    if n == 0 then d else 0.9 * Shrink(d, n - 1)
  }

  /** After n updates toward a fixed point, the gap on each axis is the
      initial gap shrunk n times by the factor 0.9. */
  lemma {:induction false} FollowNGap(p: Vec3, t: Vec3, n: nat)
    ensures Sub(t, FollowN(p, t, n)) ==
      Vec3(Shrink(t.x - p.x, n), Shrink(t.y - p.y, n), Shrink(t.z - p.z, n))
  {
    if n > 0 {
      FollowNGap(p, t, n - 1);
    }
  }

  /** The distance left never grows, shrinks at every update while it is
      not zero, and keeps its sign: the camera approaches monotonically
      and never overshoots. */
  lemma {:induction false} ShrinkMonotone(d: real, n: nat)
    ensures Abs(Shrink(d, n)) <= Abs(d)
    ensures n > 0 && d != 0.0 ==> Abs(Shrink(d, n)) < Abs(d)
    ensures (d > 0.0 ==> Shrink(d, n) > 0.0) && (d < 0.0 ==> Shrink(d, n) < 0.0)
    ensures d == 0.0 ==> Shrink(d, n) == 0.0
  {
    if n > 0 {
      ShrinkMonotone(d, n - 1);
    }
  }

  lemma {:induction false} ShrinkAdd(d: real, n: nat, k: nat)
    ensures Shrink(d, n + k) == Shrink(Shrink(d, n), k)
    decreases k
  {
    if k > 0 {
      ShrinkAdd(d, n, k - 1);
      assert n + k - 1 == n + (k - 1);
    }
  }

  /** Every 22 updates cut the remaining distance on each axis to at most a
      tenth (0.9 to the 22nd is about 0.098). */
  lemma TenthAfter22(d: real, n: nat)
    ensures Abs(Shrink(d, n + 22)) <= Abs(Shrink(d, n)) / 10.0
  {
    var e := Shrink(d, n);
    ShrinkAdd(d, n, 22);
    ShrinkAdd(e, 16, 6);
    Shrink16(e);
    Shrink6(Shrink(e, 16));
  }

  lemma Shrink2(e: real)
    ensures Shrink(e, 2) == 0.81 * e
  {
    assert Shrink(e, 1) == 0.9 * e;
  }

  lemma Shrink4(e: real)
    ensures Shrink(e, 4) == 0.6561 * e
  {
    ShrinkAdd(e, 2, 2);
    Shrink2(e);
    Shrink2(Shrink(e, 2));
  }

  lemma Shrink6(e: real)
    ensures Shrink(e, 6) == 0.531441 * e
  {
    ShrinkAdd(e, 4, 2);
    Shrink4(e);
    Shrink2(Shrink(e, 4));
  }

  lemma Shrink8(e: real)
    ensures Shrink(e, 8) == 0.43046721 * e
  {
    ShrinkAdd(e, 4, 4);
    Shrink4(e);
    Shrink4(Shrink(e, 4));
  }

  lemma Shrink16(e: real)
    ensures Shrink(e, 16) == 0.1853020188851841 * e
  {
    ShrinkAdd(e, 8, 8);
    Shrink8(e);
    Shrink8(Shrink(e, 8));
  }

  /** The camera manager: the camera it moves, the object it follows (none
      when `target` is null), the two fixed offsets and the two angles. */
  class CameraManager {
    const camera: Object3D
    var target: Object3D?
    const offset: Vec3
    const lookAtOffset: Vec3
    var theta: real
    var phi: real

    /** The pitch is never out of range between events. */
    ghost predicate Valid()
      reads this
    {
      -PitchLimit <= phi <= PitchLimit
    }

    /** The two angles as one value. */
    function View(): Angles
      reads this
    {
      Angles(theta, phi)
    }

    constructor (camera: Object3D, target: Object3D?)
      ensures Valid()
      ensures this.camera == camera && this.target == target
      ensures offset == DefaultOffset && lookAtOffset == DefaultLookAtOffset
      ensures theta == 0.0 && phi == 0.0
    {
      this.camera := camera;
      this.target := target;
      offset := DefaultOffset;
      lookAtOffset := DefaultLookAtOffset;
      phi := 0.0;
      theta := 0.0;
    }

    /** The mousemove listener. */
    method OnMouseMove(locked: bool, movementX: real, movementY: real)
      requires Valid()
      modifies this`theta, this`phi
      ensures Valid()
      ensures View() == Look(old(View()), MouseMove(locked, movementX, movementY))
    {
      if locked {
        theta := theta - movementX * MouseSensitivity;
        phi := phi - movementY * MouseSensitivity;
        phi := Max(-PitchLimit, Min(PitchLimit, phi));
      }
    }

    /** `update(deltaTime)`: nothing without a target; otherwise the camera
        moves a tenth of the way toward the target plus the turned offset.
        `deltaTime` is not used, so the smoothing is per call, not per
        second. The angles and offsets are not changed. */
    method Update(deltaTime: real, m: MathLib)
      requires Lawful(m)
      modifies camera`position
      ensures View() == old(View()) && Valid() == old(Valid())
      ensures target == null ==> camera.position == old(camera.position)
      ensures target != null ==>
                camera.position == Follow(old(camera.position), Desired(old(target.position), offset, View(), m))
    {
      if target == null {
        return;
      }
      var currentOffset := OrbitOffset(offset, View(), m);
      var targetPosition := Add(target.position, currentOffset);
      camera.position := Lerp(camera.position, targetPosition, Smoothing);
    }
  }
}
