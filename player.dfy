/** The walking character of Player.js: the key state kept by the keyboard
    handler, the yaw kept by the mouse handler, and the per-frame step that
    turns them into the horizontal velocity of the body and syncs the mesh. */
module PlayerControl {
  import opened Scene

  /** `this.speed`, in units per second. */
  const Speed: real := 5.0
  /** Radians of yaw per pixel of horizontal mouse movement. */
  const MouseSensitivity: real := 0.002
  const PlayerMass: real := 70.0
  const SpawnPosition: Vec3 := Vec3(0.0, 5.0, 0.0)

  /** `this.input`: which of the four movement keys are held. */
  datatype KeyState = KeyState(forward: bool, backward: bool, left: bool, right: bool)

  const NoKeys: KeyState := KeyState(false, false, false, false)

  /** The `KeyboardEvent.code` of each movement key. */
  const MovementCodes: set<string> := {"KeyW", "KeyS", "KeyA", "KeyD"}

  /** What one call `onKeyChange(code, isPressed)` does to the key state:
      the one field the code names becomes `isPressed`, the other three
      keep their value, and any other code changes nothing. */
  function KeyChange(k: KeyState, code: string, isPressed: bool): (r: KeyState)
    ensures r.forward == (if code == "KeyW" then isPressed else k.forward)
    ensures r.backward == (if code == "KeyS" then isPressed else k.backward)
    ensures r.left == (if code == "KeyA" then isPressed else k.left)
    ensures r.right == (if code == "KeyD" then isPressed else k.right)
    ensures code !in MovementCodes ==> r == k
  {
    match code
    case "KeyW" => k.(forward := isPressed)
    case "KeyS" => k.(backward := isPressed)
    case "KeyA" => k.(left := isPressed)
    case "KeyD" => k.(right := isPressed)
    case _ => k
  }

  /** A keyboard event as the listeners pass it on: `code` and whether the
      key went down. */
  datatype CodeEvent = CodeEvent(code: string, isPressed: bool)

  function ReplayKeys(k: KeyState, events: seq<CodeEvent>): KeyState
    decreases |events|
  {
    if events == [] then k
    else ReplayKeys(KeyChange(k, events[0].code, events[0].isPressed), events[1..])
  }

  /** Whether the last event with this code pressed the key; `held` when no
      event has the code. */
  function LastPress(events: seq<CodeEvent>, code: string, held: bool): bool
    decreases |events|
  {
    if events == [] then held
    else if events[|events| - 1].code == code then events[|events| - 1].isPressed
    else LastPress(events[..|events| - 1], code, held)
  }

  lemma {:induction false} ReplayKeysSnoc(k: KeyState, events: seq<CodeEvent>, e: CodeEvent)
    ensures ReplayKeys(k, events + [e]) == KeyChange(ReplayKeys(k, events), e.code, e.isPressed)
    decreases |events|
  {
    if events == [] {
      assert [] + [e] == [e];
    } else {
      assert (events + [e])[1..] == events[1..] + [e];
      ReplayKeysSnoc(KeyChange(k, events[0].code, events[0].isPressed), events[1..], e);
    }
  }

  /** After any sequence of key events, each movement key counts as held
      exactly when the last event with its code was a key-down; the events of
      other codes in between do not matter. */
  lemma {:induction false} HeldIsLastPress(k: KeyState, events: seq<CodeEvent>)
    ensures ReplayKeys(k, events).forward == LastPress(events, "KeyW", k.forward)
    ensures ReplayKeys(k, events).backward == LastPress(events, "KeyS", k.backward)
    ensures ReplayKeys(k, events).left == LastPress(events, "KeyA", k.left)
    ensures ReplayKeys(k, events).right == LastPress(events, "KeyD", k.right)
    decreases |events|
  {
    if events != [] {
      var prefix := events[..|events| - 1];
      assert events == prefix + [events[|events| - 1]];
      ReplayKeysSnoc(k, prefix, events[|events| - 1]);
      HeldIsLastPress(k, prefix);
    }
  }

  function Bit(b: bool): int { if b then 1 else 0 }

  /** The planar movement intent in the player's own frame: x to the right,
      z backward. */
  datatype Intent = Intent(moveX: int, moveZ: int)

  /** The intent built from the key state: z is [backward] - [forward] and x
      is [right] - [left]. Each component is -1, 0 or 1, and a pair of
      opposite keys cancels to 0. */
  function MoveIntent(k: KeyState): (r: Intent)
    ensures -1 <= r.moveX <= 1 && -1 <= r.moveZ <= 1
    ensures r.moveZ == 0 <==> k.forward == k.backward
    ensures r.moveX == 0 <==> k.left == k.right
    ensures r.moveZ == -1 <==> k.forward && !k.backward
    ensures r.moveX == 1 <==> k.right && !k.left
  {
    Intent(Bit(k.right) - Bit(k.left), Bit(k.backward) - Bit(k.forward))
  }

  function Direction(i: Intent): Vec3 {
    Vec3(i.moveX as real, 0.0, i.moveZ as real)
  }

  /** The horizontal velocity one frame writes: the intent, normalised,
      turned by the yaw and scaled by the speed. Without intent it is zero
      whatever the yaw (the normalisation is guarded); at yaw 0 a single
      direction gives the full speed along that axis. */
  function Velocity(k: KeyState, yaw: real, m: MathLib): (r: Vec3)
    requires Lawful(m)
    ensures r.y == 0.0
    ensures MoveIntent(k) == Intent(0, 0) ==> r == Zero
    ensures yaw == 0.0 && (MoveIntent(k).moveX == 0 || MoveIntent(k).moveZ == 0) ==>
      r == Vec3(MoveIntent(k).moveX as real * Speed, 0.0, MoveIntent(k).moveZ as real * Speed)
  {
    var i := MoveIntent(k);
    VelocityCases(i, yaw, m);
    Walk(i, yaw, m)
  }

  /** The velocity for an intent: normalise, turn by the yaw, scale. The
      result never has a vertical part, and no intent gives no velocity at
      any yaw, because the normalisation leaves the zero vector alone. */
  function Walk(i: Intent, yaw: real, m: MathLib): (r: Vec3)
    requires Lawful(m)
    ensures r.y == 0.0
    ensures i == Intent(0, 0) ==> r == Zero
  {
    var d := Direction(i);
    var n := Normalize(d, m);
    var t := RotateY(n, m.cos(yaw), m.sin(yaw));
    assert i == Intent(0, 0) ==> d == Zero;
    Scale(t, Speed)
  }

  /** At yaw 0 an axis-aligned intent with components in {-1, 0, 1} walks
      at full speed along its own axis. */
  lemma VelocityCases(i: Intent, yaw: real, m: MathLib)
    requires Lawful(m)
    requires -1 <= i.moveX <= 1 && -1 <= i.moveZ <= 1
    ensures yaw == 0.0 && (i.moveX == 0 || i.moveZ == 0) ==>
      Walk(i, yaw, m) == Vec3(i.moveX as real * Speed, 0.0, i.moveZ as real * Speed)
  {
    var d := Direction(i);
    var n := Normalize(d, m);
    var t := RotateY(n, m.cos(yaw), m.sin(yaw));
    assert Walk(i, yaw, m) == Scale(t, Speed);
    if i == Intent(0, 0) {
      assert d == Zero;
    } else if yaw == 0.0 && (i.moveX == 0 || i.moveZ == 0) {
      AxisIsUnit(i);
      assert n == d;
      assert t == d;
    }
  }

  lemma AxisIsUnit(i: Intent)
    requires -1 <= i.moveX <= 1 && -1 <= i.moveZ <= 1
    requires i != Intent(0, 0) && (i.moveX == 0 || i.moveZ == 0)
    ensures LengthSq(Direction(i)) == 1.0
  {
    if i.moveX == 0 {
      if i.moveZ == 1 {
        assert Direction(i) == Vec3(0.0, 0.0, 1.0);
      } else {
        assert Direction(i) == Vec3(0.0, 0.0, -1.0);
      }
    } else if i.moveX == 1 {
      assert Direction(i) == Vec3(1.0, 0.0, 0.0);
    } else {
      assert Direction(i) == Vec3(-1.0, 0.0, 0.0);
    }
  }

  /** A diagonal intent at yaw 0 moves along the diagonal: both components
      are non-zero, have the signs of the intent and the same magnitude. */
  lemma DiagonalAtYawZero(k: KeyState, m: MathLib)
    requires Lawful(m)
    requires MoveIntent(k).moveX != 0 && MoveIntent(k).moveZ != 0
    ensures Abs(Velocity(k, 0.0, m).x) == Abs(Velocity(k, 0.0, m).z)
    ensures Velocity(k, 0.0, m).x > 0.0 <==> MoveIntent(k).moveX > 0
    ensures Velocity(k, 0.0, m).z > 0.0 <==> MoveIntent(k).moveZ > 0
    ensures Velocity(k, 0.0, m).x < 0.0 <==> MoveIntent(k).moveX < 0
    ensures Velocity(k, 0.0, m).z < 0.0 <==> MoveIntent(k).moveZ < 0
  {
    var i := MoveIntent(k);
    var d := Direction(i);
    assert LengthSq(d) == 2.0;
    var len := m.sqrt(2.0);
    assert len > 0.0;
    var q := 1.0 / len;
    assert q > 0.0;
    assert Normalize(d, m) == Scale(d, q);
  }

  /** With yaw 0 and only the forward key held, one frame sets the
      horizontal velocity to 5 along -z. */
  lemma ForwardAtYawZero(m: MathLib)
    requires Lawful(m)
    ensures Velocity(KeyState(true, false, false, false), 0.0, m) == Vec3(0.0, 0.0, -Speed)
  {
  }

  /** Pressing and then releasing the forward key leaves no forward intent
      behind: only the backward key can still move the player along z. */
  lemma PressReleaseForward(k: KeyState)
    ensures MoveIntent(KeyChange(KeyChange(k, "KeyW", true), "KeyW", false)).moveZ == Bit(k.backward)
  {
  }

  /** A mouse movement as the listener sees it: whether the pointer is locked
      to the page body, and the horizontal movement in pixels. */
  datatype MouseMove = MouseMove(lockedToBody: bool, movementX: real)

  /** The yaw after the mouse handler has run on each movement in turn. */
  function Turn(yaw: real, moves: seq<MouseMove>): real
    decreases |moves|
  {
    if moves == [] then yaw
    else
      var yaw' := if moves[0].lockedToBody then yaw - moves[0].movementX * MouseSensitivity else yaw;
      Turn(yaw', moves[1..])
  }

  /** The horizontal movement made while the pointer was locked. */
  function LockedTravel(moves: seq<MouseMove>): real
    decreases |moves|
  {
    if moves == [] then 0.0
    else (if moves[0].lockedToBody then moves[0].movementX else 0.0) + LockedTravel(moves[1..])
  }

  /** The yaw moves by exactly -0.002 per pixel moved under pointer lock;
      movement without the lock does not turn the player. */
  lemma {:induction false} TurnIsLockedTravel(yaw: real, moves: seq<MouseMove>)
    ensures Turn(yaw, moves) == yaw - LockedTravel(moves) * MouseSensitivity
    decreases |moves|
  {
    if moves != [] {
      var yaw' := if moves[0].lockedToBody then yaw - moves[0].movementX * MouseSensitivity else yaw;
      TurnIsLockedTravel(yaw', moves[1..]);
    }
  }

  /** The player: its key state and yaw, its physics body and its mesh. */
  class Player {
    var input: KeyState
    var rotationY: real
    const body: Body
    const mesh: Object3D

    /** `new Player(...)`: `initPhysics` creates the 70 kg body at (0, 5, 0)
        and the mesh, the key state and the yaw start at rest. */
    constructor ()
      ensures input == NoKeys && rotationY == 0.0
      ensures fresh(body) && fresh(mesh)
      ensures body.mass == PlayerMass && body.position == SpawnPosition && body.velocity == Zero
    {
      input := NoKeys;
      rotationY := 0.0;
      body := new Body(PlayerMass, SpawnPosition);
      mesh := new Object3D(Zero);
    }

    /** `onKeyChange(code, isPressed)`. */
    method OnKeyChange(code: string, isPressed: bool)
      modifies this`input
      ensures input == KeyChange(old(input), code, isPressed)
    {
      if code == "KeyW" { input := input.(forward := isPressed); }
      if code == "KeyS" { input := input.(backward := isPressed); }
      if code == "KeyA" { input := input.(left := isPressed); }
      if code == "KeyD" { input := input.(right := isPressed); }
    }

    /** The mousemove listener: turns only while the pointer is locked to
        the page body. */
    method OnMouseMove(lockedToBody: bool, movementX: real)
      modifies this`rotationY
      ensures rotationY == Turn(old(rotationY), [MouseMove(lockedToBody, movementX)])
    {
      if lockedToBody {
        rotationY := rotationY - movementX * MouseSensitivity;
      }
    }

    /** The movement intent, built as `update` builds it. */
    method BuildIntent() returns (moveX: int, moveZ: int)
      ensures Intent(moveX, moveZ) == MoveIntent(input)
    {
      moveX, moveZ := 0, 0;
      if input.forward { moveZ := moveZ - 1; }
      if input.backward { moveZ := moveZ + 1; }
      if input.left { moveX := moveX - 1; }
      if input.right { moveX := moveX + 1; }
    }

    /** `update()`, steps 1 to 3: write the horizontal velocity, leave the
        vertical velocity to gravity and collisions, then move the mesh to
        the body and give it the player's yaw. */
    method Update(m: MathLib)
      requires Lawful(m)
      modifies body`velocity, mesh`position, mesh`rotation
      ensures body.velocity.x == Velocity(input, rotationY, m).x
      ensures body.velocity.z == Velocity(input, rotationY, m).z
      ensures body.velocity.y == old(body.velocity.y)
      ensures mesh.position == body.position
      ensures mesh.rotation == old(mesh.rotation).(y := rotationY)
    {
      var moveX, moveZ := BuildIntent();
      var vector := Normalize(Vec3(moveX as real, 0.0, moveZ as real), m);
      vector := RotateY(vector, m.cos(rotationY), m.sin(rotationY));

      body.velocity := body.velocity.(x := vector.x * Speed);
      body.velocity := body.velocity.(z := vector.z * Speed);

      mesh.position := body.position;
      mesh.rotation := mesh.rotation.(y := rotationY);
    }
  }
}
