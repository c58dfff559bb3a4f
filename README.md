# Input-to-control logic of a three.js / cannon-es game prototype

This project is a Dafny model of the parts of the game that turn keyboard and
mouse input into per-frame control values. Each of the three game entities
keeps a little state in its event handlers and reads it once per frame:

- **The car** (`Vehicle.js`), in module `VehicleControl` (`vehicle.dfy`).
  - The key handler `updateKeys` keeps three control values: engine force, steering and brake.
  - `update` dispatches them to the four wheel slots of the raycast vehicle: rear-wheel drive, front-wheel steering and front-wheel braking.
  - `update` then copies the chassis pose and the four wheel world transforms into the meshes.
  - The three per-wheel settings are arrays of length 4 that `update` writes in place. The wheel meshes are the sequence that `addWheel` pushes onto.
- **The walking player** (`Player.js`), in module `PlayerControl` (`player.dfy`).
  - `onKeyChange` keeps four booleans.
  - The mouse handler accumulates a yaw, but only under pointer lock.
  - `update` builds the integer intent (moveX, moveZ), normalises it, turns it by the yaw and writes it, times the speed 5, into the horizontal velocity only.
  - `update` then moves the mesh to the body and gives the mesh the player's yaw.
- **The orbit camera** (`Camera.js`), in module `CameraRig` (`camera.dfy`).
  - The mouse handler moves the yaw `theta` and the pitch `phi` under pointer lock, and clamps the pitch to [-π/3, π/3].
  - `update` does nothing without a target. Otherwise it moves the camera a tenth of the way toward the target plus the offset turned by the two angles.

Module `Scene` (`scene.dfy`) holds the shared vocabulary:
- three.js vectors, as exact reals;
- scene nodes and cannon-es bodies, as classes whose fields the controllers assign;
- the rotations about X and Y, as exact rotation matrices;
- `Vector3.normalize`, including its guard against the zero vector.

`Math.sqrt`, `Math.cos` and `Math.sin` are not computed. They arrive as the record `MathLib`, and `Lawful` states the only facts the proofs use. Each of those facts holds exactly for the IEEE functions too:
- √0 = 0 and √1 = 1;
- the square root of a positive number is positive;
- cos 0 = 1 and sin 0 = 0.

Each handler is modelled twice:
- a method on the class, which changes the fields as the JavaScript does;
- a function, which the method's postcondition names and which the lemmas fold over whole sequences of events.

## Model

| member | source | states |
|---|---|---|
| Scene.RotateY | Player.js:77 | Turning about the vertical axis keeps the height and maps zero to zero. At angle 0 (cos 1, sin 0) it changes nothing. |
| Scene.RotateX | Camera.js:36-40 | Turning about the lateral axis (the pitch part of the 'YXZ' Euler rotation) keeps x and maps zero to zero. At angle 0 it changes nothing. |
| Scene.Lerp | Camera.js:47 | `Vector3.lerp` leaves the part 1 - alpha of the gap on every axis. Alpha 0 stays put, alpha 1 arrives, and a point already at the target stays there. |
| Scene.Normalize | Player.js:76 | The zero vector stays zero instead of being divided by its zero length. A unit vector is returned unchanged. |
| VehicleControl.KeyUpdate | Vehicle.js:74-82 | 'w'/'s' set only the engine force, to ±value·2000. 'a'/'d' set only the steering, to ±value·0.5. Space sets only the brake, to value·100. Every other key leaves all three controls as they were. |
| VehicleControl.KeyUpdateInRange | Vehicle.js:75-81 | With value 0 or 1, one key event keeps forward in {-2000, 0, 2000}, steering in {-0.5, 0, 0.5} and brake in {0, 100}. |
| VehicleControl.ReplayInRange | Vehicle.js:69-81 | Starting from the initial zeros, any sequence of key-downs (1) and key-ups (0) keeps every control in its three- or two-value set. |
| VehicleControl.ReplaySnoc | Vehicle.js:70-71 | Handling one more event after a sequence equals handling that event on the result of the sequence. |
| VehicleControl.KeyUpClearsSlot | Vehicle.js:77-80 | The last event wins on a shared slot. After any history, releasing 'w' or 's' sets the engine force to 0, and releasing 'a' or 'd' sets the steering to 0, even while the opposite key is still held. |
| VehicleControl.ReplayKeepsUnnamed | Vehicle.js:74-82 | A control that no key in the event sequence names keeps its value through the whole sequence. |
| VehicleControl.OppositeKeyRelease | Vehicle.js:77-78 | Holding 's', then pressing and releasing 'w', leaves an engine force of 0. |
| VehicleControl.Vehicle.constructor | Vehicle.js:5-69 | The chassis body has mass 1500 at (0, 2, 0). Exactly four wheels are registered at (∓0.9, 0, ±1.5) in the order FL, FR, RL, RR, each with its own fresh mesh. All per-wheel settings start at 0, and so do the inputs. |
| VehicleControl.Vehicle.AddWheel | Vehicle.js:59-66 | Appends exactly one connection point and exactly one fresh mesh. The earlier meshes are kept. |
| VehicleControl.Vehicle.UpdateKeys | Vehicle.js:74-82 | The handler's sequential ifs give exactly `KeyUpdate` of the old inputs. The wheel invariant is kept. |
| VehicleControl.Vehicle.Update | Vehicle.js:84-106 | Engine force is [0, 0, f, f], steering [s, s, 0, 0] and brake [b, b, 0, 0]. The inputs are unchanged. The chassis mesh takes the body's position and quaternion. Wheel mesh i takes wheel transform i, for every i < 4. The model's separate Euler `rotation` field is not written (see Left out for three.js, where it is). |
| VehicleControl.ForwardThenUpdate | Vehicle.js:74-94 | On a new car, pressing 'w' and running one frame drives only the rear wheels, with 2000, and leaves the steering at 0. |
| PlayerControl.KeyChange | Player.js:58-63 | KeyW/KeyS/KeyA/KeyD set exactly their own field to `isPressed`, and the other three fields keep their values. Any other code changes nothing. |
| PlayerControl.ReplayKeysSnoc | Player.js:42-43 | Handling one more key event after a sequence equals handling it on the result of the sequence. |
| PlayerControl.HeldIsLastPress | Player.js:42-63 | After any sequence of key events, each movement key is held exactly when the last event with its code was a key-down. If no event has its code, it keeps its earlier state. |
| PlayerControl.MoveIntent | Player.js:67-73 | Both components lie in {-1, 0, 1}. moveZ is 0 iff forward and backward agree. moveX is 0 iff left and right agree. moveZ is -1 iff only forward is held. moveX is 1 iff only right is held. |
| PlayerControl.Velocity | Player.js:75-81 | The written velocity has no vertical part. A zero intent gives exactly (0, 0, 0) at every yaw. At yaw 0, an axis-aligned intent gives full speed 5 along that axis. |
| PlayerControl.Walk | Player.js:76-81 | Normalise, turn by the yaw, scale by 5. The result never has a vertical part, and a zero intent gives exactly the zero vector at every yaw, because the normalisation is guarded. |
| PlayerControl.VelocityCases | Player.js:76-81 | At yaw 0, an axis-aligned intent with components in {-1, 0, 1} walks at full speed 5 along its own axis. |
| PlayerControl.AxisIsUnit | Player.js:76 | A non-zero axis-aligned intent already has length 1, so normalising it changes nothing. |
| PlayerControl.DiagonalAtYawZero | Player.js:70-81 | At yaw 0, a diagonal intent moves along the diagonal: both velocity components are equally large and non-zero, and each is positive exactly when its intent component is positive and negative exactly when it is negative. |
| PlayerControl.ForwardAtYawZero | Player.js:65-81 | At yaw 0 with only the forward key held, the velocity is (0, 0, -5). |
| PlayerControl.PressReleaseForward | Player.js:58-73 | Pressing and then releasing KeyW leaves the z intent equal to the backward key alone. |
| PlayerControl.TurnIsLockedTravel | Player.js:50-55 | After any sequence of mouse moves, the yaw equals the starting yaw minus 0.002 times the horizontal movement made while the pointer was locked to the body. Moves without the lock do not turn the player. |
| PlayerControl.Player.constructor | Player.js:10-38 | No key is held and the yaw is 0. The fresh body has mass 70, position (0, 5, 0) and no velocity. |
| PlayerControl.Player.OnKeyChange | Player.js:58-63 | The sequential ifs give exactly `KeyChange` of the old key state. |
| PlayerControl.Player.OnMouseMove | Player.js:50-55 | The yaw moves by -0.002·movementX when the pointer is locked to the body, and is unchanged otherwise. |
| PlayerControl.Player.BuildIntent | Player.js:67-73 | The successive `-=`/`+=` produce exactly `MoveIntent` of the key state. |
| PlayerControl.Player.Update | Player.js:65-85 | The x and z velocity become those of `Velocity`, and the vertical velocity is untouched. The mesh position equals the body position, and the mesh yaw equals the player's yaw. |
| CameraRig.Clamp | Camera.js:27 | The result lies in [-π/3, π/3]. An in-range pitch is kept. A pitch beyond either bound becomes that bound. |
| CameraRig.ClampIdempotent | Camera.js:27 | Clamping twice is clamping once. |
| CameraRig.Look | Camera.js:20-29 | Without pointer lock, nothing changes. Under lock, theta moves by exactly -0.002·movementX with no bound. The pitch ends in range for any delta. A pitch step that stays in range is taken exactly, and one beyond a bound ends exactly on that bound. |
| CameraRig.PitchStaysInRange | Camera.js:13-27 | From an in-range pitch (the initial 0 is one), every sequence of mouse moves keeps phi in [-π/3, π/3]. |
| CameraRig.YawIsLockedTravel | Camera.js:14-23 | After any sequence of mouse moves, theta equals its start minus 0.002 times the horizontal movement made under lock. It is never clamped. |
| CameraRig.OrbitOffset | Camera.js:36-40 | The Euler angles (phi, theta, 0) in 'YXZ' order turn the offset by pitch about X first, then yaw about Y. The height of the result depends on the pitch alone (y·cos φ - z·sin φ), which an 'XYZ' order would not give. With yaw 0 it is the pitch turn alone, and with pitch 0 it is the yaw turn alone. |
| CameraRig.Desired | Camera.js:36-43 | The point the camera heads for. With both angles 0 it is the target position plus the plain offset. |
| CameraRig.Follow | Camera.js:47 | One update toward a fixed point leaves 0.9 of the gap, on every axis. A camera already at the point stays there. |
| CameraRig.FollowN | Camera.js:43-47 | n updates toward a fixed point: zero updates leave the camera where it is, and a camera at the point stays there. |
| CameraRig.FollowNGap | Camera.js:43-47 | After n updates toward a fixed point, the gap on each axis is the initial gap shrunk n times by 0.9. |
| CameraRig.ShrinkMonotone | Camera.js:47 | The remaining distance never grows, and it strictly shrinks at each update unless it is already 0. It keeps its sign, so the camera never overshoots. |
| CameraRig.ShrinkAdd | Camera.js:47 | n + k updates are n updates followed by k updates. |
| CameraRig.TenthAfter22 | Camera.js:47 | Every 22 updates toward a fixed point cut the remaining distance on an axis to at most a tenth, whichever side of the point the camera is on. |
| CameraRig.CameraManager.constructor | Camera.js:4-17 | The offset is (0, 1.5, 4), the look-at offset is (0, 1.5, 0), and both angles are 0, so the pitch starts in range. |
| CameraRig.CameraManager.OnMouseMove | Camera.js:20-29 | The angles become `Look` of the old angles. The pitch stays within the bound after every event. |
| CameraRig.CameraManager.Update | Camera.js:32-47 | With no target the camera does not move. Otherwise the camera position becomes the lerp, with factor 0.1, toward the target plus the offset turned by (phi, theta) in 'YXZ' order. The angles, offsets and target are unchanged. `deltaTime` plays no part. |

## Left out

- Floating point. Every number is an exact real.
  - 0.002 and 0.1 are their decimal values. The pitch bound is the decimal that `Math.PI / 3` prints as, 1.0471975511965976.
  - `-value * force` with value 0 gives -0 in JavaScript and 0 here.
  - Accumulated rounding of the yaw and of the lerp is not modelled.
- `Math.sqrt`, `Math.cos` and `Math.sin` are parameters of type `MathLib`. Only the special values listed above are assumed about them.
- Scene.Normalize: states nothing about the length of the result for a non-zero, non-unit vector. With square root abstract, √2 cannot be computed exactly.
- Scene.RotateY: does not state that a turn preserves length. That would need cos² + sin² = 1, which the floating-point functions do not satisfy exactly.
- Scene.RotateX: the same as Scene.RotateY.
- PlayerControl.Velocity: states the exact velocity only for a zero intent, or at yaw 0 for an axis-aligned intent.
  - For a diagonal intent, only direction and equal magnitude are proved (PlayerControl.DiagonalAtYawZero).
  - The speed 5 of a diagonal, and any result at a non-zero yaw, are not stated.
- The rotation is modelled as exact matrices, not as three.js computes it.
  - `applyAxisAngle` and `setFromEuler`/`applyQuaternion` compute it through half-angle quaternions.
  - The model applies the rotation matrices of the same angles (Ry(θ)·Rx(φ) for the 'YXZ' Euler angles), which are equal in exact arithmetic.
- `camera.lookAt` (Camera.js:49-54) is not modelled, so the camera's orientation is not either. The look-at offset is kept only as a constant.
- The rigid chase camera inside `Player.update` (Player.js:87-96) and `cameraDistance` (Player.js:14) are not modelled. Their only effect is on the camera.
- The unused `this.rotation` Euler of the camera manager (Camera.js:12) is not modelled.
- The raycast vehicle itself is not modelled:
  - the shared wheel options (Vehicle.js:36-47);
  - suspension;
  - `addToWorld`;
  - `updateWheelTransform`.
  The per-frame wheel world transforms are therefore a parameter of `VehicleControl.Vehicle.Update`.
- In three.js, `rotation` and `quaternion` of a scene node are coupled. Assigning `rotation.y` (Player.js:85) also rewrites `quaternion`, and `quaternion.copy` (Vehicle.js:98, 104) also rewrites `rotation`. The model's scene node keeps the two fields independent.
- VehicleControl.Vehicle.Update: its clauses that the chassis and wheel meshes keep their `rotation` hold only for the model's independent field. In three.js the copied quaternion also rewrites the Euler `rotation`.
- The physics step and collisions are not modelled. World.js and Physics.js are not part of this model.
  - Between frames, the step moves bodies, so the model states a body's position only at construction.
- Shapes, geometries, materials and `scene.add` calls are not modelled. Construction state is stated as the fields it sets, with the meshes at the origin.
- DOM events are not modelled:
  - listener registration;
  - `requestPointerLock` on click (Player.js:46-48);
  - the key-to-value mapping of the two listeners (Vehicle.js:70-71, Player.js:42-43). This becomes the `KeyDown`/`KeyUp` values and the `isPressed` flag.
- Pointer lock is a boolean argument to each handler:
  - the player turns only when the lock is on the page body (Player.js:51);
  - the camera turns whenever any element holds the lock (Camera.js:21).
- `Player.update` (Player.js:65-97) has no guard for a missing body. The constructor always builds the body, so the model has no such case.
- The frame loop that calls the three `update` methods is not modelled. Each update is one method call, and repeated camera updates toward a fixed point are `CameraRig.FollowN`.
