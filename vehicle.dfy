/** The car of Vehicle.js: the keyboard handler that keeps the three control
    values, the per-frame dispatch of those values to the four wheel slots of
    the raycast vehicle, and the copy of the physics state into the meshes. */
module VehicleControl {
  import opened Scene

  /** `force`, `steerVal` and the brake factor of `updateKeys`. */
  const EngineForce: real := 2000.0
  const SteerAngle: real := 0.5
  const BrakeForce: real := 100.0

  const ChassisMass: real := 1500.0
  const ChassisStart: Vec3 := Vec3(0.0, 2.0, 0.0)

  /** Where the four wheels meet the chassis, in slot order: front left,
      front right, rear left, rear right. */
  const WheelOffset: real := 0.9
  const WheelLayout: seq<Vec3> := [
    Vec3(-WheelOffset, 0.0, 1.5), Vec3(WheelOffset, 0.0, 1.5),
    Vec3(-WheelOffset, 0.0, -1.5), Vec3(WheelOffset, 0.0, -1.5)
  ]

  /** `this.inputs`: the engine force, brake force and steering angle the
      keyboard currently asks for. */
  datatype Inputs = Inputs(forward: real, brake: real, steering: real)

  const NoInputs: Inputs := Inputs(0.0, 0.0, 0.0)

  /** The keys that drive each control value. */
  const ForwardKeys: set<string> := {"w", "s"}
  const SteeringKeys: set<string> := {"a", "d"}
  const BrakeKeys: set<string> := {" "}

  /** What one call `updateKeys(key, value)` does to the inputs. */
  function KeyUpdate(inp: Inputs, key: string, value: real): (r: Inputs)
    ensures key !in ForwardKeys ==> r.forward == inp.forward
    ensures key !in SteeringKeys ==> r.steering == inp.steering
    ensures key !in BrakeKeys ==> r.brake == inp.brake
    ensures key in ForwardKeys ==> r.forward == (if key == "w" then value else -value) * EngineForce
    ensures key in SteeringKeys ==> r.steering == (if key == "a" then value else -value) * SteerAngle
    ensures key in BrakeKeys ==> r.brake == value * BrakeForce
  {
    if key == "w" then inp.(forward := value * EngineForce)
    else if key == "s" then inp.(forward := -value * EngineForce)
    else if key == "a" then inp.(steering := value * SteerAngle)
    else if key == "d" then inp.(steering := -value * SteerAngle)
    else if key == " " then inp.(brake := value * BrakeForce)
    else inp
  }

  /** A keyboard event as the listeners pass it on: key-down gives the value
      1 and key-up the value 0. */
  datatype KeyEvent = KeyEvent(key: string, value: real)

  function KeyDown(key: string): KeyEvent { KeyEvent(key, 1.0) }
  function KeyUp(key: string): KeyEvent { KeyEvent(key, 0.0) }

  /** The inputs after the handler has run on each event in turn. */
  function Replay(inp: Inputs, events: seq<KeyEvent>): Inputs
    decreases |events|
  {
    if events == [] then inp
    else Replay(KeyUpdate(inp, events[0].key, events[0].value), events[1..])
  }

  /** The only values the three controls take when every event is a key-down
      or a key-up. */
  predicate InRange(inp: Inputs) {
    inp.forward in {-EngineForce, 0.0, EngineForce} &&
    inp.steering in {-SteerAngle, 0.0, SteerAngle} &&
    inp.brake in {0.0, BrakeForce}
  }

  predicate FromListeners(events: seq<KeyEvent>) {
    forall i :: 0 <= i < |events| ==> events[i].value == 0.0 || events[i].value == 1.0
  }

  lemma KeyUpdateInRange(inp: Inputs, key: string, value: real)
    requires InRange(inp) && (value == 0.0 || value == 1.0)
    ensures InRange(KeyUpdate(inp, key, value))
  {
  }

  /** Starting from the initial all-zero inputs, or from any in-range inputs,
      no sequence of key-downs and key-ups takes a control out of its set. */
  lemma {:induction false} ReplayInRange(inp: Inputs, events: seq<KeyEvent>)
    requires InRange(inp) && FromListeners(events)
    ensures InRange(Replay(inp, events))
    decreases |events|
  {
    if events != [] {
      KeyUpdateInRange(inp, events[0].key, events[0].value);
      ReplayInRange(KeyUpdate(inp, events[0].key, events[0].value), events[1..]);
    }
  }

  /** Handling one more event after a sequence is handling that event on the
      result of the sequence. */
  lemma {:induction false} ReplaySnoc(inp: Inputs, events: seq<KeyEvent>, e: KeyEvent)
    ensures Replay(inp, events + [e]) == KeyUpdate(Replay(inp, events), e.key, e.value)
    decreases |events|
  {
    if events == [] {
      assert [] + [e] == [e];
    } else {
      assert (events + [e])[1..] == events[1..] + [e];
      ReplaySnoc(KeyUpdate(inp, events[0].key, events[0].value), events[1..], e);
    }
  }

  /** 'w' and 's' write the same slot, so the last event wins: releasing
      either key sets the engine force to zero even while the other key is
      still held. 'a' and 'd' do the same to the steering. */
  lemma {:induction false} KeyUpClearsSlot(inp: Inputs, events: seq<KeyEvent>, key: string)
    requires key in ForwardKeys + SteeringKeys
    ensures key in ForwardKeys ==> Replay(inp, events + [KeyUp(key)]).forward == 0.0
    ensures key in SteeringKeys ==> Replay(inp, events + [KeyUp(key)]).steering == 0.0
  {
    ReplaySnoc(inp, events, KeyUp(key));
  }

  /** A control that no event in the sequence names keeps its value. */
  lemma {:induction false} ReplayKeepsUnnamed(inp: Inputs, events: seq<KeyEvent>)
    ensures (forall i :: 0 <= i < |events| ==> events[i].key !in ForwardKeys) ==>
      Replay(inp, events).forward == inp.forward
    ensures (forall i :: 0 <= i < |events| ==> events[i].key !in SteeringKeys) ==>
      Replay(inp, events).steering == inp.steering
    ensures (forall i :: 0 <= i < |events| ==> events[i].key !in BrakeKeys) ==>
      Replay(inp, events).brake == inp.brake
    decreases |events|
  {
    if events != [] {
      var next := KeyUpdate(inp, events[0].key, events[0].value);
      ReplayKeepsUnnamed(next, events[1..]);
      assert forall i :: 1 <= i < |events| ==> events[1..][i - 1] == events[i];
    }
  }

  /** Holding 's', then pressing and releasing 'w', leaves no engine force,
      although 's' is still down. */
  lemma OppositeKeyRelease()
    ensures Replay(NoInputs, [KeyDown("s"), KeyDown("w"), KeyUp("w")]).forward == 0.0
  {
  }

  /** The car: its chassis body and meshes, the wheel slots registered with
      the raycast vehicle and the per-wheel settings `applyEngineForce`,
      `setSteeringValue` and `setBrake` write. */
  class Vehicle {
    var inputs: Inputs
    const chassisBody: Body
    const chassisMesh: Object3D
    /** The connection points of the registered wheels, in slot order. */
    var wheelConnections: seq<Vec3>
    var wheelMeshes: seq<Object3D>
    const engineForce: array<real>
    const steeringValue: array<real>
    const brake: array<real>

    /** Four wheels in the fixed layout, each with its own mesh; the rear
        wheels never steer or brake and the front wheels are never driven. */
    ghost predicate Valid()
      reads this, engineForce, steeringValue, brake
    {
      wheelConnections == WheelLayout &&
      |wheelMeshes| == 4 &&
      (forall i, j :: 0 <= i < j < 4 ==> wheelMeshes[i] != wheelMeshes[j]) &&
      chassisMesh !in wheelMeshes &&
      engineForce.Length == 4 && steeringValue.Length == 4 && brake.Length == 4 &&
      engineForce != steeringValue && engineForce != brake && steeringValue != brake &&
      engineForce[0] == 0.0 && engineForce[1] == 0.0 &&
      steeringValue[2] == 0.0 && steeringValue[3] == 0.0 &&
      brake[2] == 0.0 && brake[3] == 0.0
    }

    /** `new Vehicle(...)`: `initPhysics` builds the chassis and registers
        the four wheels, `initControls` zeroes the inputs. */
    constructor ()
      ensures Valid()
      ensures fresh(engineForce) && fresh(steeringValue) && fresh(brake) && fresh(chassisMesh)
      ensures forall i :: 0 <= i < 4 ==> fresh(wheelMeshes[i])
      ensures inputs == NoInputs
      ensures chassisBody.mass == ChassisMass && chassisBody.position == ChassisStart
      ensures engineForce[..] == [0.0, 0.0, 0.0, 0.0]
      ensures steeringValue[..] == [0.0, 0.0, 0.0, 0.0]
      ensures brake[..] == [0.0, 0.0, 0.0, 0.0]
    {
      chassisBody := new Body(ChassisMass, ChassisStart);
      chassisMesh := new Object3D(Zero);
      engineForce := new real[4](_ => 0.0);
      steeringValue := new real[4](_ => 0.0);
      brake := new real[4](_ => 0.0);
      wheelConnections := [];
      wheelMeshes := [];
      inputs := NoInputs;
      new;
      AddWheel(WheelLayout[0]);
      AddWheel(WheelLayout[1]);
      AddWheel(WheelLayout[2]);
      AddWheel(WheelLayout[3]);
      assert wheelConnections == [] + [WheelLayout[0]] + [WheelLayout[1]] + [WheelLayout[2]] + [WheelLayout[3]];
    }

    /** `addWheel`: registers one wheel with the raycast vehicle and pushes
        exactly one new mesh for it. */
    method AddWheel(connection: Vec3)
      modifies this`wheelConnections, this`wheelMeshes
      ensures wheelConnections == old(wheelConnections) + [connection]
      ensures |wheelMeshes| == |old(wheelMeshes)| + 1
      ensures wheelMeshes[..|old(wheelMeshes)|] == old(wheelMeshes)
      ensures fresh(wheelMeshes[|old(wheelMeshes)|])
    {
      wheelConnections := wheelConnections + [connection];
      var wheelMesh := new Object3D(Zero);
      wheelMeshes := wheelMeshes + [wheelMesh];
    }

    /** `updateKeys(key, value)`: sets the one control the key names. */
    method UpdateKeys(key: string, value: real)
      requires Valid()
      modifies this`inputs
      ensures Valid()
      ensures inputs == KeyUpdate(old(inputs), key, value)
    {
      if key == "w" { inputs := inputs.(forward := value * EngineForce); }
      if key == "s" { inputs := inputs.(forward := -value * EngineForce); }
      if key == "a" { inputs := inputs.(steering := value * SteerAngle); }
      if key == "d" { inputs := inputs.(steering := -value * SteerAngle); }
      if key == " " { inputs := inputs.(brake := value * BrakeForce); }
    }

    /** `update()`: rear-wheel drive, front-wheel steering, front-wheel
        braking, then the chassis mesh takes the chassis body's pose and
        wheel mesh i takes the world transform of wheel i. The transforms
        are what the raycast vehicle computes for this frame, one per
        registered wheel. */
    method Update(wheelTransforms: seq<Transform>)
      requires Valid()
      requires |wheelTransforms| == |wheelConnections|
      modifies engineForce, steeringValue, brake, chassisMesh, wheelMeshes
      ensures Valid()
      ensures inputs == old(inputs)
      ensures engineForce[..] == [0.0, 0.0, inputs.forward, inputs.forward]
      ensures steeringValue[..] == [inputs.steering, inputs.steering, 0.0, 0.0]
      ensures brake[..] == [inputs.brake, inputs.brake, 0.0, 0.0]
      ensures chassisMesh.position == chassisBody.position
      ensures chassisMesh.quaternion == chassisBody.quaternion
      ensures chassisMesh.rotation == old(chassisMesh.rotation)
      ensures forall i :: 0 <= i < 4 ==>
        wheelMeshes[i].position == wheelTransforms[i].position &&
        wheelMeshes[i].quaternion == wheelTransforms[i].quaternion &&
        wheelMeshes[i].rotation == old(wheelMeshes[i].rotation)
    {
      engineForce[2] := inputs.forward;
      engineForce[3] := inputs.forward;

      steeringValue[0] := inputs.steering;
      steeringValue[1] := inputs.steering;

      brake[0] := inputs.brake;
      brake[1] := inputs.brake;

      chassisMesh.position := chassisBody.position;
      chassisMesh.quaternion := chassisBody.quaternion;

      var i := 0;
      while i < |wheelConnections|
        modifies wheelMeshes
        invariant 0 <= i <= 4
        invariant forall j :: 0 <= j < i ==>
          wheelMeshes[j].position == wheelTransforms[j].position &&
          wheelMeshes[j].quaternion == wheelTransforms[j].quaternion
        invariant forall j :: 0 <= j < 4 ==> wheelMeshes[j].rotation == old(wheelMeshes[j].rotation)
      {
        var t := wheelTransforms[i];
        wheelMeshes[i].position := t.position;
        wheelMeshes[i].quaternion := t.quaternion;
        i := i + 1;
      }
    }
  }

  /** Pressing 'w' and running one frame drives the two rear wheels with
      2000 and leaves the front wheels without engine force. */
  method ForwardThenUpdate(wheelTransforms: seq<Transform>) returns (v: Vehicle)
    requires |wheelTransforms| == 4
    ensures v.Valid() && fresh(v.engineForce)
    ensures v.engineForce[..] == [0.0, 0.0, EngineForce, EngineForce]
    ensures v.steeringValue[..] == [0.0, 0.0, 0.0, 0.0]
  {
    v := new Vehicle();
    v.UpdateKeys("w", 1.0);
    v.Update(wheelTransforms);
  }
}
