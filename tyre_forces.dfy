/**
 * The closed-form force rules of one tyre: the spring-axis snap, the suspension
 * spring and damper, the lateral grip impulse, the drive torque and the brake
 * impulse, each with its ground-contact gate, and the command sequences one axle
 * of tyres emits. Every force the tyre hands to the rigid body is a ForceCommand.
 */
module TyreForces {

  import opened Wrappers
  import opened RealArith
  import opened Scalars
  import opened Vectors
  import opened CarConfig
  import opened Engine

  const MaxSuspensionOffset: real := 1.0
  const MinSuspensionOffset: real := -1.0
  /** Spring axes whose Z component lies strictly between this and zero are flattened to Z = 0. */
  const SuspensionThreshold: real := -0.2

  /**
   * What a tyre knows when it applies a force: its identity, whether the last
   * physics step found ground, its tuning record, and the axes and velocity
   * components computed by its per-frame configuration.
   */
  datatype TyreContact = TyreContact(
    id: nat,
    onGround: bool,
    data: CarData,
    springDirection: Vec3,
    velocityAlongSpring: real,
    steeringDirection: Vec3,
    steeringVelocity: real,
    accelerationDirection: Vec3,
    forwardVelocity: real)

  // ---------------------------------------------------------------- spring axis

  /** The spring axis: the tyre's up axis, with a slightly negative Z component flattened to zero. */
  function SnapSpringZ(up: Vec3): (r: Vec3)
    ensures SuspensionThreshold < up.z < 0.0 ==> r == up.(z := 0.0)
    ensures !(SuspensionThreshold < up.z < 0.0) ==> r == up
    ensures r.x == up.x && r.y == up.y
  {
    if up.z < 0.0 && up.z > SuspensionThreshold then up.(z := 0.0) else up
  }

  /** After the snap no spring axis has its Z component inside the band, so snapping twice changes nothing. */
  lemma SnapSpringZLeavesNoBand(up: Vec3)
    ensures !(SuspensionThreshold < SnapSpringZ(up).z < 0.0)
    ensures SnapSpringZ(SnapSpringZ(up)) == SnapSpringZ(up)
  {
  }

  // ---------------------------------------------------------------- suspension

  /** How far the spring is compressed (positive) or stretched (negative), limited to one unit either way. */
  function SuspensionOffset(restDistance: real, hitDistance: real): (r: real)
    ensures MinSuspensionOffset <= r <= MaxSuspensionOffset
    ensures MinSuspensionOffset <= restDistance - hitDistance <= MaxSuspensionOffset ==> r == restDistance - hitDistance
    ensures r > 0.0 <==> hitDistance < restDistance
    ensures r == 0.0 <==> hitDistance == restDistance
  {
    Clamp(restDistance - hitDistance, MinSuspensionOffset, MaxSuspensionOffset)
  }

  /** A hit that the raycast can report lies within the rest distance, so the spring is never stretched. */
  lemma RaycastHitCompressesOnly(restDistance: real, hitDistance: real)
    requires 0.0 <= hitDistance <= restDistance
    ensures 0.0 <= SuspensionOffset(restDistance, hitDistance) <= restDistance
  {
  }

  /** Spring force along the spring axis: offset times stiffness, minus spring-axis velocity times damping. */
  function SuspensionForceMagnitude(data: CarData, hitDistance: real, velocityAlongSpring: real): real
  {
    SuspensionOffset(data.suspensionRestDistance, hitDistance) * data.springStrength
      - velocityAlongSpring * data.springDamper
  }

  /** A nearer ground (a shorter hit) never weakens the spring force when the stiffness is not negative. */
  lemma SuspensionStiffens(data: CarData, nearHit: real, farHit: real, velocityAlongSpring: real)
    requires data.springStrength >= 0.0 && nearHit <= farHit
    ensures SuspensionForceMagnitude(data, farHit, velocityAlongSpring)
            <= SuspensionForceMagnitude(data, nearHit, velocityAlongSpring)
  {
    var far := SuspensionOffset(data.suspensionRestDistance, farHit);
    var near := SuspensionOffset(data.suspensionRestDistance, nearHit);
    assert far <= near;
    calc {
      far * data.springStrength;
    == data.springStrength * far;
    <= { MulLeft(far, near, data.springStrength); }
      data.springStrength * near;
    == near * data.springStrength;
    }
  }

  /** The damper always works against the spring-axis velocity: moving apart faster lowers the force. */
  lemma SuspensionDamps(data: CarData, hitDistance: real, slow: real, fast: real)
    requires data.springDamper >= 0.0 && slow <= fast
    ensures SuspensionForceMagnitude(data, hitDistance, fast) <= SuspensionForceMagnitude(data, hitDistance, slow)
  {
    calc {
      slow * data.springDamper;
    == data.springDamper * slow;
    <= { MulLeft(slow, fast, data.springDamper); }
      data.springDamper * fast;
    == fast * data.springDamper;
    }
  }

  /**
   * The suspension call: nothing when the hit distance is (approximately) the rest
   * distance, otherwise one force of the spring magnitude along the spring axis.
   */
  function SuspensionEmission(c: TyreContact, hitDistance: real, approximately: (real, real) -> bool): (r: seq<ForceCommand>)
    ensures approximately(c.data.suspensionRestDistance, hitDistance) <==> r == []
    ensures r != [] ==> r == [ForceCommand(c.id, Scale(c.springDirection,
                                 SuspensionForceMagnitude(c.data, hitDistance, c.velocityAlongSpring)))]
  {
    if approximately(c.data.suspensionRestDistance, hitDistance) then []
    else [ForceCommand(c.id, Scale(c.springDirection, SuspensionForceMagnitude(c.data, hitDistance, c.velocityAlongSpring)))]
  }

  // ---------------------------------------------------------------- grip and brakes

  /** The acceleration that removes the share `factor` of a velocity component in one step of length `dt`. */
  function CancellingAcceleration(velocity: real, factor: real, dt: real): real
    requires dt > 0.0
  {
    (-velocity * factor) / dt
  }

  /** The force along `axis` that gives `mass` the cancelling acceleration: shared by lateral grip and braking. */
  function VelocityCancellingForce(axis: Vec3, velocity: real, factor: real, mass: real, dt: real): Vec3
    requires dt > 0.0
  {
    Scale(axis, mass * CancellingAcceleration(velocity, factor, dt))
  }

  /** Over one step the cancelling force's impulse (force times `dt`) is mass times the removed velocity. */
  lemma CancellingImpulse(velocity: real, factor: real, mass: real, dt: real)
    requires dt > 0.0
    ensures (mass * CancellingAcceleration(velocity, factor, dt)) * dt == mass * (-velocity * factor)
  {
    var change := -velocity * factor;
    assert CancellingAcceleration(velocity, factor, dt) * dt == change;
    calc {
      (mass * CancellingAcceleration(velocity, factor, dt)) * dt;
    == mass * (CancellingAcceleration(velocity, factor, dt) * dt);
    == mass * change;
    }
  }

  /**
   * With a non-negative mass and factor the cancelling force never points along the
   * velocity: its coefficient on the axis has the opposite sign (or is zero).
   */
  lemma CancellingOpposesVelocity(velocity: real, factor: real, mass: real, dt: real)
    requires dt > 0.0 && factor >= 0.0 && mass >= 0.0
    ensures velocity >= 0.0 ==> mass * CancellingAcceleration(velocity, factor, dt) <= 0.0
    ensures velocity <= 0.0 ==> mass * CancellingAcceleration(velocity, factor, dt) >= 0.0
  {
    var a := CancellingAcceleration(velocity, factor, dt);
    CancellingImpulse(velocity, factor, 1.0, dt);
    assert a * dt == -velocity * factor;
    if velocity >= 0.0 {
      MulNonNegative(velocity, factor);
      if a > 0.0 {
        MulPositive(a, dt);
        assert false;
      }
      MulLeft(a, 0.0, mass);
    }
    if velocity <= 0.0 {
      MulNonNegative(-velocity, factor);
      if a < 0.0 {
        MulPositive(-a, dt);
        assert false;
      }
      MulLeft(0.0, a, mass);
    }
  }

  /** The lateral grip force: cancels the share `TyreGripFactor` of the sideways velocity along the steering axis. */
  function LateralForce(c: TyreContact, dt: real): Vec3
    requires dt > 0.0
  {
    VelocityCancellingForce(c.steeringDirection, c.steeringVelocity, c.data.tyreGripFactor, c.data.tyreMass, dt)
  }

  /** The brake force: cancels the share `brakeFactor` of the forward velocity along the forward axis. */
  function BrakeForce(c: TyreContact, brakeFactor: real, dt: real): Vec3
    requires dt > 0.0
  {
    VelocityCancellingForce(c.accelerationDirection, c.forwardVelocity, brakeFactor, c.data.tyreMass, dt)
  }

  /**
   * One physics step of a tyre: no ground under the raycast means no force at all;
   * a hit means the suspension call followed by exactly one lateral grip force.
   */
  function PhysicsStepEmission(c: TyreContact, hit: Option<real>, dt: real, approximately: (real, real) -> bool)
    : (r: seq<ForceCommand>)
    requires dt > 0.0
    ensures hit.None? ==> r == []
    ensures hit.Some? ==> 1 <= |r| <= 2 && r[|r| - 1] == ForceCommand(c.id, LateralForce(c, dt))
    ensures hit.Some? ==> r[..|r| - 1] == SuspensionEmission(c, hit.value, approximately)
    ensures forall k :: 0 <= k < |r| ==> r[k].tyre == c.id
  {
    match hit
    case None => []
    case Some(distance) =>
      SuspensionEmission(c, distance, approximately) + [ForceCommand(c.id, LateralForce(c, dt))]
  }

  /** The brake call of one tyre: nothing while airborne, otherwise one brake force. */
  function BrakeEmission(c: TyreContact, brakeFactor: real, dt: real): (r: seq<ForceCommand>)
    requires dt > 0.0
    ensures r == [] <==> !c.onGround
    ensures c.onGround ==> r == [ForceCommand(c.id, BrakeForce(c, brakeFactor, dt))]
  {
    if !c.onGround then [] else [ForceCommand(c.id, BrakeForce(c, brakeFactor, dt))]
  }

  // ---------------------------------------------------------------- torque

  /** The speed as a share of the top speed, sign dropped and limited to [0, 1]: the torque curve's argument. */
  function NormalizedSpeed(carSpeed: real, maxCarSpeed: NonZeroReal): (r: real)
    ensures 0.0 <= r <= 1.0
    ensures carSpeed == 0.0 ==> r == 0.0
  {
    Clamp01(Abs(carSpeed / maxCarSpeed))
  }

  /** Driving backwards at a speed gives the same normalised speed as driving forwards at it. */
  lemma NormalizedSpeedIgnoresDirection(carSpeed: real, maxCarSpeed: NonZeroReal)
    ensures NormalizedSpeed(-carSpeed, maxCarSpeed) == NormalizedSpeed(carSpeed, maxCarSpeed)
  {
    assert -carSpeed / maxCarSpeed == -(carSpeed / maxCarSpeed);
  }

  /** At or beyond the top speed (in either direction) the normalised speed saturates at one. */
  lemma NormalizedSpeedSaturates(carSpeed: real, maxCarSpeed: NonZeroReal)
    requires maxCarSpeed > 0.0 && (carSpeed >= maxCarSpeed || carSpeed <= -(maxCarSpeed as real))
    ensures NormalizedSpeed(carSpeed, maxCarSpeed) == 1.0
  {
    var q := carSpeed / maxCarSpeed;
    assert q * maxCarSpeed == carSpeed;
    if carSpeed >= maxCarSpeed {
      if q < 1.0 {
        MulLeftStrict(q, 1.0, maxCarSpeed);
        assert false;
      }
    } else {
      if q > -1.0 {
        MulLeftStrict(-1.0, q, maxCarSpeed);
        assert false;
      }
    }
  }

  /** Forward torque: the curve's value at the normalised speed times `TorqueToApply`. */
  function ForwardTorqueMagnitude(data: CarData, carSpeed: real): real
  {
    data.speedXTorqueCurve(NormalizedSpeed(carSpeed, data.maxCarSpeed)) * data.torqueToApply
  }

  /** The signed torque: forward torque, or its negation scaled by `ReverseAccelerationMultiplier` in reverse. */
  function TorqueMagnitude(data: CarData, isForward: bool, carSpeed: real): real
  {
    var forward := ForwardTorqueMagnitude(data, carSpeed);
    if isForward then forward else -forward * data.reverseAccelerationMultiplier
  }

  /** The drive force: the signed torque along the forward axis, scaled by the caller's multiplier. */
  function TorqueForce(data: CarData, accelerationDirection: Vec3, isForward: bool, carSpeed: real, multiplier: real): Vec3
  {
    Scale(Scale(accelerationDirection, TorqueMagnitude(data, isForward, carSpeed)), multiplier)
  }

  /**
   * Reverse drive pushes exactly opposite to forward drive at the same speed, scaled
   * by the reverse multiplier; at or over the top speed both use the curve's value at one.
   */
  lemma ReverseTorqueMirrorsForward(data: CarData, carSpeed: real)
    requires data.maxCarSpeed > 0.0
    ensures TorqueMagnitude(data, false, carSpeed)
            == -TorqueMagnitude(data, true, carSpeed) * data.reverseAccelerationMultiplier
    ensures TorqueMagnitude(data, true, carSpeed) == TorqueMagnitude(data, true, -carSpeed)
    ensures carSpeed >= data.maxCarSpeed ==>
              TorqueMagnitude(data, true, carSpeed) == data.speedXTorqueCurve(1.0) * data.torqueToApply
  {
    NormalizedSpeedIgnoresDirection(carSpeed, data.maxCarSpeed);
    if carSpeed >= data.maxCarSpeed {
      NormalizedSpeedSaturates(carSpeed, data.maxCarSpeed);
    }
  }

  /** The torque call of one tyre: nothing while airborne, otherwise one drive force. */
  function TorqueEmission(c: TyreContact, isForward: bool, carSpeed: real, multiplier: real): (r: seq<ForceCommand>)
    ensures r == [] <==> !c.onGround
    ensures c.onGround ==> r == [TorqueCommand(c, isForward, carSpeed, multiplier)]
  {
    if !c.onGround then [] else [TorqueCommand(c, isForward, carSpeed, multiplier)]
  }

  function TorqueCommand(c: TyreContact, isForward: bool, carSpeed: real, multiplier: real): ForceCommand
  {
    ForceCommand(c.id, TorqueForce(c.data, c.accelerationDirection, isForward, carSpeed, multiplier))
  }

  // ---------------------------------------------------------------- axles

  /** The tyres of an axle that are on the ground, in axle order. */
  function Grounded(axle: seq<TyreContact>): (r: seq<TyreContact>)
    ensures |r| <= |axle|
    ensures (forall i :: 0 <= i < |axle| ==> !axle[i].onGround) ==> r == []
  {
    if |axle| == 0 then []
    else Grounded(axle[..|axle| - 1]) + (if axle[|axle| - 1].onGround then [axle[|axle| - 1]] else [])
  }

  /** Grounded is a filter: a contact is in the result exactly when it is in the axle and on the ground. */
  lemma {:induction false} GroundedIsFilter(axle: seq<TyreContact>)
    ensures forall c :: c in Grounded(axle) <==> c in axle && c.onGround
  {
    if |axle| > 0 {
      var prefix := axle[..|axle| - 1];
      GroundedIsFilter(prefix);
      assert axle == prefix + [axle[|axle| - 1]];
    }
  }

  /** The commands of one torque pass over an axle, in axle order: each tyre's torque call in turn. */
  function AxleTorque(axle: seq<TyreContact>, isForward: bool, carSpeed: real, multiplier: real): seq<ForceCommand>
  {
    if |axle| == 0 then []
    else AxleTorque(axle[..|axle| - 1], isForward, carSpeed, multiplier)
         + TorqueEmission(axle[|axle| - 1], isForward, carSpeed, multiplier)
  }

  /** The commands of one brake pass over an axle, in axle order: each tyre's brake call in turn. */
  function AxleBrake(axle: seq<TyreContact>, brakeFactor: real, dt: real): seq<ForceCommand>
    requires dt > 0.0
  {
    if |axle| == 0 then []
    else AxleBrake(axle[..|axle| - 1], brakeFactor, dt) + BrakeEmission(axle[|axle| - 1], brakeFactor, dt)
  }

  /** A torque pass over one more tyre adds that tyre's torque call at the end. */
  lemma AxleTorqueExtend(axle: seq<TyreContact>, i: nat, isForward: bool, carSpeed: real, multiplier: real)
    requires i < |axle|
    ensures AxleTorque(axle[..i + 1], isForward, carSpeed, multiplier)
            == AxleTorque(axle[..i], isForward, carSpeed, multiplier) + TorqueEmission(axle[i], isForward, carSpeed, multiplier)
  {
    assert axle[..i + 1][..i] == axle[..i];
  }

  /** A brake pass over one more tyre adds that tyre's brake call at the end. */
  lemma AxleBrakeExtend(axle: seq<TyreContact>, i: nat, brakeFactor: real, dt: real)
    requires i < |axle| && dt > 0.0
    ensures AxleBrake(axle[..i + 1], brakeFactor, dt) == AxleBrake(axle[..i], brakeFactor, dt) + BrakeEmission(axle[i], brakeFactor, dt)
  {
    assert axle[..i + 1][..i] == axle[..i];
  }

  /** Appending commands one call at a time is appending them all at once. */
  lemma AppendAssociative(log: seq<ForceCommand>, first: seq<ForceCommand>, second: seq<ForceCommand>)
    ensures (log + first) + second == log + (first + second)
  {
  }

  /**
   * A torque pass emits exactly one command per grounded tyre, in axle order, and every
   * command is built from the same direction flag, car speed and multiplier.
   */
  lemma {:induction false} AxleTorqueIsGroundedTorque(axle: seq<TyreContact>, isForward: bool, carSpeed: real, multiplier: real)
    ensures |AxleTorque(axle, isForward, carSpeed, multiplier)| == |Grounded(axle)|
    ensures forall k :: 0 <= k < |Grounded(axle)| ==>
              AxleTorque(axle, isForward, carSpeed, multiplier)[k] == TorqueCommand(Grounded(axle)[k], isForward, carSpeed, multiplier)
  {
    if |axle| > 0 {
      var prefix := axle[..|axle| - 1];
      AxleTorqueIsGroundedTorque(prefix, isForward, carSpeed, multiplier);
    }
  }

  /** A brake pass emits exactly one brake command per grounded tyre, in axle order, all with the same factor. */
  lemma {:induction false} AxleBrakeIsGroundedBrake(axle: seq<TyreContact>, brakeFactor: real, dt: real)
    requires dt > 0.0
    ensures |AxleBrake(axle, brakeFactor, dt)| == |Grounded(axle)|
    ensures forall k :: 0 <= k < |Grounded(axle)| ==>
              AxleBrake(axle, brakeFactor, dt)[k] == ForceCommand(Grounded(axle)[k].id, BrakeForce(Grounded(axle)[k], brakeFactor, dt))
  {
    if |axle| > 0 {
      var prefix := axle[..|axle| - 1];
      AxleBrakeIsGroundedBrake(prefix, brakeFactor, dt);
    }
  }

  /** The brake commands for a list of grounded tyres: one per tyre, in order, all with one factor. */
  function BrakeCommands(grounded: seq<TyreContact>, brakeFactor: real, dt: real): (r: seq<ForceCommand>)
    requires dt > 0.0
    ensures |r| == |grounded|
    ensures forall k :: 0 <= k < |r| ==> r[k].tyre == grounded[k].id && r[k].force == BrakeForce(grounded[k], brakeFactor, dt)
  {
    seq(|grounded|, k requires 0 <= k < |grounded| => ForceCommand(grounded[k].id, BrakeForce(grounded[k], brakeFactor, dt)))
  }

  /** A brake pass over an axle is exactly the brake commands of its grounded tyres. */
  lemma AxleBrakeIsBrakeCommands(axle: seq<TyreContact>, brakeFactor: real, dt: real)
    requires dt > 0.0
    ensures AxleBrake(axle, brakeFactor, dt) == BrakeCommands(Grounded(axle), brakeFactor, dt)
  {
    AxleBrakeIsGroundedBrake(axle, brakeFactor, dt);
  }

  /**
   * Braking the front axle and then the back axle emits the brake commands of the
   * grounded front tyres with the front factor, followed by those of the grounded back
   * tyres with the back factor.
   */
  lemma BothAxlesBrake(front: seq<TyreContact>, back: seq<TyreContact>, frontFactor: real, backFactor: real, dt: real)
    requires dt > 0.0
    ensures AxleBrake(front, frontFactor, dt) + AxleBrake(back, backFactor, dt)
            == BrakeCommands(Grounded(front), frontFactor, dt) + BrakeCommands(Grounded(back), backFactor, dt)
  {
    AxleBrakeIsBrakeCommands(front, frontFactor, dt);
    AxleBrakeIsBrakeCommands(back, backFactor, dt);
  }

  /** An axle with no tyre on the ground receives neither torque nor braking. */
  lemma AirborneAxleIsSilent(axle: seq<TyreContact>, isForward: bool, carSpeed: real, multiplier: real, brakeFactor: real, dt: real)
    requires dt > 0.0
    requires forall i :: 0 <= i < |axle| ==> !axle[i].onGround
    ensures AxleTorque(axle, isForward, carSpeed, multiplier) == []
    ensures AxleBrake(axle, brakeFactor, dt) == []
  {
    AxleTorqueIsGroundedTorque(axle, isForward, carSpeed, multiplier);
    AxleBrakeIsGroundedBrake(axle, brakeFactor, dt);
  }
}
