/**
 * A tyre component: it keeps the axes and velocity components of its last frame
 * and the ground contact of its last physics step, and turns them into forces on
 * the car's rigid body.
 */
module Tyres {

  import opened Wrappers
  import opened Vectors
  import opened CarConfig
  import opened TyreForces
  import opened Engine

  class Tyre {
    /** Distinguishes this tyre's forces in the body's record. */
    const id: nat
    const body: RigidBody
    const transform: Transform
    /** The tuning record captured from the controller when the tyre starts. */
    const data: CarData

    var springDirection: Vec3
    var velocityAlongSpring: real
    var steeringDirection: Vec3
    var steeringVelocity: real
    var accelerationDirection: Vec3
    var forwardVelocity: real
    var onGround: bool

    /** Everything the force rules read from this tyre. */
    ghost function Contact(): (c: TyreContact)
      reads this
      ensures c.id == id && c.data == data && c.onGround == onGround
    {
      TyreContact(id, onGround, data, springDirection, velocityAlongSpring,
                  steeringDirection, steeringVelocity, accelerationDirection, forwardVelocity)
    }

    /**
     * Start: capture the controller's current tuning record. A fresh tyre is not on the
     * ground, and its axes and velocity components hold their zero defaults until its
     * first Update.
     */
    constructor(id: nat, body: RigidBody, transform: Transform, data: CarData)
      ensures this.id == id && this.body == body && this.transform == transform && this.data == data
      ensures !onGround
      ensures springDirection == Zero && velocityAlongSpring == 0.0
      ensures steeringDirection == Zero && steeringVelocity == 0.0
      ensures accelerationDirection == Zero && forwardVelocity == 0.0
    {
      this.id := id;
      this.body := body;
      this.transform := transform;
      this.data := data;
      springDirection := Zero;
      velocityAlongSpring := 0.0;
      steeringDirection := Zero;
      steeringVelocity := 0.0;
      accelerationDirection := Zero;
      forwardVelocity := 0.0;
      onGround := false;
    }

    /**
     * Update (the per-frame configuration): read the axes of the tyre's transform and
     * the body's velocity at the tyre, snap the spring axis, and project the velocity
     * on the three axes. The ground contact is left as the last physics step found it.
     */
    method Update(pointVelocity: Vec3, up: Vec3, right: Vec3, forward: Vec3)
      modifies this
      ensures springDirection == SnapSpringZ(up)
      ensures velocityAlongSpring == Dot(SnapSpringZ(up), pointVelocity)
      ensures steeringDirection == right && steeringVelocity == Dot(right, pointVelocity)
      ensures accelerationDirection == forward && forwardVelocity == Dot(forward, pointVelocity)
      ensures onGround == old(onGround)
    {
      springDirection := up;
      if springDirection.z < 0.0 && springDirection.z > SuspensionThreshold {
        springDirection := springDirection.(z := 0.0);
      }
      velocityAlongSpring := Dot(springDirection, pointVelocity);
      steeringDirection := right;
      steeringVelocity := Dot(steeringDirection, pointVelocity);
      accelerationDirection := forward;
      forwardVelocity := Dot(accelerationDirection, pointVelocity);
    }

    /**
     * FixedUpdate: `hit` is the raycast's result along the tyre's down axis (the hit
     * distance, or nothing). No hit marks the tyre airborne and adds no force; a hit
     * marks it grounded and applies the suspension and the lateral grip forces.
     */
    method FixedUpdate(hit: Option<real>, fixedDeltaTime: real, approximately: (real, real) -> bool)
      requires fixedDeltaTime > 0.0
      modifies this, body
      ensures onGround <==> hit.Some?
      ensures Contact() == old(Contact()).(onGround := hit.Some?)
      ensures body.log == old(body.log) + PhysicsStepEmission(Contact(), hit, fixedDeltaTime, approximately)
    {
      if hit.None? {
        onGround := false;
        return;
      }
      onGround := true;
      ApplySuspensionForce(hit.value, approximately);
      ApplySteeringForce(fixedDeltaTime);
    }

    method ApplySuspensionForce(hitDistance: real, approximately: (real, real) -> bool)
      modifies body
      ensures body.log == old(body.log) + SuspensionEmission(Contact(), hitDistance, approximately)
    {
      if approximately(data.suspensionRestDistance, hitDistance) {
        return;
      }
      var suspensionOffset := data.suspensionRestDistance - hitDistance;
      suspensionOffset := Scalars.Clamp(suspensionOffset, MinSuspensionOffset, MaxSuspensionOffset);
      var suspensionForceMagnitude := suspensionOffset * data.springStrength - velocityAlongSpring * data.springDamper;
      assert suspensionForceMagnitude == SuspensionForceMagnitude(data, hitDistance, velocityAlongSpring);
      body.AddForceAtPosition(id, Scale(springDirection, suspensionForceMagnitude));
    }

    method ApplySteeringForce(fixedDeltaTime: real)
      requires fixedDeltaTime > 0.0
      modifies body
      ensures body.log == old(body.log) + [ForceCommand(id, LateralForce(Contact(), fixedDeltaTime))]
    {
      var velocityChange := -steeringVelocity * data.tyreGripFactor;
      var acceleration := velocityChange / fixedDeltaTime;
      assert Scale(steeringDirection, data.tyreMass * acceleration) == LateralForce(Contact(), fixedDeltaTime);
      body.AddForceAtPosition(id, Scale(steeringDirection, data.tyreMass * acceleration));
    }

    /** Drive torque along the forward axis, only while the tyre is on the ground. */
    method ApplyTorque(isForward: bool, carSpeed: real, torqueMultiplier: real)
      modifies body
      ensures body.log == old(body.log) + TorqueEmission(Contact(), isForward, carSpeed, torqueMultiplier)
    {
      if !onGround {
        return;
      }
      var normalizeSpeed := Scalars.Clamp01(Scalars.Abs(carSpeed / data.maxCarSpeed));
      var torqueMagnitude := data.speedXTorqueCurve(normalizeSpeed) * data.torqueToApply;
      if !isForward {
        torqueMagnitude := -torqueMagnitude * data.reverseAccelerationMultiplier;
      }
      assert torqueMagnitude == TorqueMagnitude(data, isForward, carSpeed);
      body.AddForceAtPosition(id, Scale(Scale(accelerationDirection, torqueMagnitude), torqueMultiplier));
    }

    /** Brake force against the forward velocity, only while the tyre is on the ground. */
    method ApplyBrakeForce(brakeFactor: real, fixedDeltaTime: real)
      requires fixedDeltaTime > 0.0
      modifies body
      ensures body.log == old(body.log) + BrakeEmission(Contact(), brakeFactor, fixedDeltaTime)
    {
      if !onGround {
        return;
      }
      var velocityChange := -forwardVelocity * brakeFactor;
      var brakePower := velocityChange / fixedDeltaTime;
      assert Scale(accelerationDirection, data.tyreMass * brakePower) == BrakeForce(Contact(), brakeFactor, fixedDeltaTime);
      body.AddForceAtPosition(id, Scale(accelerationDirection, data.tyreMass * brakePower));
    }
  }

  /** The contacts of a sequence of tyres, in order. */
  ghost function Contacts(tyres: seq<Tyre>): (r: seq<TyreContact>)
    reads tyres
    ensures |r| == |tyres|
  {
    if |tyres| == 0 then [] else Contacts(tyres[..|tyres| - 1]) + [tyres[|tyres| - 1].Contact()]
  }

  /** A step that changes no tyre leaves their contacts as they were. */
  twostate lemma ContactsFrame(tyres: seq<Tyre>)
    requires unchanged(tyres)
    ensures Contacts(tyres) == old(Contacts(tyres))
  {
  }

  /** The `i`-th contact is the `i`-th tyre's contact. */
  lemma {:induction false} ContactAt(tyres: seq<Tyre>, i: nat)
    requires i < |tyres|
    ensures Contacts(tyres)[i] == tyres[i].Contact()
  {
    if i < |tyres| - 1 {
      ContactAt(tyres[..|tyres| - 1], i);
    }
  }

  /** Every tyre in the sequence adds its forces to `body`. */
  ghost predicate Mounted(tyres: seq<Tyre>, body: RigidBody)
  {
    forall i :: 0 <= i < |tyres| ==> tyres[i].body == body
  }

  /** Applies the torque call to every tyre of an axle in order (one `foreach` of the controller). */
  method TorqueAxle(tyres: seq<Tyre>, body: RigidBody, isForward: bool, carSpeed: real, multiplier: real)
    requires Mounted(tyres, body)
    modifies body
    ensures body.log == old(body.log) + AxleTorque(old(Contacts(tyres)), isForward, carSpeed, multiplier)
  {
    ghost var contacts := Contacts(tyres);
    for i := 0 to |tyres|
      invariant body.log == old(body.log) + AxleTorque(contacts[..i], isForward, carSpeed, multiplier)
    {
      ContactsFrame(tyres);
      ContactAt(tyres, i);
      tyres[i].ApplyTorque(isForward, carSpeed, multiplier);
      AxleTorqueExtend(contacts, i, isForward, carSpeed, multiplier);
      AppendAssociative(old(body.log), AxleTorque(contacts[..i], isForward, carSpeed, multiplier),
                        TorqueEmission(contacts[i], isForward, carSpeed, multiplier));
    }
    assert contacts[..|tyres|] == contacts;
  }

  /** Applies the brake call to every tyre of an axle in order with one brake factor. */
  method BrakeAxle(tyres: seq<Tyre>, body: RigidBody, brakeFactor: real, fixedDeltaTime: real)
    requires Mounted(tyres, body) && fixedDeltaTime > 0.0
    modifies body
    ensures body.log == old(body.log) + AxleBrake(old(Contacts(tyres)), brakeFactor, fixedDeltaTime)
  {
    ghost var contacts := Contacts(tyres);
    for i := 0 to |tyres|
      invariant body.log == old(body.log) + AxleBrake(contacts[..i], brakeFactor, fixedDeltaTime)
    {
      ContactsFrame(tyres);
      ContactAt(tyres, i);
      tyres[i].ApplyBrakeForce(brakeFactor, fixedDeltaTime);
      AxleBrakeExtend(contacts, i, brakeFactor, fixedDeltaTime);
      AppendAssociative(old(body.log), AxleBrake(contacts[..i], brakeFactor, fixedDeltaTime),
                        BrakeEmission(contacts[i], brakeFactor, fixedDeltaTime));
    }
    assert contacts[..|tyres|] == contacts;
  }
}
