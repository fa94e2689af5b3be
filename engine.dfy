/**
 * The two engine objects the car code changes: the car's rigid body, seen only
 * through the forces added to it, and a transform, seen only through its local
 * Euler angles.
 */
module Engine {

  import opened Vectors

  /** One call of the rigid body's add-force-at-position, identified by the tyre it was applied at. */
  datatype ForceCommand = ForceCommand(tyre: nat, force: Vec3)

  /** The car's rigid body. Its physics is not modelled; every force added to it is recorded in order. */
  class RigidBody {
    ghost var log: seq<ForceCommand>

    constructor()
      ensures log == []
    {
      log := [];
    }

    /** Add a force at the position of the tyre with identity `tyre`. */
    method AddForceAtPosition(tyre: nat, force: Vec3)
      modifies this
      ensures log == old(log) + [ForceCommand(tyre, force)]
    {
      log := log + [ForceCommand(tyre, force)];
    }
  }

  /** A tyre's transform: only the local Euler angles, which the steering code writes. */
  class Transform {
    var localEulerAngles: Vec3

    constructor(angles: Vec3)
      ensures localEulerAngles == angles
    {
      localEulerAngles := angles;
    }
  }
}
