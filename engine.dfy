/**
 Stand-ins for the few engine types the controller touches: vectors with
 `real` components, an optional value, and the rigid body whose velocity and
 gravity flag the controller writes.
 */
module Engine {

  datatype Option<T> = None | Some(value: T)

  datatype Vec2 = Vec2(x: real, y: real)

  datatype Vec3 = Vec3(x: real, y: real, z: real)

  const Zero2: Vec2 := Vec2(0.0, 0.0)
  const Zero3: Vec3 := Vec3(0.0, 0.0, 0.0)
  const Up: Vec3 := Vec3(0.0, 1.0, 0.0)
  const Down: Vec3 := Vec3(0.0, -1.0, 0.0)

  function Add(a: Vec3, b: Vec3): Vec3 {
    Vec3(a.x + b.x, a.y + b.y, a.z + b.z)
  }

  function Scale(a: Vec3, k: real): Vec3 {
    Vec3(a.x * k, a.y * k, a.z * k)
  }

  function Sub(a: Vec3, b: Vec3): Vec3 {
    Vec3(a.x - b.x, a.y - b.y, a.z - b.z)
  }

  function Dot(a: Vec3, b: Vec3): real {
    a.x * b.x + a.y * b.y + a.z * b.z
  }

  /** Squared Euclidean distance; comparing it with a squared bound stands
      for comparing the engine's distance with that bound. */
  function DistanceSquared(a: Vec3, b: Vec3): real {
    (a.x - b.x) * (a.x - b.x) + (a.y - b.y) * (a.y - b.y) + (a.z - b.z) * (a.z - b.z)
  }

  /** Squared length of the horizontal (x, z) part of a velocity. */
  function HorizontalSpeedSquared(v: Vec3): real {
    v.x * v.x + v.z * v.z
  }

  predicate IsUnit(n: Vec3) {
    Dot(n, n) == 1.0
  }

  /**
   The engine's rigid body as far as the controller sees it. Setting the
   velocity takes effect at once; a force is only accumulated and is
   integrated by the physics step, which is not part of this model.
   */
  class Rigidbody {
    var velocity: Vec3
    var useGravity: bool
    var pendingAcceleration: Vec3
    var pendingVelocityChange: Vec3

    constructor ()
      ensures velocity == Zero3 && useGravity
      ensures pendingAcceleration == Zero3 && pendingVelocityChange == Zero3
    {
      velocity := Zero3;
      useGravity := true;
      pendingAcceleration := Zero3;
      pendingVelocityChange := Zero3;
    }

    /** `AddForce(f, ForceMode.Acceleration)`. */
    method AddAcceleration(f: Vec3)
      modifies this`pendingAcceleration
      ensures pendingAcceleration == Add(old(pendingAcceleration), f)
    {
      pendingAcceleration := Add(pendingAcceleration, f);
    }

    /** `AddForce(f, ForceMode.VelocityChange)`. */
    method AddVelocityChange(f: Vec3)
      modifies this`pendingVelocityChange
      ensures pendingVelocityChange == Add(old(pendingVelocityChange), f)
    {
      pendingVelocityChange := Add(pendingVelocityChange, f);
    }
  }
}
