/** The grabbable body: a wrapper around one rigid body that can be locked
    (gravity suspended), pushed with a mass-scaled force, and homed toward a
    point with a speed clamp. Vectors are over the reals; Unity's float
    vectors and the physics integration of the rigid body are not modelled. */
module Gravibody {

  /** A point or displacement in world space. */
  datatype Vec = Vec(x: real, y: real, z: real)

  const ZERO: Vec := Vec(0.0, 0.0, 0.0)

  function Add(a: Vec, b: Vec): Vec { Vec(a.x + b.x, a.y + b.y, a.z + b.z) }

  function Sub(a: Vec, b: Vec): Vec { Vec(a.x - b.x, a.y - b.y, a.z - b.z) }

  function Scale(a: Vec, k: real): Vec { Vec(a.x * k, a.y * k, a.z * k) }

  /** Unity's `sqrMagnitude`. */
  function SqrMagnitude(a: Vec): (r: real)
    ensures r >= 0.0
  {
    SquareIsNonNegative(a.x);
    SquareIsNonNegative(a.y);
    SquareIsNonNegative(a.z);
    a.x * a.x + a.y * a.y + a.z * a.z
  }

  lemma SquareIsNonNegative(t: real)
    ensures t * t >= 0.0
  {
    if t < 0.0 {
      var u := -t;
      assert u * u == t * t;
    }
  }

  function Abs(t: real): real { if t < 0.0 then -t else t }

  function Min(a: real, b: real): real { if a <= b then a else b }

  /** A velocity in polar form: `speed` units along the unit vector of
      `heading` (against it when `speed` is negative). A zero heading stands
      for the zero velocity. The square root that Unity's `magnitude` and
      `normalized` need is never taken: a unit vector is kept as the pair
      (heading, 1). */
  datatype Velocity = Polar(heading: Vec, speed: real)

  const REST: Velocity := Polar(ZERO, 0.0)

  /** Unity's `normalized` of a displacement: its unit vector, or zero for the zero vector. */
  function Normalize(d: Vec): Velocity { if d == ZERO then Polar(d, 0.0) else Polar(d, 1.0) }

  /** Unity's `magnitude` of a velocity. */
  function Magnitude(v: Velocity): real { if v.heading == ZERO then 0.0 else Abs(v.speed) }

  /** Unity's `normalized` of a velocity. */
  function NormalizedVelocity(v: Velocity): Velocity
  {
    if Magnitude(v) == 0.0 then Polar(v.heading, 0.0)
    else if v.speed > 0.0 then Polar(v.heading, 1.0)
    else Polar(Scale(v.heading, -1.0), 1.0)
  }

  /** A velocity multiplied by a scalar. */
  function ScaleVelocity(v: Velocity, k: real): Velocity { Polar(v.heading, v.speed * k) }

  /** The homing gain: speed per squared unit of distance. */
  const HOMING_GAIN: real := 10.0

  /** The speed clamp of the homing step. */
  const MAX_SPEED: real := 100.0

  /** The homing law: the velocity points along the
      displacement to the target and its speed is the squared distance times
      the gain, capped at the maximum speed. */
  function HomingVelocity(offset: Vec): Velocity
  {
    Polar(offset, Min(SqrMagnitude(offset) * HOMING_GAIN, MAX_SPEED))
  }

  /** The homing step never exceeds the maximum speed. */
  lemma HomingSpeedIsClamped(offset: Vec)
    ensures Magnitude(HomingVelocity(offset)) <= MAX_SPEED
    ensures Magnitude(HomingVelocity(offset)) >= 0.0
  {
  }

  /** Away from the target, the speed is d^2 * 10 below the clamp and exactly
      the clamp above it, and the velocity points toward the target. */
  lemma HomingLaw(offset: Vec)
    requires SqrMagnitude(offset) > 0.0
    ensures var v := HomingVelocity(offset); var d2 := SqrMagnitude(offset);
      && (d2 * HOMING_GAIN <= MAX_SPEED ==> Magnitude(v) == d2 * HOMING_GAIN)
      && (d2 * HOMING_GAIN > MAX_SPEED ==> Magnitude(v) == MAX_SPEED)
      && NormalizedVelocity(v) == Normalize(offset)
  {
  }

  /** A body 10 units beyond the drag point along z: 10^2 * 10 = 1000 is
      clamped, so the body moves at 100 straight back toward the point. */
  lemma HomingFarTargetIsClamped()
    ensures HomingVelocity(Sub(ZERO, Vec(0.0, 0.0, 10.0))) == Polar(Vec(0.0, 0.0, -10.0), 100.0)
  {
  }

  /** A body 2 units from the drag point: 2^2 * 10 = 40 is under the clamp. */
  lemma HomingNearTargetIsUnclamped()
    ensures HomingVelocity(Sub(ZERO, Vec(0.0, 0.0, 2.0))) == Polar(Vec(0.0, 0.0, -2.0), 40.0)
  {
  }

  /** Unity's force modes; the model only forwards them. */
  datatype ForceMode = Force | Acceleration | Impulse | VelocityChange

  /** A force handed to the rigid body, which integrates it at its next
      physics step (that integration is not modelled). */
  datatype AppliedForce = AppliedForce(force: Vec, mode: ForceMode)

  /** What a body exposes to the model, as one value. */
  datatype BodyView = BodyView(position: Vec, velocity: Velocity, locked: bool, useGravity: bool, applied: seq<AppliedForce>)

  class Body {
    /** The rigid body's mass, owned by the simulation. */
    const mass: real
    /** The rigid body's position. */
    var position: Vec
    /** The rigid body's velocity. */
    var velocity: Velocity
    /** The `Locked` flag (`_locked`). */
    var locked: bool
    /** The rigid body's `useGravity`. */
    var useGravity: bool
    /** The forces forwarded to the rigid body, oldest first. */
    var applied: seq<AppliedForce>

    function View(): BodyView
      reads this
    {
      BodyView(position, velocity, locked, useGravity, applied)
    }

    /** The link the `Locked` setter maintains between the flag and gravity. */
    predicate GravityLinked()
      reads this
    {
      useGravity == !locked
    }

    /** A body as the simulation creates it: at rest, unlocked, and with the
        gravity setting of its rigid body. */
    constructor (mass: real, position: Vec, useGravity: bool)
      ensures this.mass == mass
      ensures View() == BodyView(position, REST, false, useGravity, [])
    {
      this.mass := mass;
      this.position := position;
      this.velocity := REST;
      this.locked := false;
      this.useGravity := useGravity;
      this.applied := [];
    }

    /** The `Locked` setter: stores the flag and switches gravity off while locked. */
    method SetLocked(value: bool)
      modifies this
      ensures View() == old(View()).(locked := value, useGravity := !value)
      ensures locked == value && GravityLinked()
    {
      locked := value;
      useGravity := !locked;
    }

    /** Forwards a force to the rigid body, scaled by the body's mass. */
    method AddForce(force: Vec, mode: ForceMode)
      modifies this
      ensures View() == old(View()).(applied := old(applied) + [AppliedForce(Scale(force, mass), mode)])
    {
      applied := applied + [AppliedForce(Scale(force, mass), mode)];
    }

    /** One homing step toward `target`: velocity along the displacement with
        speed d^2 * 10, then rescaled to 100 if it is faster than that. */
    method Move(target: Vec)
      modifies this
      ensures View() == old(View()).(velocity := HomingVelocity(Sub(target, position)))
      ensures Magnitude(velocity) <= MAX_SPEED
    {
      var direction := Sub(target, position);
      var sqr := SqrMagnitude(direction);
      velocity := ScaleVelocity(Normalize(direction), sqr * HOMING_GAIN);
      if Magnitude(velocity) > MAX_SPEED {
        velocity := ScaleVelocity(NormalizedVelocity(velocity), MAX_SPEED);
      }
    }
  }

  /** Setting `Locked` twice to the same value leaves the body as setting it once does. */
  method SetLockedTwice(b: Body, value: bool)
    modifies b
    ensures b.View() == old(b.View()).(locked := value, useGravity := !value)
  {
    b.SetLocked(value);
    b.SetLocked(value);
  }
}
