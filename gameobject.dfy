/**
 * Rigid bodies (physics/GameObjects/GameObject.cs): a mesh placed by a
 * transform whose translation row M41..M43 is the body's position, moved
 * each tick by the forces on it, its gravity and two damping factors.
 */
module GameObjects {
  import opened Numerics
  import opened Ids
  import opened Meshes
  import opened Physics
  import opened Lights
  import Octrees

  /** The mass of the `gravity` field initialiser, `new Gravity(25)`, before the constructor sets its own. */
  const InitialGravityMass: real := 25.0

  /** `friction`: the share of linear velocity lost per tick. */
  const Friction: real := 0.01

  /** `angularf`: the share of angular velocity lost per tick. */
  const AngularDamping: real := 0.01

  /** Vertices of two bodies closer than this collide. */
  const CollisionDistance: real := 0.1

  // ---------------------------------------------------------------------
  // The laws `update` applies

  /** The sum of the force vectors, in list order. */
  function TotalForce(fs: seq<Force>): Vec3
    reads fs
  {
    if fs == [] then Zero3 else Add(TotalForce(fs[..|fs| - 1]), fs[|fs| - 1].f)
  }

  /** The sum of the torques (pos − p) × f of the forces about the point `p`. */
  function TotalTorque(fs: seq<Force>, p: Vec3): Vec3
    reads fs
  {
    if fs == [] then Zero3
    else Add(TotalTorque(fs[..|fs| - 1], p), Cross(Sub(fs[|fs| - 1].pos, p), fs[|fs| - 1].f))
  }

  /**
   * a = F / m, which the vector library computes as F·(1/m). A zero mass,
   * for which the single-precision division gives infinities or NaN, gives
   * the zero vector here.
   */
  function Acceleration(total: Vec3, mass: real): Vec3
  {
    if mass == 0.0 then Zero3 else Scale(total, 1.0 / mass)
  }

  /** v' = (v + a·t)·(1 − friction). */
  function NextVelocity(v: Vec3, a: Vec3, t: real): Vec3
  {
    Scale(Add(v, Scale(a, t)), 1.0 - Friction)
  }

  /** s = v'·t + ½·a·t², with the already damped velocity. */
  function Displacement(v: Vec3, a: Vec3, t: real): Vec3
  {
    Add(Scale(v, t), Scale(Scale(Scale(a, 0.5), t), t))
  }

  /** ω' = (ω + α·t)·(1 − angularf). */
  function NextAngularVelocity(w: Vec3, alpha: Vec3, t: real): Vec3
  {
    Scale(Add(w, Scale(alpha, t)), 1.0 - AngularDamping)
  }

  /** With no applied forces and a non-zero mass, a body falls with acceleration G whatever its mass. */
  lemma FreeFall(mass: real)
    requires mass != 0.0
    ensures Acceleration(Add(TotalForce([]), Scale(G, mass)), mass) == G
  {
    var total := Add(Zero3, Scale(G, mass));
    assert total == Vec3(0.0, -9.8 * mass, 0.0);
    assert -9.8 * mass * (1.0 / mass) == -9.8;
  }

  /** Forces add up in the order they were attached: the sum over a longer list extends the sum over its prefix. */
  lemma {:induction false} TotalForceAppend(fs: seq<Force>, g: Force)
    ensures TotalForce(fs + [g]) == Add(TotalForce(fs), g.f)
  {
    assert (fs + [g])[..|fs + [g]| - 1] == fs;
  }

  // ---------------------------------------------------------------------
  // The inertia tensor

  /** The tensor of a uniform box of extents `s`: diag(m(y²+z²)/12, m(x²+z²)/12, m(x²+y²)/12, 1). */
  function InertiaTensor(mass: real, s: Vec3): Mat4
  {
    Diagonal(Moment(mass, s.y, s.z), Moment(mass, s.x, s.z), Moment(mass, s.x, s.y), 1.0)
  }

  /** The moment about one axis of a uniform box whose other two extents are `a` and `b`: m(a²+b²)/12. */
  function Moment(mass: real, a: real, b: real): real
  {
    mass * (a * a + b * b) / 12.0
  }

  /**
   * Matrix4x4.Invert of a diagonal matrix: the reciprocals of the diagonal.
   * A singular matrix, which the library fills with NaN, gives the zero
   * matrix here.
   */
  function InvertDiagonal(a: real, b: real, c: real): Mat4
  {
    if a == 0.0 || b == 0.0 || c == 0.0 then ZeroMatrix else Diagonal(1.0 / a, 1.0 / b, 1.0 / c, 1.0)
  }

  /** A non-negative mass has a non-negative tensor whose off-diagonal entries are all zero. */
  lemma InertiaTensorShape(mass: real, s: Vec3)
    requires mass >= 0.0
    ensures var m := InertiaTensor(mass, s);
      m.m11 >= 0.0 && m.m22 >= 0.0 && m.m33 >= 0.0 && m.m44 == 1.0
      && m.m12 == m.m13 == m.m14 == m.m21 == m.m23 == m.m24 == 0.0
      && m.m31 == m.m32 == m.m34 == m.m41 == m.m42 == m.m43 == 0.0
  {
    MomentNonNegative(mass, s.y, s.z);
    MomentNonNegative(mass, s.x, s.z);
    MomentNonNegative(mass, s.x, s.y);
  }

  lemma MomentNonNegative(mass: real, a: real, b: real)
    requires mass >= 0.0
    ensures Moment(mass, a, b) >= 0.0
  {
    assert a * a >= 0.0 && b * b >= 0.0;
  }

  /** The inverse of a non-singular diagonal tensor undoes it from either side. */
  lemma InvertDiagonalInverts(a: real, b: real, c: real)
    requires a != 0.0 && b != 0.0 && c != 0.0
    ensures Mul(Diagonal(a, b, c, 1.0), InvertDiagonal(a, b, c)) == Identity
    ensures Mul(InvertDiagonal(a, b, c), Diagonal(a, b, c, 1.0)) == Identity
  {
    assert a * (1.0 / a) == 1.0 && b * (1.0 / b) == 1.0 && c * (1.0 / c) == 1.0;
  }

  // ---------------------------------------------------------------------
  // One tick

  /** The state one tick of `update` rewrites. */
  datatype Motion = Motion(acceleration: Vec3, velocity: Vec3, angularAcceleration: Vec3,
                           angularVelocity: Vec3, transform: Mat4)

  /**
   * The body of `update` after the forces are summed: the linear and
   * angular accelerations, both velocities damped, and, when the lock is
   * acquired, a move by the displacement followed by a turn by ω·t.
   */
  function Step(m: Motion, totalForce: Vec3, torque: Vec3, mass: real, inverse: Mat4,
                time: real, acquired: bool, lib: MathLib): Motion
  {
    var a := Acceleration(totalForce, mass);
    var v := NextVelocity(m.velocity, a, time);
    var alpha := Transform3(torque, inverse);
    var w := NextAngularVelocity(m.angularVelocity, alpha, time);
    Motion(a, v, alpha, w, if acquired then Turned(Moved(m.transform, Displacement(v, a, time)), Scale(w, time), lib) else m.transform)
  }

  /** `move(d)`: the translation row grows by `d`. */
  function Moved(t: Mat4, d: Vec3): Mat4
  {
    WithTranslation(t, Add(TranslationOf(t), d))
  }

  /** `transform = r * transform` with r the yaw-pitch-roll rotation by `rotation`. */
  function Turned(t: Mat4, rotation: Vec3, lib: MathLib): Mat4
  {
    Mul(Rotation(lib.yawPitchRoll(rotation.y, rotation.x, rotation.z)), t)
  }

  /** With the lock, the body moves by exactly the displacement: the turn leaves the translation row alone. */
  lemma StepMoves(m: Motion, totalForce: Vec3, torque: Vec3, mass: real, inverse: Mat4, time: real, lib: MathLib)
    ensures var r := Step(m, totalForce, torque, mass, inverse, time, true, lib);
      TranslationOf(r.transform) == Add(TranslationOf(m.transform), Displacement(r.velocity, r.acceleration, time))
  {
  }

  /**
   * A body at rest with no force but its own gravity accelerates by G
   * whatever its mass, and ends the tick with the velocity G·t, damped.
   */
  lemma StepFromRest(m: Motion, torque: Vec3, mass: real, inverse: Mat4, time: real, acquired: bool, lib: MathLib)
    requires mass != 0.0 && m.velocity == Zero3
    ensures var r := Step(m, Scale(G, mass), torque, mass, inverse, time, acquired, lib);
      r.acceleration == G && r.velocity == Scale(Scale(G, time), 1.0 - Friction)
  {
  }

  /**
   * With no torque and an inverse tensor built by `InvertDiagonal`, there
   * is no angular acceleration and the spin only decays.
   */
  lemma StepSpinDecays(m: Motion, totalForce: Vec3, mass: real, a: real, b: real, c: real,
                       time: real, acquired: bool, lib: MathLib)
    ensures var r := Step(m, totalForce, Zero3, mass, InvertDiagonal(a, b, c), time, acquired, lib);
      r.angularAcceleration == Zero3 && r.angularVelocity == Scale(m.angularVelocity, 1.0 - AngularDamping)
  {
  }

  /** The sum of the moments pos × f of the forces about the origin. */
  function TotalMoment(fs: seq<Force>): Vec3
    reads fs
  {
    if fs == [] then Zero3 else Add(TotalMoment(fs[..|fs| - 1]), Cross(fs[|fs| - 1].pos, fs[|fs| - 1].f))
  }

  /**
   * The torque about any point `p` is the moment about the origin less
   * p × (the net force): the forces enter a tick only through these two
   * sums, wherever the body stands.
   */
  lemma {:induction false} TorqueAbout(fs: seq<Force>, p: Vec3)
    ensures TotalTorque(fs, p) == Sub(TotalMoment(fs), Cross(p, TotalForce(fs)))
  {
    if fs != [] {
      var init, g := fs[..|fs| - 1], fs[|fs| - 1];
      TorqueAbout(init, p);
      var f, m := TotalForce(init), TotalMoment(init);
      CrossSubLeft(g.pos, p, g.f);
      CrossAddRight(p, f, g.f);
    }
  }

  /**
   * What drives a body from one tick to the next, as values: whether it is
   * solid, the sum and the moment sum of its applied forces, its gravity,
   * its mass and its inverse inertia tensor.
   */
  datatype Dynamics = Dynamics(solid: bool, applied: Vec3, moment: Vec3, gravity: Vec3, mass: real, inverse: Mat4)

  /** What `update` never changes in a body: its force list, mesh, scale, id and inertia tensor. */
  datatype Fixture = Fixture(forces: seq<Force>, mesh: Mesh, scale: Vec3, id: int, inertiaTensor: Mat4)

  /**
   * One tick of `update` from the motion `m`: `m` itself for a solid body,
   * otherwise one `Step` with the net force, and the torque about the
   * position `m` holds. The solid case is written as zero `Ticks`, which
   * makes the two functions one recursive group, so the verifier unfolds
   * `Step` only where a proof asks for it.
   */
  function Tick(d: Dynamics, m: Motion, time: real, acquired: bool, lib: MathLib): Motion
    decreases 0, 2
  {
    if d.solid then Ticks(d, m, 0, time, acquired, lib)
    else Step(m, Add(d.applied, d.gravity), Sub(d.moment, Cross(TranslationOf(m.transform), d.applied)),
              d.mass, d.inverse, time, acquired, lib)
  }

  /** `n` ticks in a row from the motion `m`; zero ticks leave it where it is. */
  function Ticks(d: Dynamics, m: Motion, n: nat, time: real, acquired: bool, lib: MathLib): Motion
    decreases n, 1
  {
    if n == 0 then m else Tick(d, Ticks(d, m, n - 1, time, acquired, lib), time, acquired, lib)
  }

  /** One tick from the motion `n` ticks on is the motion `n + 1` ticks on. */
  lemma TickOnMore(d: Dynamics, start: Motion, n: nat, m: Motion, time: real, acquired: bool, lib: MathLib)
    requires m == Ticks(d, start, n, time, acquired, lib)
    ensures Ticks(d, m, 1, time, acquired, lib) == Ticks(d, start, n + 1, time, acquired, lib)
  {
  }

  // ---------------------------------------------------------------------
  // Collision

  /** `Select(v => Vector3.Transform(v, transform))`: each vertex placed by the transform. */
  function Placed(vs: seq<Vec3>, t: Mat4): (ps: seq<Vec3>)
    ensures |ps| == |vs| && forall k :: 0 <= k < |vs| ==> ps[k] == Transform3(vs[k], t)
  {
    if vs == [] then [] else Placed(vs[..|vs| - 1], t) + [Transform3(vs[|vs| - 1], t)]
  }

  /** Some vertex of `ps` is closer than `CollisionDistance` to some vertex of `qs`. */
  predicate Touching(lib: MathLib, ps: seq<Vec3>, qs: seq<Vec3>)
  {
    exists i, j :: 0 <= i < |ps| && 0 <= j < |qs| && Distance(lib, ps[i], qs[j]) < CollisionDistance
  }

  /** Whether two bodies touch does not depend on which one asks. */
  lemma TouchingSymmetric(lib: MathLib, ps: seq<Vec3>, qs: seq<Vec3>)
    ensures Touching(lib, ps, qs) <==> Touching(lib, qs, ps)
  {
    if Touching(lib, ps, qs) {
      var i, j :| 0 <= i < |ps| && 0 <= j < |qs| && Distance(lib, ps[i], qs[j]) < CollisionDistance;
      DistanceSymmetric(lib, ps[i], qs[j]);
    }
    if Touching(lib, qs, ps) {
      var j, i :| 0 <= j < |qs| && 0 <= i < |ps| && Distance(lib, qs[j], ps[i]) < CollisionDistance;
      DistanceSymmetric(lib, qs[j], ps[i]);
    }
  }

  // ---------------------------------------------------------------------
  // The body

  class GameObject {
    var id: int
    var mesh: Mesh
    var scale: Vec3
    var inertiaTensor: Mat4
    var inertiaTensorInverse: Mat4
    var solid: bool
    var forces: seq<Force>
    const gravity: Gravity
    var velocity: Vec3
    var acceleration: Vec3
    var transform: Mat4
    var angularVelocity: Vec3
    var angularAcceleration: Vec3

    /** Everything but the transform is as it was. */
    twostate predicate AllButTransformKept()
      reads this
    {
      && id == old(id) && mesh == old(mesh) && scale == old(scale) && solid == old(solid)
      && forces == old(forces) && velocity == old(velocity) && acceleration == old(acceleration)
      && angularVelocity == old(angularVelocity) && angularAcceleration == old(angularAcceleration)
      && inertiaTensor == old(inertiaTensor) && inertiaTensorInverse == old(inertiaTensorInverse)
    }

    /**
     * `GameObject(solid, mesh, mass, position)`: the field initialisers
     * (unit scale, no forces, a gravity of mass 25, identity transform,
     * everything else zero), the arguments (the position written into the
     * translation row), and `arrangeID`: a fresh id mapped to the body.
     */
    constructor (solid: bool, mesh: Mesh, mass: real, position: Vec3,
                 registry: Registry<GameObject>, forceRegistry: Registry<Force>)
      requires registry.HasRoom() && forceRegistry.HasRoom()
      modifies registry, forceRegistry
      ensures this.solid == solid && this.mesh == mesh && fresh(gravity) && fresh(gravity.base)
      ensures gravity.mass == mass && gravity.base.Get() == Scale(G, mass)
      ensures transform == WithTranslation(Identity, position) && GetPos() == position
      ensures scale == Vec3(1.0, 1.0, 1.0) && forces == []
      ensures velocity == acceleration == angularVelocity == angularAcceleration == Zero3
      ensures inertiaTensor == inertiaTensorInverse == ZeroMatrix
      ensures 1 <= id < MaxId && id !in old(registry.idMap)
      ensures registry.idMap == old(registry.idMap)[id := this]
      ensures 1 <= gravity.base.id < MaxId && gravity.base.id !in old(forceRegistry.idMap)
      ensures forceRegistry.idMap == old(forceRegistry.idMap)[gravity.base.id := gravity.base]
    {
      var g := new Gravity(InitialGravityMass, forceRegistry);
      g.SetMass(mass);
      this.solid, this.mesh, gravity := solid, mesh, g;
      scale, forces := Vec3(1.0, 1.0, 1.0), [];
      velocity, acceleration, angularVelocity, angularAcceleration := Zero3, Zero3, Zero3, Zero3;
      inertiaTensor, inertiaTensorInverse := ZeroMatrix, ZeroMatrix;
      transform := WithTranslation(Identity, position);
      new;
      id := registry.Register(this);
    }

    /**
     * `GameObject(solid, mesh, mass, position, rotation)`: as above, but the
     * transform starts from the yaw-pitch-roll rotation (yaw = rotation.Y,
     * pitch = rotation.X, roll = rotation.Z).
     */
    constructor WithRotation(solid: bool, mesh: Mesh, mass: real, position: Vec3, rotation: Vec3, lib: MathLib,
                             registry: Registry<GameObject>, forceRegistry: Registry<Force>)
      requires registry.HasRoom() && forceRegistry.HasRoom()
      modifies registry, forceRegistry
      ensures this.solid == solid && this.mesh == mesh && fresh(gravity) && fresh(gravity.base)
      ensures gravity.mass == mass && gravity.base.Get() == Scale(G, mass)
      ensures transform == WithTranslation(Rotation(lib.yawPitchRoll(rotation.y, rotation.x, rotation.z)), position)
      ensures GetPos() == position
      ensures scale == Vec3(1.0, 1.0, 1.0) && forces == []
      ensures velocity == acceleration == angularVelocity == angularAcceleration == Zero3
      ensures inertiaTensor == inertiaTensorInverse == ZeroMatrix
      ensures 1 <= id < MaxId && id !in old(registry.idMap)
      ensures registry.idMap == old(registry.idMap)[id := this]
      ensures 1 <= gravity.base.id < MaxId && gravity.base.id !in old(forceRegistry.idMap)
      ensures forceRegistry.idMap == old(forceRegistry.idMap)[gravity.base.id := gravity.base]
    {
      var g := new Gravity(InitialGravityMass, forceRegistry);
      g.SetMass(mass);
      this.solid, this.mesh, gravity := solid, mesh, g;
      scale, forces := Vec3(1.0, 1.0, 1.0), [];
      velocity, acceleration, angularVelocity, angularAcceleration := Zero3, Zero3, Zero3, Zero3;
      inertiaTensor, inertiaTensorInverse := ZeroMatrix, ZeroMatrix;
      transform := WithTranslation(Rotation(lib.yawPitchRoll(rotation.y, rotation.x, rotation.z)), position);
      new;
      id := registry.Register(this);
    }

    /** `InitializeInertiaTensor`: the box tensor of the current mass and scale, and its inverse. */
    method InitializeInertiaTensor()
      modifies this
      ensures inertiaTensor == InertiaTensor(gravity.mass, scale)
      ensures inertiaTensorInverse == InvertDiagonal(inertiaTensor.m11, inertiaTensor.m22, inertiaTensor.m33)
      ensures transform == old(transform) && velocity == old(velocity) && angularVelocity == old(angularVelocity)
      ensures scale == old(scale) && forces == old(forces) && solid == old(solid) && mesh == old(mesh)
      ensures id == old(id) && acceleration == old(acceleration) && angularAcceleration == old(angularAcceleration)
    {
      inertiaTensor := InertiaTensor(gravity.mass, scale);
      inertiaTensorInverse := InvertDiagonal(inertiaTensor.m11, inertiaTensor.m22, inertiaTensor.m33);
    }

    /** `getPos`: the translation row. */
    function GetPos(): Vec3
      reads this
    {
      TranslationOf(transform)
    }

    /** `getRot`: the third row of the transform's rotation block. */
    function GetRot(): Vec3
      reads this
    {
      Vec3(transform.m31, transform.m32, transform.m33)
    }

    /** What the octree reads: the id, `PosX()`…`PosZ()` and `SizeX()`…`SizeZ()`. */
    function Body(): (b: Octrees.Body)
      reads this
      ensures b.id == id && b.pos == GetPos() && b.size == scale
    {
      Octrees.Body(id, Vec3(transform.m41, transform.m42, transform.m43), scale)
    }

    /** The part of the body's state that `update` rewrites. */
    function State(): Motion
      reads this
    {
      Motion(acceleration, velocity, angularAcceleration, angularVelocity, transform)
    }

    /** What drives this body's ticks: its solidity, forces, gravity and inverse inertia tensor, as values. */
    function Forcing(): Dynamics
      reads this`solid, this`forces, this`inertiaTensorInverse, gravity, forces
    {
      Dynamics(solid, TotalForce(forces), TotalMoment(forces), gravity.Get(), gravity.mass, inertiaTensorInverse)
    }

    /** The body's `Fixture`, as values. */
    function Fixed(): Fixture
      reads this`forces, this`mesh, this`scale, this`id, this`inertiaTensor
    {
      Fixture(forces, mesh, scale, id, inertiaTensor)
    }

    /** The motion `update` leaves behind: one tick from the current one. */
    function Next(time: real, acquired: bool, lib: MathLib): Motion
      reads this, gravity, forces
    {
      Ticks(Forcing(), State(), 1, time, acquired, lib)
    }

    /**
     * `update`: nothing for a solid body. Otherwise sum the forces and
     * their torques about the position, add gravity, and take one `Step`;
     * `acquired` says whether `updateMutex.WaitOne(0)` got the lock.
     */
    method Update(time: real, acquired: bool, lib: MathLib)
      modifies this
      ensures solid ==> unchanged(this)
      ensures State() == old(Next(time, acquired, lib))
      ensures forces == old(forces) && solid == old(solid) && mesh == old(mesh) && scale == old(scale)
      ensures inertiaTensor == old(inertiaTensor) && inertiaTensorInverse == old(inertiaTensorInverse) && id == old(id)
    {
      if !solid {
        var totalForce, torque := SumForces(GetPos());
        TorqueAbout(forces, GetPos());
        totalForce := Add(totalForce, gravity.Get());
        var next := Step(State(), totalForce, torque, gravity.mass, inertiaTensorInverse, time, acquired, lib);
        acceleration, velocity, angularAcceleration, angularVelocity := next.acceleration, next.velocity, next.angularAcceleration, next.angularVelocity;
        transform := next.transform;
      }
    }

    /**
     * The `foreach` over `forces` in `update`: the force vectors and their
     * torques about `p`, summed in list order.
     */
    method SumForces(p: Vec3) returns (totalForce: Vec3, torque: Vec3)
      ensures totalForce == TotalForce(forces) && torque == TotalTorque(forces, p)
    {
      totalForce, torque := Zero3, Zero3;
      var i := 0;
      while i < |forces|
        invariant 0 <= i <= |forces|
        invariant totalForce == TotalForce(forces[..i])
        invariant torque == TotalTorque(forces[..i], p)
      {
        var force := forces[i];
        assert forces[..i + 1][..i] == forces[..i];
        totalForce := Add(totalForce, force.Get());
        torque := Add(torque, Cross(Sub(force.pos, p), force.Get()));
        i := i + 1;
      }
      assert forces[..i] == forces;
    }

    /** `move`: the translation row grows by `d`; no other entry of the transform changes. */
    method Move(d: Vec3)
      modifies this
      ensures transform == WithTranslation(old(transform), Add(old(GetPos()), d))
      ensures GetPos() == Add(old(GetPos()), d)
      ensures GetRot() == old(GetRot())
      ensures AllButTransformKept()
    {
      transform := transform.(m41 := transform.m41 + d.x, m42 := transform.m42 + d.y, m43 := transform.m43 + d.z);
    }

    /** `moveTo`: the translation row becomes `p`, so `getPos` reads `p` back. */
    method MoveTo(p: Vec3)
      modifies this
      ensures transform == WithTranslation(old(transform), p) && GetPos() == p
      ensures GetRot() == old(GetRot())
      ensures AllButTransformKept()
    {
      transform := transform.(m41 := p.x, m42 := p.y, m43 := p.z);
    }

    /**
     * `rotateTo`: the transform becomes the bare rotation, so the body also
     * goes back to the origin.
     */
    method RotateTo(rotation: Vec3, lib: MathLib)
      modifies this
      ensures transform == Rotation(lib.yawPitchRoll(rotation.y, rotation.x, rotation.z))
      ensures GetPos() == Zero3
      ensures AllButTransformKept()
    {
      transform := Rotation(lib.yawPitchRoll(rotation.y, rotation.x, rotation.z));
    }

    /** `setVelocity`: the linear velocity becomes `v`. */
    method SetVelocity(v: Vec3)
      modifies this
      ensures velocity == v && transform == old(transform) && angularVelocity == old(angularVelocity)
      ensures acceleration == old(acceleration) && angularAcceleration == old(angularAcceleration)
      ensures forces == old(forces) && solid == old(solid) && mesh == old(mesh) && scale == old(scale)
      ensures id == old(id) && inertiaTensor == old(inertiaTensor) && inertiaTensorInverse == old(inertiaTensorInverse)
    {
      velocity := v;
    }

    /** `setAngularVelocity`: the angular velocity becomes `w`. */
    method SetAngularVelocity(w: Vec3)
      modifies this
      ensures angularVelocity == w && transform == old(transform) && velocity == old(velocity)
      ensures acceleration == old(acceleration) && angularAcceleration == old(angularAcceleration)
      ensures forces == old(forces) && solid == old(solid) && mesh == old(mesh) && scale == old(scale)
      ensures id == old(id) && inertiaTensor == old(inertiaTensor) && inertiaTensorInverse == old(inertiaTensorInverse)
    {
      angularVelocity := w;
    }

    /** `addLight`: the light joins the end of the mesh's light list. */
    method AddLight(light: Light)
      modifies mesh
      ensures mesh.lights == old(mesh.lights) + [light]
      ensures mesh.vertices == old(mesh.vertices) && mesh.indices == old(mesh.indices)
      ensures mesh.primitiveType == old(mesh.primitiveType) && mesh.material == old(mesh.material)
      ensures mesh.lineColor == old(mesh.lineColor) && mesh.lineWidth == old(mesh.lineWidth)
      ensures mesh.normals == old(mesh.normals) && mesh.uvs == old(mesh.uvs)
    {
      mesh.AddLight(light);
    }

    /** `paint`: the mesh painted at this body's scale and transform, seen through `camera`. */
    method Paint(camera: Mat4, vp: Viewport, lib: MathLib) returns (p: Painted)
      ensures p == Render(mesh.primitiveType, ClipSpace(mesh.vertices, scale, transform, camera), mesh.indices, vp,
                          mesh.StyleOf(lib))
    {
      p := mesh.Paint(scale, transform, camera, vp, lib);
    }

    /** `addForce`: the force joins the end of the list. */
    method AddForce(f: Force)
      modifies this
      ensures forces == old(forces) + [f] && transform == old(transform) && velocity == old(velocity)
      ensures TotalForce(forces) == Add(old(TotalForce(forces)), f.f)
      ensures acceleration == old(acceleration) && angularVelocity == old(angularVelocity)
      ensures angularAcceleration == old(angularAcceleration)
      ensures id == old(id) && mesh == old(mesh) && scale == old(scale) && solid == old(solid)
      ensures inertiaTensor == old(inertiaTensor) && inertiaTensorInverse == old(inertiaTensorInverse)
    {
      TotalForceAppend(forces, f);
      forces := forces + [f];
    }

    /**
     * `isCollide`: place both vertex lists by their transforms and look for
     * a pair closer than `CollisionDistance`, stopping at the first.
     */
    method IsCollide(other: GameObject, lib: MathLib) returns (hit: bool)
      ensures hit == Touching(lib, Placed(mesh.vertices, transform), Placed(other.mesh.vertices, other.transform))
    {
      var thisVertices := Placed(mesh.vertices, transform);
      var otherVertices := Placed(other.mesh.vertices, other.transform);
      var i := 0;
      while i < |thisVertices|
        invariant 0 <= i <= |thisVertices|
        invariant forall a, b :: 0 <= a < i && 0 <= b < |otherVertices| ==>
          Distance(lib, thisVertices[a], otherVertices[b]) >= CollisionDistance
      {
        var j := 0;
        while j < |otherVertices|
          invariant 0 <= j <= |otherVertices|
          invariant forall a, b :: 0 <= a < i && 0 <= b < |otherVertices| ==>
            Distance(lib, thisVertices[a], otherVertices[b]) >= CollisionDistance
          invariant forall b :: 0 <= b < j ==> Distance(lib, thisVertices[i], otherVertices[b]) >= CollisionDistance
        {
          var distance := Distance(lib, thisVertices[i], otherVertices[j]);
          if distance < CollisionDistance {
            return true;
          }
          j := j + 1;
        }
        i := i + 1;
      }
      return false;
    }
  }

  /** `a.isCollide(b)` and `b.isCollide(a)` agree. */
  lemma IsCollideSymmetric(lib: MathLib, a: GameObject, b: GameObject)
    ensures Touching(lib, Placed(a.mesh.vertices, a.transform), Placed(b.mesh.vertices, b.transform))
        <==> Touching(lib, Placed(b.mesh.vertices, b.transform), Placed(a.mesh.vertices, a.transform))
  {
    TouchingSymmetric(lib, Placed(a.mesh.vertices, a.transform), Placed(b.mesh.vertices, b.transform));
  }

}
