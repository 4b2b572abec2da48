/**
 * Forces (physics/physics.cs). A force is a vector `f` applied at a local
 * point `pos`, registered under a fresh id in the process-wide force map.
 * Gravity is a force whose vector is G times its mass; since the model has
 * no inheritance, a `Gravity` holds the `Force` it extends as `base`.
 */
module Physics {
  import opened Numerics
  import opened Ids

  /** The name a force gets when its constructor is not given one. */
  const DefaultName: string := "未命名力"

  class Force {
    var name: string
    var id: int
    var f: Vec3
    var pos: Vec3

    /**
     * The constructors: each overload is this one with the arguments it
     * omits at their defaults (`DefaultName`, a zero vector, the origin).
     * The force then registers itself under a fresh id.
     */
    constructor (name: string, f: Vec3, pos: Vec3, registry: Registry<Force>)
      requires registry.HasRoom()
      modifies registry
      ensures this.name == name && this.f == f && this.pos == pos
      ensures 1 <= id < MaxId && id !in old(registry.idMap)
      ensures registry.idMap == old(registry.idMap)[id := this]
    {
      this.name, this.f, this.pos := name, f, pos;
      id := 0;
      new;
      ArrangeId(registry);
    }

    /** `arrangeID`: draw ids until one is free, keep it and map it to this force. */
    method ArrangeId(registry: Registry<Force>)
      requires registry.HasRoom()
      modifies this, registry
      ensures 1 <= id < MaxId && id !in old(registry.idMap)
      ensures registry.idMap == old(registry.idMap)[id := this]
      ensures name == old(name) && f == old(f) && pos == old(pos)
    {
      id := registry.Register(this);
    }

    function Get(): Vec3
      reads this
    {
      f
    }

    method Set(v: Vec3)
      modifies this
      ensures Get() == v && pos == old(pos) && name == old(name) && id == old(id)
    {
      f := v;
    }

    /** `add`: the force grows by `v`. */
    method Add(v: Vec3)
      modifies this
      ensures Get() == Numerics.Add(old(Get()), v)
      ensures pos == old(pos) && name == old(name) && id == old(id)
    {
      f := Numerics.Add(f, v);
    }

    method SetPos(p: Vec3)
      modifies this
      ensures pos == p && f == old(f) && name == old(name) && id == old(id)
    {
      pos := p;
    }

    /** `clear`: the zero vector. */
    method Clear()
      modifies this
      ensures Get() == Zero3 && pos == old(pos) && name == old(name) && id == old(id)
    {
      f := Zero3;
    }

    /** `getTorque`: pos × f, which is at right angles to both the lever and the force. */
    function GetTorque(): (t: Vec3)
      reads this
      ensures t == Cross(pos, f)
      ensures Dot(t, pos) == 0.0 && Dot(t, f) == 0.0
    {
      CrossOrthogonal(pos, f);
      Cross(pos, f)
    }
  }

  /** Gravitational acceleration `G`. */
  const G: Vec3 := Vec3(0.0, -9.8, 0.0)

  /** The name `Gravity` gives its base force. */
  const GravityName: string := "重力"

  class Gravity {
    const base: Force
    var mass: real

    /** `new Gravity(mass)`: a force named `GravityName` of G·mass, and the mass. */
    constructor (mass: real, registry: Registry<Force>)
      requires registry.HasRoom()
      modifies registry
      ensures this.mass == mass && fresh(base)
      ensures base.name == GravityName && base.Get() == Scale(G, mass) && base.pos == Zero3
      ensures 1 <= base.id < MaxId && base.id !in old(registry.idMap)
      ensures registry.idMap == old(registry.idMap)[base.id := base]
    {
      base := new Force(GravityName, Scale(G, mass), Zero3, registry);
      this.mass := mass;
    }

    /** `setMass`: the new mass, and the base force reset to G·mass. */
    method SetMass(mass: real)
      modifies this, base
      ensures this.mass == mass && base.Get() == Scale(G, mass) && base.Get() == Get()
      ensures base.pos == old(base.pos) && base.name == old(base.name) && base.id == old(base.id)
    {
      this.mass := mass;
      base.Set(Scale(G, mass));
    }

    /**
     * `Gravity.get` (which hides `Force.get`): straight down with magnitude
     * 9.8·mass. It reads only the mass, so whatever `add` or `set` did to
     * the base force does not show here.
     */
    function Get(): (g: Vec3)
      reads this
      ensures g.x == 0.0 && g.z == 0.0 && g.y == -9.8 * mass
    {
      Scale(G, mass)
    }
  }
}
