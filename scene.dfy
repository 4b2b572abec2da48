/**
 * The scene (game/Scene.cs): an ordered list of bodies, one camera of each
 * kind, and a flag that picks the camera the viewer's gestures reach.
 */
module Scenes {
  import opened Numerics
  import opened Lists
  import opened GameObjects
  import opened Cameras

  /** The camera `getCamera` hands out: the perspective one in a 3-D scene, the flat one otherwise. */
  datatype ActiveCamera = Perspective(perspective: Camera3D) | Flat(flat: Camera2D)

  /** How many times `x` is listed in `s`. */
  function Count<T(==)>(s: seq<T>, x: T): nat
  {
    if s == [] then 0 else Count(s[..|s| - 1], x) + if s[|s| - 1] == x then 1 else 0
  }

  /** Listing one more entry counts it once more and leaves every other count alone. */
  lemma CountPush<T>(s: seq<T>, i: nat, x: T)
    requires i < |s|
    ensures Count(s[..i + 1], x) == Count(s[..i], x) + if s[i] == x then 1 else 0
  {
    assert s[..i + 1][..i] == s[..i];
  }

  /** `Count` is the multiplicity of `x` in the multiset of `s`. */
  lemma {:induction false} CountMultiplicity<T>(s: seq<T>, x: T)
    ensures Count(s, x) == multiset(s)[x]
  {
    if s != [] {
      CountMultiplicity(s[..|s| - 1], x);
      assert s == s[..|s| - 1] + [s[|s| - 1]];
    }
  }

  class Scene {
    var gameObjects: seq<GameObject>
    const camera2d: Camera2D
    const camera3d: Camera3D
    const frameRate: int
    const is3D: bool

    /**
     * `Scene(is3D, frameRate)`: no bodies, a flat camera at (0, 0, 5) on an
     * 800×600 panel, and a perspective camera at (0, 0, 7.5) with a 45°
     * field of view.
     */
    constructor (is3D: bool, frameRate: int, lib: MathLib)
      ensures this.is3D == is3D && this.frameRate == frameRate && gameObjects == []
      ensures fresh(camera2d) && fresh(camera3d)
      ensures camera2d.position == Vec3(0.0, 0.0, 5.0) && camera2d.rotation == 0.0 && camera2d.scale == 1.0
      ensures camera2d.width == 800 && camera2d.height == 600 && camera2d.near == 0.1 && camera2d.far == 1000.0
      ensures camera2d.viewMatrix == View2D(camera2d.position, 0.0, lib)
      ensures camera2d.orthographicMatrix == Orthographic(800, 600, 0.1, 1000.0)
      ensures camera3d.position == Vec3(0.0, 0.0, 7.5) && camera3d.rotation == Zero3 && camera3d.fov == DefaultFov
      ensures camera3d.aspect == Finite(1.0) && camera3d.near == 0.1 && camera3d.far == 1000.0
      ensures camera3d.viewMatrix == View(camera3d.position, Zero3, lib)
      ensures camera3d.projectionMatrix == lib.perspective(DefaultFov, Finite(1.0), 0.1, 1000.0)
    {
      this.is3D, this.frameRate := is3D, frameRate;
      gameObjects := [];
      camera2d := new Camera2D.WithParameters(Vec3(0.0, 0.0, 5.0), 0.0, 1.0, 800, 600, 0.1, 1000.0, lib);
      camera3d := new Camera3D.WithParameters(Vec3(0.0, 0.0, 7.5), Zero3, DefaultFov, 1.0, 0.1, 1000.0, lib);
    }

    /** `AddGameObject`: the body goes to the end of the list. */
    method AddGameObject(o: GameObject)
      modifies this
      ensures gameObjects == old(gameObjects) + [o] && |gameObjects| == |old(gameObjects)| + 1
    {
      gameObjects := gameObjects + [o];
    }

    /** `RemoveGameObject`: `List.Remove`, which drops the first occurrence only. */
    method RemoveGameObject(o: GameObject)
      modifies this
      ensures gameObjects == RemoveFirst(old(gameObjects), o)
      ensures multiset(gameObjects) == multiset(old(gameObjects)) - multiset{o}
      ensures o !in old(gameObjects) ==> gameObjects == old(gameObjects)
    {
      RemoveFirstMultiset(gameObjects, o);
      gameObjects := RemoveFirst(gameObjects, o);
    }

    /** `GetGameObjects`: the body list, as it stands. */
    function GetGameObjects(): seq<GameObject>
      reads this
    {
      gameObjects
    }

    /** `ClearGameObjects`: no bodies left. */
    method ClearGameObjects()
      modifies this
      ensures gameObjects == []
    {
      gameObjects := [];
    }

    /**
     * `Update`: walk a copy of the list taken on entry and update every body
     * in it, in order, with its lock taken. `calls` records the bodies
     * updated. A body listed `n` times ends `n` ticks on from where it
     * started, its forcing is kept, and its force list, mesh, scale, id and
     * inertia tensor are untouched (`Fixed`); the bodies of
     * the list are all the method changes.
     */
    method Update(time: real, lib: MathLib) returns (ghost calls: seq<GameObject>)
      modifies set o | o in gameObjects
      ensures calls == old(gameObjects) && gameObjects == old(gameObjects)
      ensures forall o: GameObject :: o in calls ==>
        o.State() == Ticks(old(o.Forcing()), old(o.State()), Count(calls, o), time, true, lib)
      ensures forall o: GameObject :: o in calls ==> o.Forcing() == old(o.Forcing())
      ensures forall o: GameObject :: o in calls ==> o.Fixed() == old(o.Fixed())
    {
      var snapshot := gameObjects;
      var i := 0;
      while i < |snapshot|
        invariant 0 <= i <= |snapshot|
        invariant forall o: GameObject :: o in snapshot ==>
          o.Forcing() == old(o.Forcing()) && o.Fixed() == old(o.Fixed()) &&
          o.State() == Ticks(old(o.Forcing()), old(o.State()), Count(snapshot[..i], o), time, true, lib)
      {
        var o := snapshot[i];
        assert o in snapshot;
        ghost var m := o.State();
        label Before:
        UpdateObject(o, time, lib);
        forall x: GameObject | x in snapshot
          ensures x.Forcing() == old(x.Forcing()) && x.Fixed() == old(x.Fixed())
          ensures x.State() == Ticks(old(x.Forcing()), old(x.State()), Count(snapshot[..i + 1], x), time, true, lib)
        {
          assert x.Forcing() == old@Before(x.Forcing()) && x.Fixed() == old@Before(x.Fixed());
          CountPush(snapshot, i, x);
          if x == o {
            TickOnMore(old(o.Forcing()), old(o.State()), Count(snapshot[..i], o), m, time, true, lib);
          }
        }
        i := i + 1;
      }
      assert snapshot[..i] == snapshot;
      calls := snapshot[..i];
      forall o: GameObject | o in calls
        ensures o.State() == Ticks(old(o.Forcing()), old(o.State()), Count(calls, o), time, true, lib)
      {
        assert o in snapshot;
      }
    }

    /**
     * One pass of `Update`'s loop: the 3-D and the 2-D branch both update
     * the body alike, so it moves one tick on and keeps its forcing, its
     * force list, mesh, scale, id and inertia tensor.
     */
    method UpdateObject(o: GameObject, time: real, lib: MathLib)
      modifies o
      ensures o.State() == old(o.Next(time, true, lib))
      ensures o.Forcing() == old(o.Forcing())
      ensures o.forces == old(o.forces) && o.mesh == old(o.mesh) && o.scale == old(o.scale)
      ensures o.id == old(o.id) && o.inertiaTensor == old(o.inertiaTensor) && o.Fixed() == old(o.Fixed())
    {
      if is3D {
        o.Update(time, true, lib);
      } else {
        o.Update(time, true, lib);
      }
    }

    /** `rotate`: its body is commented out, so it changes nothing. */
    method Rotate(dx: int, dy: int)
      ensures gameObjects == old(gameObjects)
    {
    }

    /** `Resize`: the active camera takes the new panel size; the other camera is untouched. */
    method Resize(width: int, height: int, lib: MathLib)
      modifies camera2d, camera3d
      ensures is3D ==> camera3d.aspect == IntQuotient(width, height) && unchanged(camera2d)
      ensures is3D && AtLeastZero(camera3d.aspect) ==>
        camera3d.projectionMatrix == lib.perspective(camera3d.fov, camera3d.aspect, camera3d.near, camera3d.far)
      ensures is3D && !AtLeastZero(camera3d.aspect) ==> camera3d.projectionMatrix == old(camera3d.projectionMatrix)
      ensures is3D ==> unchanged(camera3d`position, camera3d`rotation, camera3d`fov, camera3d`near, camera3d`far,
                                 camera3d`viewMatrix)
      ensures !is3D ==> camera2d.width == width && camera2d.height == height && unchanged(camera3d)
      ensures !is3D ==> camera2d.orthographicMatrix == Orthographic(width, height, camera2d.near, camera2d.far)
      ensures !is3D ==> unchanged(camera2d`position, camera2d`rotation, camera2d`scale, camera2d`aspect,
                                  camera2d`near, camera2d`far, camera2d`viewMatrix, camera2d`transform)
    {
      if is3D {
        camera3d.Resize(width, height, lib);
      } else {
        camera2d.Resize(width, height);
      }
    }

    /** `zoom`: the active camera zooms by `delta`; the other camera is untouched. */
    method Zoom(delta: int, lib: MathLib)
      modifies camera2d, camera3d
      ensures is3D ==> camera3d.fov == ClampFov(old(camera3d.fov) - FovStep(delta as real)) && unchanged(camera2d)
      ensures is3D ==>
        camera3d.projectionMatrix == lib.perspective(camera3d.fov, camera3d.aspect, camera3d.near, camera3d.far)
      ensures is3D ==> unchanged(camera3d`position, camera3d`rotation, camera3d`aspect, camera3d`near, camera3d`far,
                                 camera3d`viewMatrix)
      ensures !is3D ==> camera2d.scale == old(camera2d.scale) + delta as real && unchanged(camera3d)
      ensures !is3D ==> camera2d.orthographicMatrix == Orthographic(camera2d.width, camera2d.height,
                                                                  camera2d.near, camera2d.far)
      ensures !is3D ==> unchanged(camera2d`position, camera2d`rotation, camera2d`width, camera2d`height,
                                  camera2d`aspect, camera2d`near, camera2d`far, camera2d`viewMatrix, camera2d`transform)
    {
      if is3D {
        camera3d.Zoom(delta as real, lib);
      } else {
        camera2d.Zoom(delta as real);
      }
    }

    /** `translate`: the active camera moves by `delta`; the other camera is untouched. */
    method Translate(delta: Vec3, lib: MathLib)
      modifies camera2d, camera3d
      ensures is3D ==> camera3d.position == Add(old(camera3d.position), delta) && unchanged(camera2d)
      ensures is3D ==> camera3d.viewMatrix == View(camera3d.position, camera3d.rotation, lib)
      ensures is3D ==> TranslationOf(camera3d.viewMatrix) == Neg(camera3d.position)
      ensures is3D ==> unchanged(camera3d`rotation, camera3d`fov, camera3d`aspect, camera3d`near, camera3d`far,
                                 camera3d`projectionMatrix)
      ensures !is3D ==> camera2d.position == Add(old(camera2d.position), delta) && unchanged(camera3d)
      ensures !is3D ==> camera2d.viewMatrix == EditedView(old(camera2d.viewMatrix), camera2d.position)
      ensures !is3D ==> unchanged(camera2d`rotation, camera2d`scale, camera2d`width, camera2d`height, camera2d`aspect,
                                  camera2d`near, camera2d`far, camera2d`orthographicMatrix, camera2d`transform)
    {
      if is3D {
        camera3d.Move(delta, lib);
      } else {
        camera2d.Move(delta);
      }
    }

    /**
     * The matrix `Render` hands every body's `paint`: the perspective
     * camera's view and projection in a 3-D scene, and the flat camera's
     * view and orthographic box otherwise (where the source passes the
     * never-assigned `transform` field, which is zero).
     */
    function RenderTransform(): (m: Mat4)
      reads camera2d, camera3d
      ensures is3D ==> m == Mul(camera3d.viewMatrix, camera3d.projectionMatrix)
      ensures !is3D ==> m == Mul(camera2d.viewMatrix, camera2d.orthographicMatrix)
    {
      if is3D then camera3d.GetAllTransform() else camera2d.CombinedTransform()
    }

    /** `getCamera`: the camera `is3D` selects. */
    function GetCamera(): (c: ActiveCamera)
      ensures c.Perspective? <==> is3D
      ensures c.Perspective? ==> c.perspective == camera3d
      ensures c.Flat? ==> c.flat == camera2d
    {
      if is3D then Perspective(camera3d) else Flat(camera2d)
    }
  }
}
