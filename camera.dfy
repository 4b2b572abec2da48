/**
 * Cameras (physics/Camera.cs). Each setter changes one parameter and
 * recomputes the matrix that depends on it: the perspective camera keeps a
 * view and a projection matrix, the flat camera a view and an orthographic
 * matrix. The matrix builders of System.Numerics that need trigonometry are
 * the `MathLib` parameter.
 */
module Cameras {
  import opened Numerics
  import opened Meshes

  /** MathF.PI as a single-precision value. */
  const FloatPi: real := 3.14159274

  /** The default field of view: 45 degrees in radians, from the single-precision pi. */
  const DefaultFov: real := 45.0 * FloatPi / 180.0

  /** The widest field of view `zoom` allows. */
  const MaxFov: real := 3.1415926

  /** The narrowest field of view `zoom` allows. */
  const MinFov: real := 0.1

  // ---------------------------------------------------------------------
  // Camera3D

  /** `updateViewMatrix`: rotate by yaw = rotation.Y, pitch = rotation.X, roll = rotation.Z, after moving the world by −position. */
  function View(position: Vec3, rotation: Vec3, lib: MathLib): Mat4
  {
    Mul(Rotation(lib.yawPitchRoll(rotation.y, rotation.x, rotation.z)), Translation(Neg(position)))
  }

  /** Whatever the rotation, the view matrix's translation row is −position: the rotation does not disturb it. */
  lemma {:induction false} ViewMovesWorldBack(position: Vec3, rotation: Vec3, lib: MathLib)
    ensures TranslationOf(View(position, rotation, lib)) == Neg(position)
    ensures View(position, rotation, lib).m44 == 1.0
  {
    MulKeepsTranslationRow(Rotation(lib.yawPitchRoll(rotation.y, rotation.x, rotation.z)), Translation(Neg(position)));
  }

  /** How far `zoom` narrows the field of view for a wheel offset: `offset / 5000`. */
  function FovStep(offset: real): real
  {
    offset / 5000.0
  }

  /** The two `if`s of `zoom`: first cap at `MaxFov`, then raise to `MinFov`. */
  function ClampFov(fov: real): (r: real)
    ensures MinFov <= r <= MaxFov
    ensures MinFov <= fov <= MaxFov ==> r == fov
    ensures fov > MaxFov ==> r == MaxFov
    ensures fov < MinFov ==> r == MinFov
  {
    var capped := if fov > MaxFov then MaxFov else fov;
    if capped < MinFov then MinFov else capped
  }

  /** A wider field of view before clamping is never narrower after. */
  lemma ClampFovMonotone(a: real, b: real)
    requires a <= b
    ensures ClampFov(a) <= ClampFov(b)
  {
  }

  /** The camera that looks at the 3-D scene through a perspective projection. */
  class Camera3D {
    var position: Vec3
    var rotation: Vec3
    var fov: real
    var aspect: Float32
    var near: real
    var far: real
    var viewMatrix: Mat4
    var projectionMatrix: Mat4

    /** `Camera3D()`: the field initialisers; both matrices stay zero until a setter runs. */
    constructor ()
      ensures position == Zero3 && rotation == Zero3 && fov == DefaultFov
      ensures aspect == Finite(1.0) && near == 0.1 && far == 1000.0
      ensures viewMatrix == ZeroMatrix && projectionMatrix == ZeroMatrix
    {
      position, rotation, fov := Zero3, Zero3, DefaultFov;
      aspect, near, far := Finite(1.0), 0.1, 1000.0;
      viewMatrix, projectionMatrix := ZeroMatrix, ZeroMatrix;
    }

    /** `Camera3D(position, rotation, fov, aspect, near, far)`: the parameters, then both matrices built from them. */
    constructor WithParameters(position: Vec3, rotation: Vec3, fov: real, aspect: real, near: real, far: real,
                               lib: MathLib)
      ensures this.position == position && this.rotation == rotation && this.fov == fov
      ensures this.aspect == Finite(aspect) && this.near == near && this.far == far
      ensures viewMatrix == View(position, rotation, lib)
      ensures projectionMatrix == lib.perspective(fov, Finite(aspect), near, far)
    {
      this.position, this.rotation, this.fov := position, rotation, fov;
      this.aspect, this.near, this.far := Finite(aspect), near, far;
      viewMatrix := View(position, rotation, lib);
      projectionMatrix := lib.perspective(fov, Finite(aspect), near, far);
    }

    /** `updateViewMatrix`: the view of the current position and rotation, stored and returned. */
    method UpdateViewMatrix(lib: MathLib) returns (m: Mat4)
      modifies this
      ensures m == viewMatrix == View(position, rotation, lib)
      ensures position == old(position) && rotation == old(rotation) && fov == old(fov) && aspect == old(aspect)
      ensures near == old(near) && far == old(far) && projectionMatrix == old(projectionMatrix)
    {
      viewMatrix := View(position, rotation, lib);
      m := viewMatrix;
    }

    /** `updateProjectionMatrix` with its lock taken: the perspective of the current parameters, stored and returned. */
    method UpdateProjectionMatrix(lib: MathLib) returns (m: Mat4)
      modifies this
      ensures m == projectionMatrix == lib.perspective(fov, aspect, near, far)
      ensures position == old(position) && rotation == old(rotation) && fov == old(fov) && aspect == old(aspect)
      ensures near == old(near) && far == old(far) && viewMatrix == old(viewMatrix)
    {
      projectionMatrix := lib.perspective(fov, aspect, near, far);
      m := projectionMatrix;
    }

    /** `getAllTransform`: the view followed by the projection. */
    function GetAllTransform(): Mat4
      reads this
    {
      Mul(viewMatrix, projectionMatrix)
    }

    /** `move`: the position grows by `offset`; the view follows and the projection is untouched. */
    method Move(offset: Vec3, lib: MathLib)
      modifies this
      ensures position == Add(old(position), offset) && rotation == old(rotation)
      ensures viewMatrix == View(position, rotation, lib) && TranslationOf(viewMatrix) == Neg(position)
      ensures fov == old(fov) && aspect == old(aspect) && near == old(near) && far == old(far)
      ensures projectionMatrix == old(projectionMatrix)
    {
      position := Add(position, offset);
      var _ := UpdateViewMatrix(lib);
      ViewMovesWorldBack(position, rotation, lib);
    }

    /** `moveTo`: the position becomes `p`; the view follows and the projection is untouched. */
    method MoveTo(p: Vec3, lib: MathLib)
      modifies this
      ensures position == p && rotation == old(rotation)
      ensures viewMatrix == View(position, rotation, lib) && TranslationOf(viewMatrix) == Neg(p)
      ensures fov == old(fov) && aspect == old(aspect) && near == old(near) && far == old(far)
      ensures projectionMatrix == old(projectionMatrix)
    {
      position := p;
      var _ := UpdateViewMatrix(lib);
      ViewMovesWorldBack(position, rotation, lib);
    }

    /** `rotate`: the angles grow by `offset`; the view follows, and its translation row is still −position. */
    method Rotate(offset: Vec3, lib: MathLib)
      modifies this
      ensures rotation == Add(old(rotation), offset) && position == old(position)
      ensures viewMatrix == View(position, rotation, lib) && TranslationOf(viewMatrix) == Neg(position)
      ensures fov == old(fov) && aspect == old(aspect) && near == old(near) && far == old(far)
      ensures projectionMatrix == old(projectionMatrix)
    {
      rotation := Add(rotation, offset);
      var _ := UpdateViewMatrix(lib);
      ViewMovesWorldBack(position, rotation, lib);
    }

    /** `rotateTo`: the angles become `r`; the view follows, and its translation row is still −position. */
    method RotateTo(r: Vec3, lib: MathLib)
      modifies this
      ensures rotation == r && position == old(position)
      ensures viewMatrix == View(position, rotation, lib) && TranslationOf(viewMatrix) == Neg(position)
      ensures fov == old(fov) && aspect == old(aspect) && near == old(near) && far == old(far)
      ensures projectionMatrix == old(projectionMatrix)
    {
      rotation := r;
      var _ := UpdateViewMatrix(lib);
      ViewMovesWorldBack(position, rotation, lib);
    }

    /**
     * `zoom` with its lock taken: narrow the field of view by offset/5000,
     * clamp it to [`MinFov`, `MaxFov`] and rebuild the projection.
     */
    method Zoom(offset: real, lib: MathLib)
      modifies this
      ensures fov == ClampFov(old(fov) - FovStep(offset))
      ensures MinFov <= fov <= MaxFov
      ensures MinFov <= old(fov) - FovStep(offset) <= MaxFov ==> fov == old(fov) - FovStep(offset)
      ensures projectionMatrix == lib.perspective(fov, aspect, near, far)
      ensures position == old(position) && rotation == old(rotation) && aspect == old(aspect)
      ensures near == old(near) && far == old(far) && viewMatrix == old(viewMatrix)
    {
      fov := fov - FovStep(offset);
      if fov > MaxFov {
        fov := MaxFov;
      }
      if fov < MinFov {
        fov := MinFov;
      }
      var _ := UpdateProjectionMatrix(lib);
    }

    /**
     * `resize`: the aspect becomes width/height in single precision (an
     * infinity or NaN when the height is zero); the projection is rebuilt
     * only when that aspect is at least zero.
     */
    method Resize(width: int, height: int, lib: MathLib)
      modifies this
      ensures aspect == IntQuotient(width, height)
      ensures AtLeastZero(aspect) ==> projectionMatrix == lib.perspective(fov, aspect, near, far)
      ensures !AtLeastZero(aspect) ==> projectionMatrix == old(projectionMatrix)
      ensures position == old(position) && rotation == old(rotation) && fov == old(fov)
      ensures near == old(near) && far == old(far) && viewMatrix == old(viewMatrix)
    {
      aspect := IntQuotient(width, height);
      if AtLeastZero(aspect) {
        projectionMatrix := UpdateProjectionMatrix(lib);
      }
    }
  }

  /** A panel of positive size gives a positive aspect, so `resize` rebuilds the projection. */
  lemma ResizeRebuildsOnPanel(width: int, height: int)
    requires width > 0 && height > 0
    ensures AtLeastZero(IntQuotient(width, height)) && IntQuotient(width, height).value > 0.0
  {
    assert width as real / height as real > 0.0;
  }

  // ---------------------------------------------------------------------
  // Camera2D

  /** C#'s `n / 2` on `int`: the quotient truncated toward zero. */
  function Half(n: int): int
  {
    if n >= 0 then n / 2 else -((-n) / 2)
  }

  /** Truncation toward zero makes halving odd: `-w / 2` is exactly `-(w / 2)`, so the bounds are symmetric. */
  lemma HalfOdd(n: int)
    ensures Half(-n) == -Half(n)
    ensures 0 <= n ==> 0 <= Half(n) && 2 * Half(n) <= n < 2 * Half(n) + 2
  {
  }

  /** `getViewMatrix`: move the world by −position, then turn it about Z by `rotation`. */
  function View2D(position: Vec3, rotation: real, lib: MathLib): Mat4
  {
    Mul(Translation(Neg(position)), Rotation(lib.rotationZ(rotation)))
  }

  /** `getOthergraphicMatrix`: the off-centre box ±(width/2) by ±(height/2) in integer halves, and the depth range. */
  function Orthographic(width: int, height: int, near: real, far: real): Mat4
  {
    OrthographicOffCenter(Half(-width) as real, Half(width) as real, Half(-height) as real, Half(height) as real,
                          near, far)
  }

  /**
   * The panel's box is centred on the view's origin: the translation row
   * of the orthographic matrix has zero X and Y, so the camera's position
   * lands in the middle of the panel.
   */
  lemma OrthographicCentred(width: int, height: int, near: real, far: real)
    ensures Orthographic(width, height, near, far).m41 == 0.0
    ensures Orthographic(width, height, near, far).m42 == 0.0
  {
    HalfOdd(width);
    HalfOdd(height);
  }

  /** What `move` and `moveTo` write: M41 and M42 of the view, nothing else. */
  function EditedView(v: Mat4, position: Vec3): (r: Mat4)
    ensures r.m41 == -position.x && r.m42 == -position.y
    ensures r.(m41 := v.m41, m42 := v.m42) == v
  {
    v.(m41 := -position.x, m42 := -position.y)
  }

  /**
   * The two entries `move` and `moveTo` edit agree with a full rebuild of
   * the view exactly in the unrotated case with no change of depth: with no
   * rotation, editing a rebuilt view gives the rebuilt view of the new
   * position.
   */
  lemma EditedViewUnrotated(old_position: Vec3, position: Vec3, rotation: real, lib: MathLib)
    requires lib.rotationZ(rotation) == Mat3(1.0, 0.0, 0.0, 0.0, 1.0, 0.0, 0.0, 0.0, 1.0)
    requires position.z == old_position.z
    ensures EditedView(View2D(old_position, rotation, lib), position) == View2D(position, rotation, lib)
  {
  }

  /**
   * `getAllTransform` as written: the field is zero from construction on,
   * so every vertex of every body lands on the zero vector, W included,
   * whatever the body's scale and transform.
   */
  lemma FlatTransformCollapses(c: Camera2D, v: Vec3, scale: Vec3, transform: Mat4)
    requires c.transform == ZeroMatrix
    ensures ClipPoint(v, scale, transform, c.GetAllTransform()) == Vec4(0.0, 0.0, 0.0, 0.0)
  {
  }

  /**
   * With the combined transform, a vertex reaches clip space by the view
   * and then the orthographic box, one after the other.
   */
  lemma {:induction false} CombinedTransformComposes(c: Camera2D, v: Vec3, scale: Vec3, transform: Mat4)
    ensures var placed := Transform4(Transform4(Vec4(v.x, v.y, v.z, 1.0), ScaleMatrix(scale)), transform);
      ClipPoint(v, scale, transform, c.CombinedTransform())
      == Transform4(Transform4(placed, c.viewMatrix), c.orthographicMatrix)
  {
    var placed := Transform4(Transform4(Vec4(v.x, v.y, v.z, 1.0), ScaleMatrix(scale)), transform);
    Transform4Mul(placed, c.viewMatrix, c.orthographicMatrix);
  }

  /** The same holds for the perspective camera's `getAllTransform`: view, then projection. */
  lemma {:induction false} PerspectiveTransformComposes(c: Camera3D, v: Vec3, scale: Vec3, transform: Mat4)
    ensures var placed := Transform4(Transform4(Vec4(v.x, v.y, v.z, 1.0), ScaleMatrix(scale)), transform);
      ClipPoint(v, scale, transform, c.GetAllTransform())
      == Transform4(Transform4(placed, c.viewMatrix), c.projectionMatrix)
  {
    var placed := Transform4(Transform4(Vec4(v.x, v.y, v.z, 1.0), ScaleMatrix(scale)), transform);
    Transform4Mul(placed, c.viewMatrix, c.projectionMatrix);
  }

  /** The camera of the flat scene: a view turned about Z and an orthographic box of the panel's size. */
  class Camera2D {
    var position: Vec3
    var rotation: real
    var scale: real
    var width: int
    var height: int
    var aspect: real
    var near: real
    var far: real
    var viewMatrix: Mat4
    var orthographicMatrix: Mat4
    var transform: Mat4

    /** `Camera2D()`: the field initialisers and the position (0, 0, 30); every matrix stays zero. */
    constructor ()
      ensures position == Vec3(0.0, 0.0, 30.0) && rotation == 0.0 && scale == 1.0
      ensures width == 800 && height == 600 && aspect == 1.0 && near == 0.0 && far == 1000.0
      ensures viewMatrix == orthographicMatrix == transform == ZeroMatrix
    {
      position, rotation, scale := Vec3(0.0, 0.0, 30.0), 0.0, 1.0;
      width, height, aspect, near, far := 800, 600, 1.0, 0.0, 1000.0;
      viewMatrix, orthographicMatrix, transform := ZeroMatrix, ZeroMatrix, ZeroMatrix;
    }

    /** `Camera2D(position, rotation, scale, width, height, near, far)`: the parameters, the view, then the orthographic box. */
    constructor WithParameters(position: Vec3, rotation: real, scale: real, width: int, height: int,
                               near: real, far: real, lib: MathLib)
      ensures this.position == position && this.rotation == rotation && this.scale == scale
      ensures this.width == width && this.height == height && aspect == 1.0 && this.near == near && this.far == far
      ensures viewMatrix == View2D(position, rotation, lib)
      ensures orthographicMatrix == Orthographic(width, height, near, far)
      ensures transform == ZeroMatrix
    {
      this.position, this.rotation, this.scale := position, rotation, scale;
      aspect, this.near, this.far := 1.0, near, far;
      viewMatrix := View2D(position, rotation, lib);
      this.width, this.height := width, height;
      orthographicMatrix := Orthographic(width, height, near, far);
      transform := ZeroMatrix;
    }

    /** `getAllTransform`: the `transform` field, which no method assigns. */
    function GetAllTransform(): Mat4
      reads this
    {
      transform
    }

    /**
     * The total transform the `transform` field is declared for, built the
     * way the perspective camera builds its own: the view followed by the
     * orthographic box.
     */
    function CombinedTransform(): Mat4
      reads this
    {
      Mul(viewMatrix, orthographicMatrix)
    }

    /** `move`: the position grows by `offset`, and only M41 and M42 of the view follow it. */
    method Move(offset: Vec3)
      modifies this
      ensures position == Add(old(position), offset)
      ensures viewMatrix == EditedView(old(viewMatrix), position)
      ensures rotation == old(rotation) && scale == old(scale) && width == old(width) && height == old(height)
      ensures orthographicMatrix == old(orthographicMatrix) && transform == old(transform)
      ensures aspect == old(aspect) && near == old(near) && far == old(far)
    {
      position := Add(position, offset);
      viewMatrix := viewMatrix.(m41 := -position.x);
      viewMatrix := viewMatrix.(m42 := -position.y);
    }

    /** `moveTo`: the position becomes `p`, and only M41 and M42 of the view follow it. */
    method MoveTo(p: Vec3)
      modifies this
      ensures position == p
      ensures viewMatrix == EditedView(old(viewMatrix), p)
      ensures rotation == old(rotation) && scale == old(scale) && width == old(width) && height == old(height)
      ensures orthographicMatrix == old(orthographicMatrix) && transform == old(transform)
      ensures aspect == old(aspect) && near == old(near) && far == old(far)
    {
      position := p;
      viewMatrix := viewMatrix.(m41 := -position.x);
      viewMatrix := viewMatrix.(m42 := -position.y);
    }

    /** `rotate`: the angle grows by `offset` and the view is rebuilt. */
    method Rotate(offset: real, lib: MathLib)
      modifies this
      ensures rotation == old(rotation) + offset && viewMatrix == View2D(position, rotation, lib)
      ensures position == old(position) && scale == old(scale) && width == old(width) && height == old(height)
      ensures orthographicMatrix == old(orthographicMatrix) && transform == old(transform)
      ensures aspect == old(aspect) && near == old(near) && far == old(far)
    {
      rotation := rotation + offset;
      viewMatrix := View2D(position, rotation, lib);
    }

    /** `rotateTo`: the angle becomes `r` and the view is rebuilt. */
    method RotateTo(r: real, lib: MathLib)
      modifies this
      ensures rotation == r && viewMatrix == View2D(position, rotation, lib)
      ensures position == old(position) && scale == old(scale) && width == old(width) && height == old(height)
      ensures orthographicMatrix == old(orthographicMatrix) && transform == old(transform)
      ensures aspect == old(aspect) && near == old(near) && far == old(far)
    {
      rotation := r;
      viewMatrix := View2D(position, rotation, lib);
    }

    /**
     * `zoom`: the scale grows by `offset` and the orthographic box is
     * rebuilt — from the width, height and depth range only, so the zoom
     * never reaches it.
     */
    method Zoom(offset: real)
      modifies this
      ensures scale == old(scale) + offset
      ensures orthographicMatrix == Orthographic(width, height, near, far)
      ensures old(orthographicMatrix) == Orthographic(width, height, near, far) ==>
        orthographicMatrix == old(orthographicMatrix)
      ensures position == old(position) && rotation == old(rotation) && width == old(width) && height == old(height)
      ensures near == old(near) && far == old(far) && viewMatrix == old(viewMatrix) && transform == old(transform)
      ensures aspect == old(aspect)
    {
      scale := scale + offset;
      orthographicMatrix := Orthographic(width, height, near, far);
    }

    /** `resize`: the panel's new size and the orthographic box rebuilt for it. */
    method Resize(width: int, height: int)
      modifies this
      ensures this.width == width && this.height == height
      ensures orthographicMatrix == Orthographic(width, height, near, far)
      ensures position == old(position) && rotation == old(rotation) && scale == old(scale)
      ensures near == old(near) && far == old(far) && viewMatrix == old(viewMatrix) && transform == old(transform)
      ensures aspect == old(aspect)
    {
      this.width, this.height := width, height;
      orthographicMatrix := Orthographic(width, height, near, far);
    }
  }
}
