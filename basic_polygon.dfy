/**
 * Ready-made bodies (physics/GameObjects/BasicPolygon.cs): a unit square
 * in the XZ plane, a unit cube, a triangle through three screen dots, and a
 * cloud of points. Each is a `GameObject` of mass 1 with a fresh mesh; the
 * vertex tables and the per-topology index tables are constants, and
 * `setPrimitiveType` swaps the index list for the table of the new topology.
 * The source derives each shape from `GameObject`; here each shape holds
 * its body as `body`.
 */
module BasicPolygons {
  import opened Numerics
  import opened Ids
  import opened Meshes
  import opened Physics
  import opened GameObjects

  // ---------------------------------------------------------------------
  // Geometry checks on the tables

  /** Two corners of a box joined by an edge: exactly one coordinate differs. */
  predicate OneCoordinateApart(p: Vec3, q: Vec3)
  {
    || (p.x != q.x && p.y == q.y && p.z == q.z)
    || (p.x == q.x && p.y != q.y && p.z == q.z)
    || (p.x == q.x && p.y == q.y && p.z != q.z)
  }

  /** Four corners in one axis-aligned plane. */
  predicate Flat(p: Vec3, q: Vec3, r: Vec3, s: Vec3)
  {
    || (p.x == q.x == r.x == s.x)
    || (p.y == q.y == r.y == s.y)
    || (p.z == q.z == r.z == s.z)
  }

  /** The table fits the painter of its topology: whole groups, and every index names a vertex. */
  predicate FitsTopology(t: PrimitiveType, indices: seq<int>, n: nat)
  {
    && (t != LineStrip && t != PointList ==> |indices| % Stride(t) == 0)
    && AllIndicesIn(indices, 0, n)
  }

  /** A table that fits its topology paints without an out-of-range access, whatever the vertices' positions. */
  lemma FittingTableNeverFaults(t: PrimitiveType, v4: seq<Vec4>, indices: seq<int>, vp: Viewport, st: Style)
    requires FitsTopology(t, indices, |v4|)
    ensures !Render(t, v4, indices, vp, st).fault
  {
    if t != PointList {
      WalkFaultFree(t, v4, indices, vp, st);
    }
  }

  // ---------------------------------------------------------------------
  // Surface

  /** The unit square in the XZ plane, counter-clockwise from (−½, 0, −½). */
  function SurfaceVertices(): (r: seq<Vec3>)
    ensures |r| == 4 && forall k :: 0 <= k < 4 ==> r[k].y == 0.0
  {
    [Vec3(-0.5, 0.0, -0.5), Vec3(0.5, 0.0, -0.5), Vec3(0.5, 0.0, 0.5), Vec3(-0.5, 0.0, 0.5)]
  }

  /** `Surface.setPrimitiveType`'s tables: two triangles, one quad, four sides, a closed strip, four points. */
  function SurfaceIndices(t: PrimitiveType): (r: seq<int>)
    ensures FitsTopology(t, r, 4)
    ensures |r| == match t
      case TriangleList => 6 case QuadList => 4 case LineList => 8 case LineStrip => 5 case PointList => 4
  {
    match t
    case TriangleList => [0, 1, 2, 0, 2, 3]
    case QuadList => [0, 1, 2, 3]
    case LineList => [0, 1, 1, 2, 2, 3, 3, 0]
    case LineStrip => [0, 1, 2, 3, 0]
    case PointList => [0, 1, 2, 3]
  }

  /** Each side of the square's line list joins two corners one coordinate apart. */
  lemma SurfaceSides()
    ensures var vs, ls := SurfaceVertices(), SurfaceIndices(LineList);
      forall k :: 0 <= k < 4 ==> OneCoordinateApart(vs[ls[2 * k]], vs[ls[2 * k + 1]])
  {
    var vs, ls := SurfaceVertices(), SurfaceIndices(LineList);
    assert OneCoordinateApart(vs[ls[0]], vs[ls[1]]) && OneCoordinateApart(vs[ls[2]], vs[ls[3]]);
    assert OneCoordinateApart(vs[ls[4]], vs[ls[5]]) && OneCoordinateApart(vs[ls[6]], vs[ls[7]]);
  }

  class Surface {
    const body: GameObject

    /**
     * `Surface(primitiveType, solid, position, scale)`: a body of mass 1
     * on a fresh mesh, the square's vertices, the table of `primitiveType`
     * and the given scale.
     */
    constructor (primitiveType: PrimitiveType, solid: bool, position: Vec3, scale: Vec3,
                 registry: Registry<GameObject>, forceRegistry: Registry<Force>)
      requires registry.HasRoom() && forceRegistry.HasRoom()
      modifies registry, forceRegistry
      ensures fresh(body) && fresh(body.mesh) && body.solid == solid && body.GetPos() == position
      ensures body.gravity.mass == 1.0 && body.scale == scale
      ensures body.mesh.vertices == SurfaceVertices()
      ensures body.mesh.primitiveType == primitiveType && body.mesh.indices == SurfaceIndices(primitiveType)
      ensures registry.idMap == old(registry.idMap)[body.id := body]
      ensures 1 <= body.id < MaxId && body.id !in old(registry.idMap)
      ensures 1 <= body.gravity.base.id < MaxId && body.gravity.base.id !in old(forceRegistry.idMap)
      ensures forceRegistry.idMap == old(forceRegistry.idMap)[body.gravity.base.id := body.gravity.base]
      ensures body.transform == WithTranslation(Identity, position) && body.forces == []
      ensures body.velocity == body.acceleration == body.angularVelocity == body.angularAcceleration == Zero3
      ensures body.inertiaTensor == body.inertiaTensorInverse == ZeroMatrix
    {
      var mesh := new Mesh();
      mesh.SetVertices(SurfaceVertices());
      mesh.SetPrimitiveType(primitiveType);
      mesh.SetIndices(SurfaceIndices(primitiveType));
      var b := new GameObject(solid, mesh, 1.0, position, registry, forceRegistry);
      b.scale := scale;
      body := b;
    }

    /** `setPrimitiveType`: the mesh's topology and the matching table; the vertices stay. */
    method SetPrimitiveType(primitiveType: PrimitiveType)
      modifies body.mesh
      ensures body.mesh.primitiveType == primitiveType && body.mesh.indices == SurfaceIndices(primitiveType)
      ensures body.mesh.vertices == old(body.mesh.vertices) && body.mesh.lights == old(body.mesh.lights)
      ensures body.mesh.lineColor == old(body.mesh.lineColor) && body.mesh.lineWidth == old(body.mesh.lineWidth)
      ensures body.mesh.material == old(body.mesh.material) && body.mesh.normals == old(body.mesh.normals)
      ensures body.mesh.uvs == old(body.mesh.uvs)
    {
      body.mesh.SetPrimitiveType(primitiveType);
      body.mesh.SetIndices(SurfaceIndices(primitiveType));
    }
  }

  /** Whatever its topology, a surface's mesh paints without an out-of-range access. */
  lemma SurfaceNeverFaults(t: PrimitiveType, v4: seq<Vec4>, vp: Viewport, st: Style)
    requires |v4| == |SurfaceVertices()|
    ensures !Render(t, v4, SurfaceIndices(t), vp, st).fault
  {
    FittingTableNeverFaults(t, v4, SurfaceIndices(t), vp, st);
  }

  // ---------------------------------------------------------------------
  // Cube

  /** The unit cube's corners: the face z = −½ counter-clockwise, then the face z = +½. */
  function CubeVertices(): (r: seq<Vec3>)
    ensures |r| == 8
    ensures forall k :: 0 <= k < 8 ==>
      (r[k].x == -0.5 || r[k].x == 0.5) && (r[k].y == -0.5 || r[k].y == 0.5) && (r[k].z == -0.5 || r[k].z == 0.5)
  {
    [Vec3(-0.5, -0.5, -0.5), Vec3(0.5, -0.5, -0.5), Vec3(0.5, 0.5, -0.5), Vec3(-0.5, 0.5, -0.5),
     Vec3(-0.5, -0.5, 0.5), Vec3(0.5, -0.5, 0.5), Vec3(0.5, 0.5, 0.5), Vec3(-0.5, 0.5, 0.5)]
  }

  /** The twelve triangles, two per face, face by face. */
  function CubeTriangles(): (r: seq<int>)
    ensures |r| == 36 && AllIndicesIn(r, 0, 8)
  {
    [0, 1, 2, 0, 2, 3] +
    [1, 5, 6, 1, 6, 2] +
    [5, 4, 7, 5, 7, 6] +
    [4, 0, 3, 4, 3, 7] +
    [3, 2, 6, 3, 6, 7] +
    [4, 5, 1, 4, 1, 0]
  }

  /** The six faces as quads. */
  function CubeQuads(): (r: seq<int>)
    ensures |r| == 24 && AllIndicesIn(r, 0, 8)
  {
    [0, 1, 2, 3] + [4, 5, 6, 7] + [0, 4, 5, 1] + [1, 5, 6, 2] + [2, 6, 7, 3] + [3, 7, 4, 0]
  }

  /** The twelve edges as pairs: the loop at z = −½, the loop at z = +½, the four verticals. */
  function CubeLines(): (r: seq<int>)
    ensures |r| == 24 && AllIndicesIn(r, 0, 8)
  {
    [0, 1, 1, 2, 2, 3, 3, 0] + [4, 5, 5, 6, 6, 7, 7, 4] + [0, 4, 1, 5, 2, 6, 3, 7]
  }

  /** One strip: round the face z = −½, round the face z = +½, then zig-zag between them. */
  function CubeStrip(): (r: seq<int>)
    ensures |r| == 17 && AllIndicesIn(r, 0, 8)
  {
    [0, 1, 2, 3, 0] + [4, 5, 6, 7, 4] + [0, 1, 5, 2, 6, 3, 7]
  }

  /** `Cube.setPrimitiveType`'s tables: each fits its painter and names only the eight corners. */
  function CubeIndices(t: PrimitiveType): (r: seq<int>)
    ensures FitsTopology(t, r, 8)
    ensures |r| == match t
      case TriangleList => 36 case QuadList => 24 case LineList => 24 case LineStrip => 17 case PointList => 8
  {
    match t
    case TriangleList => CubeTriangles()
    case QuadList => CubeQuads()
    case LineList => CubeLines()
    case LineStrip => CubeStrip()
    case PointList => [0, 1, 2, 3, 4, 5, 6, 7]
  }

  /** Lines `k` and `l` of a line list join the same two corners, in either order. */
  predicate SameEdge(ls: seq<int>, k: int, l: int)
    requires 0 <= k && 0 <= l && 2 * k + 1 < |ls| && 2 * l + 1 < |ls|
  {
    || (ls[2 * k] == ls[2 * l] && ls[2 * k + 1] == ls[2 * l + 1])
    || (ls[2 * k] == ls[2 * l + 1] && ls[2 * k + 1] == ls[2 * l])
  }

  /** Each line of the cube's line list joins two corners one coordinate apart: a true edge. */
  lemma CubeEdges()
    ensures var vs, ls := CubeVertices(), CubeLines();
      forall k :: 0 <= k < 12 ==> OneCoordinateApart(vs[ls[2 * k]], vs[ls[2 * k + 1]])
  {
    var vs, ls := CubeVertices(), CubeLines();
    assert ls == [0, 1, 1, 2, 2, 3, 3, 0, 4, 5, 5, 6, 6, 7, 7, 4, 0, 4, 1, 5, 2, 6, 3, 7];
    forall k | 0 <= k < 12
      ensures OneCoordinateApart(vs[ls[2 * k]], vs[ls[2 * k + 1]])
    {
      assert k in {0, 1, 2, 3, 4, 5, 6, 7, 8, 9, 10, 11};
    }
  }

  /** No edge is drawn twice, so the line list draws all twelve edges of the cube. */
  lemma CubeEdgesDistinct()
    ensures forall k, l :: 0 <= k < l < 12 ==> !SameEdge(CubeLines(), k, l)
  {
    var ls := CubeLines();
    assert ls == [0, 1, 1, 2, 2, 3, 3, 0, 4, 5, 5, 6, 6, 7, 7, 4, 0, 4, 1, 5, 2, 6, 3, 7];
    forall k, l | 0 <= k < l < 12
      ensures !SameEdge(ls, k, l)
    {
      assert k in {0, 1, 2, 3, 4, 5, 6, 7, 8, 9, 10, 11};
      assert l in {0, 1, 2, 3, 4, 5, 6, 7, 8, 9, 10, 11};
    }
  }

  /** Every quad of the quad list is a face: four distinct corners in one axis-aligned plane. */
  lemma CubeQuadFaces()
    ensures var vs, qs := CubeVertices(), CubeQuads();
      forall f :: 0 <= f < 6 ==>
        && Flat(vs[qs[4 * f]], vs[qs[4 * f + 1]], vs[qs[4 * f + 2]], vs[qs[4 * f + 3]])
        && qs[4 * f] != qs[4 * f + 1] && qs[4 * f] != qs[4 * f + 2] && qs[4 * f] != qs[4 * f + 3]
        && qs[4 * f + 1] != qs[4 * f + 2] && qs[4 * f + 1] != qs[4 * f + 3] && qs[4 * f + 2] != qs[4 * f + 3]
  {
    var vs, qs := CubeVertices(), CubeQuads();
    assert qs == [0, 1, 2, 3, 4, 5, 6, 7, 0, 4, 5, 1, 1, 5, 6, 2, 2, 6, 7, 3, 3, 7, 4, 0];
    forall f | 0 <= f < 6
      ensures Flat(vs[qs[4 * f]], vs[qs[4 * f + 1]], vs[qs[4 * f + 2]], vs[qs[4 * f + 3]])
      ensures qs[4 * f] != qs[4 * f + 1] && qs[4 * f] != qs[4 * f + 2] && qs[4 * f] != qs[4 * f + 3]
      ensures qs[4 * f + 1] != qs[4 * f + 2] && qs[4 * f + 1] != qs[4 * f + 3] && qs[4 * f + 2] != qs[4 * f + 3]
    {
      assert f in {0, 1, 2, 3, 4, 5};
    }
  }

  class Cube {
    const body: GameObject

    /** `Cube(solid, position, scale)`: a cube drawn as a quad list. */
    constructor (solid: bool, position: Vec3, scale: Vec3,
                 registry: Registry<GameObject>, forceRegistry: Registry<Force>)
      requires registry.HasRoom() && forceRegistry.HasRoom()
      modifies registry, forceRegistry
      ensures fresh(body) && fresh(body.mesh) && body.solid == solid && body.GetPos() == position
      ensures body.gravity.mass == 1.0 && body.scale == scale
      ensures body.mesh.vertices == CubeVertices()
      ensures body.mesh.primitiveType == QuadList && body.mesh.indices == CubeIndices(QuadList)
      ensures registry.idMap == old(registry.idMap)[body.id := body]
      ensures 1 <= body.id < MaxId && body.id !in old(registry.idMap)
      ensures 1 <= body.gravity.base.id < MaxId && body.gravity.base.id !in old(forceRegistry.idMap)
      ensures forceRegistry.idMap == old(forceRegistry.idMap)[body.gravity.base.id := body.gravity.base]
      ensures body.transform == WithTranslation(Identity, position) && body.forces == []
      ensures body.velocity == body.acceleration == body.angularVelocity == body.angularAcceleration == Zero3
      ensures body.inertiaTensor == body.inertiaTensorInverse == ZeroMatrix
    {
      var mesh := new Mesh();
      mesh.SetVertices(CubeVertices());
      mesh.SetPrimitiveType(QuadList);
      mesh.SetIndices(CubeIndices(QuadList));
      var b := new GameObject(solid, mesh, 1.0, position, registry, forceRegistry);
      b.scale := scale;
      body := b;
    }

    /** `Cube(primitiveType, solid, position, scale)`: a cube drawn with the given topology. */
    constructor OfType(primitiveType: PrimitiveType, solid: bool, position: Vec3, scale: Vec3,
                       registry: Registry<GameObject>, forceRegistry: Registry<Force>)
      requires registry.HasRoom() && forceRegistry.HasRoom()
      modifies registry, forceRegistry
      ensures fresh(body) && fresh(body.mesh) && body.solid == solid && body.GetPos() == position
      ensures body.gravity.mass == 1.0 && body.scale == scale
      ensures body.mesh.vertices == CubeVertices()
      ensures body.mesh.primitiveType == primitiveType && body.mesh.indices == CubeIndices(primitiveType)
      ensures registry.idMap == old(registry.idMap)[body.id := body]
      ensures 1 <= body.id < MaxId && body.id !in old(registry.idMap)
      ensures 1 <= body.gravity.base.id < MaxId && body.gravity.base.id !in old(forceRegistry.idMap)
      ensures forceRegistry.idMap == old(forceRegistry.idMap)[body.gravity.base.id := body.gravity.base]
      ensures body.transform == WithTranslation(Identity, position) && body.forces == []
      ensures body.velocity == body.acceleration == body.angularVelocity == body.angularAcceleration == Zero3
      ensures body.inertiaTensor == body.inertiaTensorInverse == ZeroMatrix
    {
      var mesh := new Mesh();
      mesh.SetVertices(CubeVertices());
      mesh.SetPrimitiveType(primitiveType);
      mesh.SetIndices(CubeIndices(primitiveType));
      var b := new GameObject(solid, mesh, 1.0, position, registry, forceRegistry);
      b.scale := scale;
      body := b;
    }

    /** `setPrimitiveType`: the mesh's topology and the matching table; the vertices stay. */
    method SetPrimitiveType(primitiveType: PrimitiveType)
      modifies body.mesh
      ensures body.mesh.primitiveType == primitiveType && body.mesh.indices == CubeIndices(primitiveType)
      ensures body.mesh.vertices == old(body.mesh.vertices) && body.mesh.lights == old(body.mesh.lights)
      ensures body.mesh.lineColor == old(body.mesh.lineColor) && body.mesh.lineWidth == old(body.mesh.lineWidth)
      ensures body.mesh.material == old(body.mesh.material) && body.mesh.normals == old(body.mesh.normals)
      ensures body.mesh.uvs == old(body.mesh.uvs)
    {
      body.mesh.SetPrimitiveType(primitiveType);
      body.mesh.SetIndices(CubeIndices(primitiveType));
    }
  }

  /** Whatever its topology, a cube's mesh paints without an out-of-range access. */
  lemma CubeNeverFaults(t: PrimitiveType, v4: seq<Vec4>, vp: Viewport, st: Style)
    requires |v4| == |CubeVertices()|
    ensures !Render(t, v4, CubeIndices(t), vp, st).fault
  {
    FittingTableNeverFaults(t, v4, CubeIndices(t), vp, st);
  }

  // ---------------------------------------------------------------------
  // TriangleSurface

  /** `System.Drawing.Point`: integer screen coordinates. */
  datatype Point = Point(x: int, y: int)

  /** The first three dots, laid in the XZ plane: (X, 0, Y). */
  function TriangleVertices(dots: seq<Point>): (r: seq<Vec3>)
    requires |dots| >= 3
    ensures |r| == 3 && forall k :: 0 <= k < 3 ==> r[k] == Vec3(dots[k].x as real, 0.0, dots[k].y as real)
  {
    [Vec3(dots[0].x as real, 0.0, dots[0].y as real),
     Vec3(dots[1].x as real, 0.0, dots[1].y as real),
     Vec3(dots[2].x as real, 0.0, dots[2].y as real)]
  }

  /** `TriangleSurface.setPrimitiveType`'s tables as the source writes them: the quad list holds three indices. */
  function TriangleSurfaceIndicesAsWritten(t: PrimitiveType): (r: seq<int>)
    ensures AllIndicesIn(r, 0, 3)
    ensures t == QuadList ==> |r| % Stride(QuadList) != 0
  {
    match t
    case TriangleList => [0, 1, 2]
    case QuadList => [0, 1, 2]
    case LineList => [0, 1, 1, 2, 2, 0]
    case LineStrip => [0, 1, 2, 0]
    case PointList => [0, 1, 2]
  }

  /** The quad painter reads `indices[3]` of the three-entry table: painting the triangle as a quad list always faults. */
  lemma TriangleSurfaceQuadFaults(v4: seq<Vec4>, vp: Viewport, st: Style)
    ensures Render(QuadList, v4, TriangleSurfaceIndicesAsWritten(QuadList), vp, st).fault
  {
    var indices := TriangleSurfaceIndicesAsWritten(QuadList);
    WalkStops(QuadList, v4, indices, 0, vp, st);
  }

  /**
   * The tables with the quad list closed back to the first corner,
   * `{ 0, 1, 2, 0 }`: a degenerate quad that outlines the triangle.
   */
  function TriangleSurfaceIndices(t: PrimitiveType): (r: seq<int>)
    ensures FitsTopology(t, r, 3)
    ensures t != QuadList ==> r == TriangleSurfaceIndicesAsWritten(t)
  {
    match t
    case QuadList => [0, 1, 2, 0]
    case _ => TriangleSurfaceIndicesAsWritten(t)
  }

  /** With the closed quad, a triangle's mesh paints without an out-of-range access whatever its topology. */
  lemma TriangleSurfaceNeverFaults(t: PrimitiveType, v4: seq<Vec4>, vp: Viewport, st: Style)
    requires |v4| == 3
    ensures !Render(t, v4, TriangleSurfaceIndices(t), vp, st).fault
  {
    FittingTableNeverFaults(t, v4, TriangleSurfaceIndices(t), vp, st);
  }

  class TriangleSurface {
    const body: GameObject

    /** `TriangleSurface(solid, position, dots, scale)`: the triangle through the first three dots, as a triangle list. */
    constructor (solid: bool, position: Vec3, dots: seq<Point>, scale: Vec3,
                 registry: Registry<GameObject>, forceRegistry: Registry<Force>)
      requires |dots| >= 3
      requires registry.HasRoom() && forceRegistry.HasRoom()
      modifies registry, forceRegistry
      ensures fresh(body) && fresh(body.mesh) && body.solid == solid && body.GetPos() == position
      ensures body.gravity.mass == 1.0 && body.scale == scale
      ensures body.mesh.vertices == TriangleVertices(dots)
      ensures body.mesh.primitiveType == TriangleList && body.mesh.indices == TriangleSurfaceIndices(TriangleList)
      ensures registry.idMap == old(registry.idMap)[body.id := body]
      ensures 1 <= body.id < MaxId && body.id !in old(registry.idMap)
      ensures 1 <= body.gravity.base.id < MaxId && body.gravity.base.id !in old(forceRegistry.idMap)
      ensures forceRegistry.idMap == old(forceRegistry.idMap)[body.gravity.base.id := body.gravity.base]
      ensures body.transform == WithTranslation(Identity, position) && body.forces == []
      ensures body.velocity == body.acceleration == body.angularVelocity == body.angularAcceleration == Zero3
      ensures body.inertiaTensor == body.inertiaTensorInverse == ZeroMatrix
    {
      var mesh := new Mesh();
      mesh.SetVertices(TriangleVertices(dots));
      mesh.SetPrimitiveType(TriangleList);
      mesh.SetIndices(TriangleSurfaceIndices(TriangleList));
      var b := new GameObject(solid, mesh, 1.0, position, registry, forceRegistry);
      b.scale := scale;
      body := b;
    }

    /** `setPrimitiveType`: the mesh's topology and the matching table; the vertices stay. */
    method SetPrimitiveType(primitiveType: PrimitiveType)
      modifies body.mesh
      ensures body.mesh.primitiveType == primitiveType && body.mesh.indices == TriangleSurfaceIndices(primitiveType)
      ensures body.mesh.vertices == old(body.mesh.vertices) && body.mesh.lights == old(body.mesh.lights)
      ensures body.mesh.lineColor == old(body.mesh.lineColor) && body.mesh.lineWidth == old(body.mesh.lineWidth)
      ensures body.mesh.material == old(body.mesh.material) && body.mesh.normals == old(body.mesh.normals)
      ensures body.mesh.uvs == old(body.mesh.uvs)
    {
      body.mesh.SetPrimitiveType(primitiveType);
      body.mesh.SetIndices(TriangleSurfaceIndices(primitiveType));
    }
  }

  // ---------------------------------------------------------------------
  // SphereParticle

  /** The `count` field's initialiser. */
  const DefaultParticleCount: int := 500

  /**
   * The loop of `generateRandomPoints`: `count` draws, in order; `draw(i)`
   * stands for the `i`th call of `GeneratePoint`. A negative count draws
   * nothing.
   */
  method RandomPoints(count: int, draw: int -> Vec3) returns (vertices: seq<Vec3>)
    ensures |vertices| == if count < 0 then 0 else count
    ensures forall i :: 0 <= i < |vertices| ==> vertices[i] == draw(i)
  {
    vertices := [];
    var i := 0;
    while i < count
      invariant 0 <= i <= (if count < 0 then 0 else count) && |vertices| == i
      invariant forall k :: 0 <= k < i ==> vertices[k] == draw(k)
    {
      vertices := vertices + [draw(i)];
      i := i + 1;
    }
  }

  class SphereParticle {
    const body: GameObject
    var count: int
    var dynamic: bool

    /**
     * `SphereParticle(solid, dynamic, position, radius, count)`: `count`
     * random points (500 for the overload without a count), drawn as a
     * point list with no indices, scaled by the radius on every axis.
     */
    constructor (solid: bool, dynamic: bool, position: Vec3, radius: real, count: int, draw: int -> Vec3,
                 registry: Registry<GameObject>, forceRegistry: Registry<Force>)
      requires registry.HasRoom() && forceRegistry.HasRoom()
      modifies registry, forceRegistry
      ensures fresh(body) && fresh(body.mesh) && body.solid == solid && body.GetPos() == position
      ensures this.count == count && this.dynamic == dynamic
      ensures body.gravity.mass == 1.0 && body.scale == Vec3(radius, radius, radius)
      ensures |body.mesh.vertices| == (if count < 0 then 0 else count)
      ensures forall i :: 0 <= i < |body.mesh.vertices| ==> body.mesh.vertices[i] == draw(i)
      ensures body.mesh.primitiveType == PointList && body.mesh.indices == []
      ensures registry.idMap == old(registry.idMap)[body.id := body]
      ensures 1 <= body.id < MaxId && body.id !in old(registry.idMap)
      ensures 1 <= body.gravity.base.id < MaxId && body.gravity.base.id !in old(forceRegistry.idMap)
      ensures forceRegistry.idMap == old(forceRegistry.idMap)[body.gravity.base.id := body.gravity.base]
      ensures body.transform == WithTranslation(Identity, position) && body.forces == []
      ensures body.velocity == body.acceleration == body.angularVelocity == body.angularAcceleration == Zero3
      ensures body.inertiaTensor == body.inertiaTensorInverse == ZeroMatrix
    {
      var mesh := new Mesh();
      var vertices := RandomPoints(count, draw);
      mesh.SetVertices(vertices);
      mesh.SetPrimitiveType(PointList);
      mesh.SetIndices([]);
      var b := new GameObject(solid, mesh, 1.0, position, registry, forceRegistry);
      this.count, this.dynamic := count, dynamic;
      b.scale := Vec3(radius, radius, radius);
      body := b;
    }

    /** `setColor`: the mesh's pen colour. */
    method SetColor(color: Color)
      modifies body.mesh
      ensures body.mesh.lineColor == color && body.mesh.lineWidth == old(body.mesh.lineWidth)
      ensures body.mesh.vertices == old(body.mesh.vertices) && body.mesh.indices == old(body.mesh.indices)
      ensures body.mesh.lights == old(body.mesh.lights) && body.mesh.primitiveType == old(body.mesh.primitiveType)
      ensures body.mesh.material == old(body.mesh.material) && body.mesh.normals == old(body.mesh.normals)
      ensures body.mesh.uvs == old(body.mesh.uvs)
    {
      body.mesh.SetLineColor(color);
    }

    /** `setLineWidth`: the mesh's pen width. */
    method SetLineWidth(width: real)
      modifies body.mesh
      ensures body.mesh.lineWidth == width && body.mesh.lineColor == old(body.mesh.lineColor)
      ensures body.mesh.vertices == old(body.mesh.vertices) && body.mesh.indices == old(body.mesh.indices)
      ensures body.mesh.lights == old(body.mesh.lights) && body.mesh.primitiveType == old(body.mesh.primitiveType)
      ensures body.mesh.material == old(body.mesh.material) && body.mesh.normals == old(body.mesh.normals)
      ensures body.mesh.uvs == old(body.mesh.uvs)
    {
      body.mesh.SetLineWidth(width);
    }

    /** `generateRandomPoints`: the mesh's vertices become `count` fresh draws. */
    method GenerateRandomPoints(count: int, draw: int -> Vec3)
      modifies body.mesh
      ensures |body.mesh.vertices| == (if count < 0 then 0 else count)
      ensures forall i :: 0 <= i < |body.mesh.vertices| ==> body.mesh.vertices[i] == draw(i)
      ensures body.mesh.indices == old(body.mesh.indices) && body.mesh.primitiveType == old(body.mesh.primitiveType)
      ensures body.mesh.lights == old(body.mesh.lights)
      ensures body.mesh.lineColor == old(body.mesh.lineColor) && body.mesh.lineWidth == old(body.mesh.lineWidth)
      ensures body.mesh.material == old(body.mesh.material) && body.mesh.normals == old(body.mesh.normals)
      ensures body.mesh.uvs == old(body.mesh.uvs)
    {
      var vertices := RandomPoints(count, draw);
      body.mesh.SetVertices(vertices);
    }

    /**
     * `update`, which overrides the body's: a dynamic cloud first redraws
     * its `count` points, then the body takes its ordinary tick.
     */
    method Update(time: real, acquired: bool, lib: MathLib, draw: int -> Vec3)
      modifies body, body.mesh
      ensures body.State() == old(body.Next(time, acquired, lib)) && body.mesh == old(body.mesh)
      ensures body.forces == old(body.forces) && body.solid == old(body.solid) && body.scale == old(body.scale)
      ensures body.id == old(body.id) && body.inertiaTensor == old(body.inertiaTensor)
      ensures body.inertiaTensorInverse == old(body.inertiaTensorInverse)
      ensures dynamic ==> |body.mesh.vertices| == (if count < 0 then 0 else count)
      ensures dynamic ==> forall i :: 0 <= i < |body.mesh.vertices| ==> body.mesh.vertices[i] == draw(i)
      ensures !dynamic ==> body.mesh.vertices == old(body.mesh.vertices)
      ensures body.mesh.indices == old(body.mesh.indices) && body.mesh.primitiveType == old(body.mesh.primitiveType)
      ensures body.mesh.lights == old(body.mesh.lights)
      ensures body.mesh.lineColor == old(body.mesh.lineColor) && body.mesh.lineWidth == old(body.mesh.lineWidth)
      ensures body.mesh.material == old(body.mesh.material) && body.mesh.normals == old(body.mesh.normals)
      ensures body.mesh.uvs == old(body.mesh.uvs)
    {
      if dynamic {
        GenerateRandomPoints(count, draw);
      }
      body.Update(time, acquired, lib);
    }
  }
}
