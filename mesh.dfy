/**
 * Meshes (physics/Mesh.cs): the vertex transform chain, the five painters
 * that walk the index list, and the AABB box. Drawing on the GDI surface
 * becomes a list of draw commands; an out-of-range list access, which throws
 * in C#, ends the walk with `fault` set, keeping the commands drawn so far.
 */
module Meshes {
  import opened Numerics
  import opened Lights
  import opened Lists
  import opened Wrappers

  datatype PrimitiveType = PointList | LineList | TriangleList | QuadList | LineStrip

  datatype Material = Material(ambient: Vec3, diffuse: Vec3, specular: Vec3, shininess: real)

  /** System.Drawing.Color as alpha, red, green, blue. */
  datatype Color = Color(a: int, r: int, g: int, b: int)
  const White: Color := Color(255, 255, 255, 255)

  datatype Pen = Pen(color: Color, width: real)

  /** The GDI calls the painters make. */
  datatype DrawCmd =
    | FillPolygon(fill: Color, points: seq<Vec2>)
    | DrawPolygon(pen: Pen, points: seq<Vec2>)
    | DrawLine(pen: Pen, x1: real, y1: real, x2: real, y2: real)
    | FillEllipse(brush: Color, x: real, y: real, w: real, h: real)

  /** The clip range and the size of the drawing panel. */
  datatype Viewport = Viewport(near: real, far: real, width: int, height: int)

  /** What the painters read off the mesh: its lights, pen colour and width. */
  datatype Style = Style(lights: seq<Light>, lineColor: Color, lineWidth: real, lib: MathLib)

  /** The commands drawn and whether the walk stopped on an out-of-range access. */
  datatype Painted = Painted(commands: seq<DrawCmd>, fault: bool)

  // ---------------------------------------------------------------------
  // Clip space and screen space

  /** The LINQ chain: (v, 1) times the scale matrix, the model transform, the camera. */
  function ClipPoint(v: Vec3, scale: Vec3, transform: Mat4, camera: Mat4): Vec4
  {
    Transform4(Transform4(Transform4(Vec4(v.x, v.y, v.z, 1.0), ScaleMatrix(scale)), transform), camera)
  }

  function ClipSpace(vertices: seq<Vec3>, scale: Vec3, transform: Mat4, camera: Mat4): (r: seq<Vec4>)
    ensures |r| == |vertices|
    ensures forall k :: 0 <= k < |r| ==> r[k] == ClipPoint(vertices[k], scale, transform, camera)
  {
    if vertices == [] then []
    else ClipSpace(vertices[..|vertices| - 1], scale, transform, camera)
         + [ClipPoint(vertices[|vertices| - 1], scale, transform, camera)]
  }

  /** The three transforms applied one after the other equal one transform by their product. */
  lemma ClipSpaceComposite(vertices: seq<Vec3>, scale: Vec3, transform: Mat4, camera: Mat4, k: int)
    requires 0 <= k < |vertices|
    ensures var v := vertices[k];
      ClipSpace(vertices, scale, transform, camera)[k]
      == Transform4(Vec4(v.x, v.y, v.z, 1.0), Mul(Mul(ScaleMatrix(scale), transform), camera))
  {
    var v := vertices[k];
    var p := Vec4(v.x, v.y, v.z, 1.0);
    Transform4Mul(p, ScaleMatrix(scale), transform);
    Transform4Mul(p, Mul(ScaleMatrix(scale), transform), camera);
  }

  /** A float division; a zero W is taken to give 0 rather than an infinity. */
  function Quot(a: real, b: real): real
  {
    if b == 0.0 then 0.0 else a / b
  }

  /** Perspective divide, then the map onto the panel (y grows downwards). */
  function ScreenPoint(v: Vec4, vp: Viewport): Vec3
  {
    var p := Vec3(Quot(v.x, v.w), Quot(v.y, v.w), Quot(v.z, v.w));
    Vec3((p.x + 1.0) * vp.width as real / 2.0, (1.0 - p.y) * vp.height as real / 2.0, p.z)
  }

  function Screen(vs: seq<Vec4>, vp: Viewport): (ss: seq<Vec3>)
    ensures |ss| == |vs|
    ensures forall k :: 0 <= k < |vs| ==> ss[k] == ScreenPoint(vs[k], vp)
  {
    if vs == [] then [] else Screen(vs[..|vs| - 1], vp) + [ScreenPoint(vs[|vs| - 1], vp)]
  }

  /** The PointF array handed to GDI. */
  function Points(ss: seq<Vec3>): (ps: seq<Vec2>)
    ensures |ps| == |ss|
    ensures forall k :: 0 <= k < |ss| ==> ps[k] == Vec2(ss[k].x, ss[k].y)
  {
    if ss == [] then [] else Points(ss[..|ss| - 1]) + [Vec2(ss[|ss| - 1].x, ss[|ss| - 1].y)]
  }

  predicate OutsideDepth(v: Vec4, vp: Viewport)
  {
    v.z < vp.near || v.z > vp.far
  }

  /** The depth clip: one vertex outside [near, far] rejects the primitive. */
  predicate AnyOutsideDepth(vs: seq<Vec4>, vp: Viewport)
  {
    exists k :: 0 <= k < |vs| && OutsideDepth(vs[k], vp)
  }

  /** The screen clip for groups: every vertex lies past the same panel edge. */
  predicate BeyondOneEdge(ss: seq<Vec3>, vp: Viewport)
  {
    (forall k :: 0 <= k < |ss| ==> ss[k].x < 0.0)
    || (forall k :: 0 <= k < |ss| ==> ss[k].x > vp.width as real)
    || (forall k :: 0 <= k < |ss| ==> ss[k].y < 0.0)
    || (forall k :: 0 <= k < |ss| ==> ss[k].y > vp.height as real)
  }

  /** The screen clip for single points: anywhere outside the panel. */
  predicate OffPanel(s: Vec3, vp: Viewport)
  {
    s.x < 0.0 || s.x > vp.width as real || s.y < 0.0 || s.y > vp.height as real
  }

  // ---------------------------------------------------------------------
  // Shading

  /** Σ max(0, normal · normalize(light − centroid)) over the lights, in list order. */
  function LightSum(lights: seq<Light>, normal: Vec3, centroid: Vec3, lib: MathLib): (r: real)
    ensures r >= 0.0
  {
    if lights == [] then 0.0
    else LightSum(lights[..|lights| - 1], normal, centroid, lib)
         + Max(0.0, Dot(normal, lib.normalize(Sub(lights[|lights| - 1].position, centroid))))
  }

  /** The surface normal from the first vertex's two edges. */
  function FaceNormal(v1: Vec4, v2: Vec4, v3: Vec4, lib: MathLib): Vec3
  {
    lib.normalize(Cross(Sub(Xyz(v2), Xyz(v1)), Sub(Xyz(v3), Xyz(v1))))
  }

  function Centroid(v1: Vec4, v2: Vec4, v3: Vec4): Vec3
  {
    Div(Add(Add(Xyz(v1), Xyz(v2)), Xyz(v3)), 3.0)
  }

  /** The light sum capped at 1. */
  function Intensity(v1: Vec4, v2: Vec4, v3: Vec4, st: Style): (i: real)
    ensures 0.0 <= i <= 1.0
    ensures i == 1.0 || i == LightSum(st.lights, FaceNormal(v1, v2, v3, st.lib), Centroid(v1, v2, v3), st.lib)
  {
    Min(LightSum(st.lights, FaceNormal(v1, v2, v3, st.lib), Centroid(v1, v2, v3), st.lib), 1.0)
  }

  /** C#'s `(int)` cast: truncation toward zero. */
  function Truncate(x: real): (n: int)
    ensures x >= 0.0 ==> 0 <= n && n as real <= x < n as real + 1.0
    ensures x < 0.0 ==> n <= 0 && n as real - 1.0 < x <= n as real
  {
    if x >= 0.0 then x.Floor else -((-x).Floor)
  }

  /** `(int)(255 * intensity)` for an intensity in [0, 1] is a channel value. */
  function GrayLevel(i: real): (k: int)
    requires 0.0 <= i <= 1.0
    ensures 0 <= k <= 255
    ensures k as real <= 255.0 * i < k as real + 1.0
  {
    Truncate(255.0 * i)
  }

  /** Color.FromArgb(k, k, k): opaque gray. */
  function Gray(k: int): Color { Color(255, k, k, k) }

  // ---------------------------------------------------------------------
  // One primitive

  /** Vertices per primitive. */
  function Arity(t: PrimitiveType): nat
  {
    match t
    case PointList => 1
    case LineList => 2
    case TriangleList => 3
    case QuadList => 4
    case LineStrip => 2
  }

  /** How far the index cursor advances per primitive. */
  function Stride(t: PrimitiveType): nat
  {
    match t
    case PointList => 1
    case LineList => 2
    case TriangleList => 3
    case QuadList => 4
    case LineStrip => 1
  }

  /**
   * What `paintTriangleList` draws for one triangle, with its tests written
   * vertex by vertex: nothing when a vertex is outside the depth range or
   * the three screen points are past one panel edge, otherwise a gray fill
   * of the shaded intensity and the outline in the line pen.
   */
  function TriangleCommands(vs: seq<Vec4>, vp: Viewport, st: Style): seq<DrawCmd>
    requires |vs| == 3
  {
    var v1, v2, v3 := vs[0], vs[1], vs[2];
    if OutsideDepth(v1, vp) || OutsideDepth(v2, vp) || OutsideDepth(v3, vp) then []
    else
      var s1, s2, s3 := ScreenPoint(v1, vp), ScreenPoint(v2, vp), ScreenPoint(v3, vp);
      var w, h := vp.width as real, vp.height as real;
      if (s1.x < 0.0 && s2.x < 0.0 && s3.x < 0.0) || (s1.x > w && s2.x > w && s3.x > w)
         || (s1.y < 0.0 && s2.y < 0.0 && s3.y < 0.0) || (s1.y > h && s2.y > h && s3.y > h) then []
      else
        var pts := [Vec2(s1.x, s1.y), Vec2(s2.x, s2.y), Vec2(s3.x, s3.y)];
        [FillPolygon(Gray(GrayLevel(Intensity(v1, v2, v3, st))), pts), DrawPolygon(Pen(st.lineColor, st.lineWidth), pts)]
  }

  /** What `paintQuadList` draws for one quad: its outline, unless clipped as a triangle is. */
  function QuadCommands(vs: seq<Vec4>, vp: Viewport, st: Style): seq<DrawCmd>
    requires |vs| == 4
  {
    var v1, v2, v3, v4 := vs[0], vs[1], vs[2], vs[3];
    if OutsideDepth(v1, vp) || OutsideDepth(v2, vp) || OutsideDepth(v3, vp) || OutsideDepth(v4, vp) then []
    else
      var s1, s2, s3, s4 := ScreenPoint(v1, vp), ScreenPoint(v2, vp), ScreenPoint(v3, vp), ScreenPoint(v4, vp);
      var w, h := vp.width as real, vp.height as real;
      if (s1.x < 0.0 && s2.x < 0.0 && s3.x < 0.0 && s4.x < 0.0) || (s1.x > w && s2.x > w && s3.x > w && s4.x > w)
         || (s1.y < 0.0 && s2.y < 0.0 && s3.y < 0.0 && s4.y < 0.0)
         || (s1.y > h && s2.y > h && s3.y > h && s4.y > h) then []
      else [DrawPolygon(Pen(st.lineColor, st.lineWidth), [Vec2(s1.x, s1.y), Vec2(s2.x, s2.y), Vec2(s3.x, s3.y), Vec2(s4.x, s4.y)])]
  }

  /** What the line painters draw for one segment: a line in the line pen, unless clipped. */
  function SegmentCommands(vs: seq<Vec4>, vp: Viewport, st: Style): seq<DrawCmd>
    requires |vs| == 2
  {
    var v1, v2 := vs[0], vs[1];
    if OutsideDepth(v1, vp) || OutsideDepth(v2, vp) then []
    else
      var s1, s2 := ScreenPoint(v1, vp), ScreenPoint(v2, vp);
      var w, h := vp.width as real, vp.height as real;
      if (s1.x < 0.0 && s2.x < 0.0) || (s1.x > w && s2.x > w) || (s1.y < 0.0 && s2.y < 0.0) || (s1.y > h && s2.y > h) then []
      else [DrawLine(Pen(st.lineColor, st.lineWidth), s1.x, s1.y, s2.x, s2.y)]
  }

  /** What one indexed primitive draws, by topology. */
  function GroupCommands(t: PrimitiveType, vs: seq<Vec4>, vp: Viewport, st: Style): seq<DrawCmd>
    requires t != PointList && |vs| == Arity(t)
  {
    match t
    case TriangleList => TriangleCommands(vs, vp, st)
    case QuadList => QuadCommands(vs, vp, st)
    case LineList | LineStrip => SegmentCommands(vs, vp, st)
  }

  /**
   * The painters' vertex-by-vertex tests are the two clip rules: a
   * primitive draws nothing exactly when some vertex is outside the depth
   * range or all its screen points are past one panel edge.
   */
  lemma GroupCommandsEmpty(t: PrimitiveType, vs: seq<Vec4>, vp: Viewport, st: Style)
    requires t != PointList && |vs| == Arity(t)
    ensures GroupCommands(t, vs, vp, st) == [] <==> AnyOutsideDepth(vs, vp) || BeyondOneEdge(Screen(vs, vp), vp)
  {
    match t
    case TriangleList => Clip3(vs, vp);
    case QuadList => Clip4(vs, vp);
    case LineList => Clip2(vs, vp);
    case LineStrip => Clip2(vs, vp);
  }

  /**
   * A drawn triangle is a gray fill followed by its outline in the line pen;
   * a quad is its outline only; a line is one segment in the line pen.
   */
  lemma GroupCommandsShape(t: PrimitiveType, vs: seq<Vec4>, vp: Viewport, st: Style)
    requires t != PointList && |vs| == Arity(t)
    requires !AnyOutsideDepth(vs, vp) && !BeyondOneEdge(Screen(vs, vp), vp)
    ensures var r := GroupCommands(t, vs, vp, st);
      && (t == TriangleList ==>
            |r| == 2 && r[0].FillPolygon? && r[1] == DrawPolygon(Pen(st.lineColor, st.lineWidth), r[0].points)
            && r[0].points == Points(Screen(vs, vp))
            && r[0].fill.a == 255 && r[0].fill.r == r[0].fill.g == r[0].fill.b && 0 <= r[0].fill.r <= 255)
      && (t == QuadList ==> r == [DrawPolygon(Pen(st.lineColor, st.lineWidth), Points(Screen(vs, vp)))])
      && (t == LineList || t == LineStrip ==>
            |r| == 1 && r[0].DrawLine? && r[0].pen == Pen(st.lineColor, st.lineWidth))
  {
    var ss := Screen(vs, vp);
    match t
    case TriangleList =>
      Clip3(vs, vp);
      assert Points(ss) == [Vec2(ss[0].x, ss[0].y), Vec2(ss[1].x, ss[1].y), Vec2(ss[2].x, ss[2].y)];
    case QuadList =>
      Clip4(vs, vp);
      assert Points(ss) == [Vec2(ss[0].x, ss[0].y), Vec2(ss[1].x, ss[1].y), Vec2(ss[2].x, ss[2].y), Vec2(ss[3].x, ss[3].y)];
    case LineList =>
      Clip2(vs, vp);
    case LineStrip =>
      Clip2(vs, vp);
  }

  /** What the point painter draws for one vertex: a dot of the line width. */
  function PointCommands(v: Vec4, vp: Viewport, st: Style): (r: seq<DrawCmd>)
    ensures r == [] <==> OutsideDepth(v, vp) || OffPanel(ScreenPoint(v, vp), vp)
    ensures r != [] ==>
      var s := ScreenPoint(v, vp);
      |r| == 1 && r[0].FillEllipse? && r[0].brush == st.lineColor && r[0].w == r[0].h == st.lineWidth
      && r[0].x + st.lineWidth / 2.0 == s.x && r[0].y + st.lineWidth / 2.0 == s.y
  {
    if OutsideDepth(v, vp) then []
    else
      var s := ScreenPoint(v, vp);
      if OffPanel(s, vp) then []
      else [FillEllipse(st.lineColor, s.x - st.lineWidth / 2.0, s.y - st.lineWidth / 2.0, st.lineWidth, st.lineWidth)]
  }

  /** The clip tests of a segment, written out vertex by vertex. */
  lemma Clip2(vs: seq<Vec4>, vp: Viewport)
    requires |vs| == 2
    ensures AnyOutsideDepth(vs, vp) <==> OutsideDepth(vs[0], vp) || OutsideDepth(vs[1], vp)
    ensures var ss := Screen(vs, vp);
      BeyondOneEdge(ss, vp) <==>
        (ss[0].x < 0.0 && ss[1].x < 0.0) || (ss[0].x > vp.width as real && ss[1].x > vp.width as real)
        || (ss[0].y < 0.0 && ss[1].y < 0.0) || (ss[0].y > vp.height as real && ss[1].y > vp.height as real)
  {
    var ss := Screen(vs, vp);
  }

  /** The clip tests of a triangle, written out vertex by vertex. */
  lemma Clip3(vs: seq<Vec4>, vp: Viewport)
    requires |vs| == 3
    ensures AnyOutsideDepth(vs, vp) <==> OutsideDepth(vs[0], vp) || OutsideDepth(vs[1], vp) || OutsideDepth(vs[2], vp)
    ensures var ss := Screen(vs, vp); var w, h := vp.width as real, vp.height as real;
      BeyondOneEdge(ss, vp) <==>
        (ss[0].x < 0.0 && ss[1].x < 0.0 && ss[2].x < 0.0) || (ss[0].x > w && ss[1].x > w && ss[2].x > w)
        || (ss[0].y < 0.0 && ss[1].y < 0.0 && ss[2].y < 0.0) || (ss[0].y > h && ss[1].y > h && ss[2].y > h)
  {
    var ss := Screen(vs, vp);
  }

  /** The clip tests of a quad, written out vertex by vertex. */
  lemma Clip4(vs: seq<Vec4>, vp: Viewport)
    requires |vs| == 4
    ensures AnyOutsideDepth(vs, vp) <==>
      OutsideDepth(vs[0], vp) || OutsideDepth(vs[1], vp) || OutsideDepth(vs[2], vp) || OutsideDepth(vs[3], vp)
    ensures var ss := Screen(vs, vp); var w, h := vp.width as real, vp.height as real;
      BeyondOneEdge(ss, vp) <==>
        (ss[0].x < 0.0 && ss[1].x < 0.0 && ss[2].x < 0.0 && ss[3].x < 0.0)
        || (ss[0].x > w && ss[1].x > w && ss[2].x > w && ss[3].x > w)
        || (ss[0].y < 0.0 && ss[1].y < 0.0 && ss[2].y < 0.0 && ss[3].y < 0.0)
        || (ss[0].y > h && ss[1].y > h && ss[2].y > h && ss[3].y > h)
  {
    var ss := Screen(vs, vp);
  }

  // ---------------------------------------------------------------------
  // The index walk

  /** Every access of the group starting at `i` is in range of a list of `n` vertices. */
  predicate GroupInRange(indices: seq<int>, i: int, arity: nat, n: int)
  {
    0 <= i && i + arity <= |indices| && forall k :: i <= k < i + arity ==> 0 <= indices[k] < n
  }

  predicate Readable(v4: seq<Vec4>, indices: seq<int>, i: int, n: nat)
  {
    GroupInRange(indices, i, n, |v4|)
  }

  /** The vertices of the group starting at `i`. */
  function Gather(v4: seq<Vec4>, indices: seq<int>, i: int, n: nat): (vs: seq<Vec4>)
    requires Readable(v4, indices, i, n)
    ensures |vs| == n && forall k :: 0 <= k < n ==> vs[k] == v4[indices[i + k]]
  {
    if n == 0 then [] else Gather(v4, indices, i, n - 1) + [v4[indices[i + n - 1]]]
  }

  /**
   * `vertices4[indices[i]] … vertices4[indices[i + n - 1]]`: the group's
   * vertices, or None when one of those list accesses throws.
   */
  function Fetch(v4: seq<Vec4>, indices: seq<int>, i: int, n: nat): (r: Option<seq<Vec4>>)
    ensures r.Some? <==> Readable(v4, indices, i, n)
    ensures r.Some? ==> |r.value| == n && forall k :: 0 <= k < n ==> r.value[k] == v4[indices[i + k]]
  {
    if Readable(v4, indices, i, n) then Some(Gather(v4, indices, i, n)) else None
  }

  /** Where the loop stops: `i < Count` for the lists, `i < Count - 1` for the strip. */
  function Limit(t: PrimitiveType, count: nat): int
  {
    if t == LineStrip then count - 1 else count
  }

  /** The indexed painters' loop, from cursor `i` on. */
  function Walk(t: PrimitiveType, v4: seq<Vec4>, indices: seq<int>, i: nat, vp: Viewport, st: Style): (p: Painted)
    requires t != PointList
    decreases |indices| - i, 1
  {
    if i >= Limit(t, |indices|) then Painted([], false)
    else if !Readable(v4, indices, i, Arity(t)) then Painted([], true)
    else WalkGroup(t, v4, indices, i, vp, st)
  }

  /** A loop iteration whose reads succeed: the group at `i`, then the walk from the next cursor. */
  function WalkGroup(t: PrimitiveType, v4: seq<Vec4>, indices: seq<int>, i: nat, vp: Viewport, st: Style): (p: Painted)
    requires t != PointList && i < Limit(t, |indices|) && Readable(v4, indices, i, Arity(t))
    decreases |indices| - i, 0
  {
    var rest := Walk(t, v4, indices, i + Stride(t), vp, st);
    Painted(GroupCommands(t, Gather(v4, indices, i, Arity(t)), vp, st) + rest.commands, rest.fault)
  }

  /** One step of the walk: the group at `i`, then the rest. */
  lemma WalkStep(t: PrimitiveType, v4: seq<Vec4>, indices: seq<int>, i: nat, vp: Viewport, st: Style)
    requires t != PointList && i < Limit(t, |indices|) && Readable(v4, indices, i, Arity(t))
    ensures var rest := Walk(t, v4, indices, i + Stride(t), vp, st);
      Walk(t, v4, indices, i, vp, st)
      == Painted(GroupCommands(t, Gather(v4, indices, i, Arity(t)), vp, st) + rest.commands, rest.fault)
  {
  }

  /** Proof step for the painters' loops: appending a group, then the rest, is appending both. */
  lemma AppendAssoc(a: seq<DrawCmd>, b: seq<DrawCmd>, c: seq<DrawCmd>)
    ensures a + (b + c) == (a + b) + c
  {
  }

  /** The loop invariant of the indexed painters survives drawing the group at `i`. */
  lemma WalkAdvance(t: PrimitiveType, v4: seq<Vec4>, indices: seq<int>, i: nat, vp: Viewport, st: Style,
                    cmds: seq<DrawCmd>, group: seq<DrawCmd>)
    requires t != PointList && i < Limit(t, |indices|) && Readable(v4, indices, i, Arity(t))
    requires group == GroupCommands(t, Gather(v4, indices, i, Arity(t)), vp, st)
    ensures cmds + Walk(t, v4, indices, i, vp, st).commands
            == (cmds + group) + Walk(t, v4, indices, i + Stride(t), vp, st).commands
    ensures Walk(t, v4, indices, i, vp, st).fault == Walk(t, v4, indices, i + Stride(t), vp, st).fault
  {
    WalkStep(t, v4, indices, i, vp, st);
    AppendAssoc(cmds, group, Walk(t, v4, indices, i + Stride(t), vp, st).commands);
  }

  /** Past the loop's limit the walk draws nothing and does not fault. */
  lemma WalkEnds(t: PrimitiveType, v4: seq<Vec4>, indices: seq<int>, i: nat, vp: Viewport, st: Style)
    requires t != PointList && i >= Limit(t, |indices|)
    ensures Walk(t, v4, indices, i, vp, st) == Painted([], false)
  {
  }

  /** The group straddles the end of the list or names a missing vertex: the walk stops there. */
  lemma WalkStops(t: PrimitiveType, v4: seq<Vec4>, indices: seq<int>, i: nat, vp: Viewport, st: Style)
    requires t != PointList && i < Limit(t, |indices|) && !Readable(v4, indices, i, Arity(t))
    ensures Walk(t, v4, indices, i, vp, st) == Painted([], true)
  {
  }

  /** The point painter's loop over the transformed vertices, from `j` on. */
  function PointWalk(v4: seq<Vec4>, j: nat, vp: Viewport, st: Style): (r: seq<DrawCmd>)
    decreases |v4| - j
  {
    if j >= |v4| then [] else PointCommands(v4[j], vp, st) + PointWalk(v4, j + 1, vp, st)
  }

  /** The `switch` in `paint`: exactly one painter, chosen by the topology. */
  function Render(t: PrimitiveType, v4: seq<Vec4>, indices: seq<int>, vp: Viewport, st: Style): Painted
  {
    if t == PointList then Painted(PointWalk(v4, 0, vp, st), false) else Walk(t, v4, indices, 0, vp, st)
  }

  predicate AllIndicesIn(indices: seq<int>, from: nat, n: int)
  {
    forall k :: from <= k < |indices| ==> 0 <= indices[k] < n
  }

  /** Whether the walk from `i` hits an out-of-range access: the index reads alone decide it. */
  predicate Faults(t: PrimitiveType, n: nat, indices: seq<int>, i: nat)
    requires t != PointList
    decreases |indices| - i
  {
    if i >= Limit(t, |indices|) then false
    else if !GroupInRange(indices, i, Arity(t), n) then true
    else Faults(t, n, indices, i + Stride(t))
  }

  lemma {:induction false} WalkFaults(t: PrimitiveType, v4: seq<Vec4>, indices: seq<int>, i: nat, vp: Viewport, st: Style)
    requires t != PointList
    ensures Walk(t, v4, indices, i, vp, st).fault == Faults(t, |v4|, indices, i)
    decreases |indices| - i
  {
    if i < Limit(t, |indices|) && Readable(v4, indices, i, Arity(t)) {
      WalkFaults(t, v4, indices, i + Stride(t), vp, st);
    }
  }

  lemma ModStep(n: int, s: int)
    requires 2 <= s <= 4 && s <= n
    ensures n % s == (n - s) % s
  {
    if s == 2 {
    } else if s == 3 {
    } else {
    }
  }

  lemma ModSmall(n: int, s: int)
    requires 2 <= s <= 4 && 0 < n < s
    ensures n % s != 0
  {
    if s == 2 {
    } else if s == 3 {
    } else {
    }
  }

  /**
   * The list painters (stride = arity) never fault from cursor `i` exactly
   * when the remaining count is a multiple of the stride and every remaining
   * index names a vertex.
   */
  lemma {:induction false} ListFaultFree(t: PrimitiveType, n: nat, indices: seq<int>, i: nat)
    requires t == TriangleList || t == QuadList || t == LineList
    requires i <= |indices|
    ensures !Faults(t, n, indices, i) <==> (|indices| - i) % Stride(t) == 0 && AllIndicesIn(indices, i, n)
    decreases |indices| - i
  {
    var s := Stride(t);
    assert Arity(t) == s && 2 <= s <= 4;
    if i < |indices| {
      if GroupInRange(indices, i, s, n) {
        ListFaultFree(t, n, indices, i + s);
        ModStep(|indices| - i, s);
        assert AllIndicesIn(indices, i, n) <==> AllIndicesIn(indices, i + s, n);
      } else if i + s > |indices| {
        ModSmall(|indices| - i, s);
      }
    }
  }

  /**
   * The strip painter never faults exactly when there is at most one index
   * left or every remaining index names a vertex.
   */
  lemma {:induction false} StripFaultFree(n: nat, indices: seq<int>, i: nat)
    requires i <= |indices|
    ensures !Faults(LineStrip, n, indices, i) <==> i + 1 >= |indices| || AllIndicesIn(indices, i, n)
    decreases |indices| - i
  {
    if i + 1 < |indices| {
      StripFaultFree(n, indices, i + 1);
      if 0 <= indices[i] < n && 0 <= indices[i + 1] < n && i + 2 < |indices| {
        assert AllIndicesIn(indices, i, n) <==> AllIndicesIn(indices, i + 1, n);
      }
    }
  }

  /** Index accesses are in range exactly when the whole list fits its topology. */
  lemma WalkFaultFree(t: PrimitiveType, v4: seq<Vec4>, indices: seq<int>, vp: Viewport, st: Style)
    requires t != PointList
    ensures t != LineStrip ==>
      (!Walk(t, v4, indices, 0, vp, st).fault <==> |indices| % Stride(t) == 0 && AllIndicesIn(indices, 0, |v4|))
    ensures t == LineStrip ==>
      (!Walk(t, v4, indices, 0, vp, st).fault <==> |indices| <= 1 || AllIndicesIn(indices, 0, |v4|))
  {
    WalkFaults(t, v4, indices, 0, vp, st);
    if t == LineStrip {
      StripFaultFree(|v4|, indices, 0);
    } else {
      ListFaultFree(t, |v4|, indices, 0);
    }
  }

  /** With every vertex in the depth range and on the panel, the point painter draws one dot per vertex. */
  lemma {:induction false} PointWalkAllVisible(v4: seq<Vec4>, j: nat, vp: Viewport, st: Style)
    requires j <= |v4|
    requires forall k :: j <= k < |v4| ==> !OutsideDepth(v4[k], vp) && !OffPanel(ScreenPoint(v4[k], vp), vp)
    ensures |PointWalk(v4, j, vp, st)| == |v4| - j
    decreases |v4| - j
  {
    if j < |v4| {
      PointWalkAllVisible(v4, j + 1, vp, st);
    }
  }

  // ---------------------------------------------------------------------
  // Bounding box

  /** float.MaxValue. */
  const FloatMax: real := 340282346638528859811704183484516925440.0

  /** An axis-aligned box; the parameterless one starts inverted (min = +max float, max = −max float). */
  class AABB {
    var min: Vec3
    var max: Vec3

    constructor Empty()
      ensures min == Vec3(FloatMax, FloatMax, FloatMax)
      ensures max == Vec3(-FloatMax, -FloatMax, -FloatMax)
    {
      min := Vec3(FloatMax, FloatMax, FloatMax);
      max := Vec3(-FloatMax, -FloatMax, -FloatMax);
    }

    constructor (min: Vec3, max: Vec3)
      ensures this.min == min && this.max == max
    {
      this.min := min;
      this.max := max;
    }

    predicate Contains(p: Vec3)
      reads this
    {
      min.x <= p.x <= max.x && min.y <= p.y <= max.y && min.z <= p.z <= max.z
    }

    /** Grow the box to take in `vertex`. */
    method Update(vertex: Vec3)
      modifies this
      ensures min == Vec3(Min(old(min.x), vertex.x), Min(old(min.y), vertex.y), Min(old(min.z), vertex.z))
      ensures max == Vec3(Max(old(max.x), vertex.x), Max(old(max.y), vertex.y), Max(old(max.z), vertex.z))
      ensures Contains(vertex)
      ensures forall p :: old(Contains(p)) ==> Contains(p)
    {
      min := Vec3(Min(min.x, vertex.x), Min(min.y, vertex.y), Min(min.z, vertex.z));
      max := Vec3(Max(max.x, vertex.x), Max(max.y, vertex.y), Max(max.z, vertex.z));
    }

    predicate IsIntersect(other: AABB)
      reads this, other
    {
      min.x <= other.max.x && max.x >= other.min.x &&
      min.y <= other.max.y && max.y >= other.min.y &&
      min.z <= other.max.z && max.z >= other.min.z
    }
  }

  lemma IntersectSymmetric(a: AABB, b: AABB)
    ensures a.IsIntersect(b) <==> b.IsIntersect(a)
  {
  }

  /** Two boxes that share a point intersect. */
  lemma SharedPointIntersects(a: AABB, b: AABB, p: Vec3)
    requires a.Contains(p) && b.Contains(p)
    ensures a.IsIntersect(b)
  {
  }

  // ---------------------------------------------------------------------
  // The mesh

  const DefaultMaterial: Material :=
    Material(Vec3(0.2, 0.2, 0.2), Vec3(0.8, 0.8, 0.8), Vec3(0.0, 0.0, 0.0), 32.0)

  class Mesh {
    var material: Material
    var lights: seq<Light>
    var lineColor: Color
    var lineWidth: real
    var vertices: seq<Vec3>
    var normals: seq<Vec3>
    var uvs: seq<Vec2>
    var indices: seq<int>
    var primitiveType: PrimitiveType

    /** `new Mesh()`: empty lists, triangle list, white 1.5-wide lines, the default material. */
    constructor ()
      ensures primitiveType == TriangleList && material == DefaultMaterial
      ensures lights == [] && vertices == [] && normals == [] && uvs == [] && indices == []
      ensures lineColor == White && lineWidth == 1.5
    {
      material := DefaultMaterial;
      lights, lineColor, lineWidth := [], White, 1.5;
      vertices, normals, uvs, indices := [], [], [], [];
      primitiveType := TriangleList;
    }

    constructor OfType(primitiveType: PrimitiveType)
      ensures this.primitiveType == primitiveType && material == DefaultMaterial
      ensures lights == [] && vertices == [] && normals == [] && uvs == [] && indices == []
      ensures lineColor == White && lineWidth == 1.5
    {
      material := DefaultMaterial;
      lights, lineColor, lineWidth := [], White, 1.5;
      vertices, normals, uvs, indices := [], [], [], [];
      this.primitiveType := primitiveType;
    }

    constructor FromLists(vertices: seq<Vec3>, normals: seq<Vec3>, uvs: seq<Vec2>, indices: seq<int>,
                          primitiveType: PrimitiveType)
      ensures this.vertices == vertices && this.normals == normals && this.uvs == uvs
      ensures this.indices == indices && this.primitiveType == primitiveType
      ensures material == DefaultMaterial && lights == [] && lineColor == White && lineWidth == 1.5
    {
      material := DefaultMaterial;
      lights, lineColor, lineWidth := [], White, 1.5;
      this.vertices, this.normals, this.uvs, this.indices := vertices, normals, uvs, indices;
      this.primitiveType := primitiveType;
    }

    method InitMaterial(ambient: Vec3, diffuse: Vec3, specular: Vec3, shininess: real)
      modifies this
      ensures material == Material(ambient, diffuse, specular, shininess)
      ensures lights == old(lights) && vertices == old(vertices) && indices == old(indices)
      ensures primitiveType == old(primitiveType) && lineColor == old(lineColor) && lineWidth == old(lineWidth)
      ensures normals == old(normals) && uvs == old(uvs)
    {
      material := Material(ambient, diffuse, specular, shininess);
    }

    function StyleOf(lib: MathLib): Style
      reads this
    {
      Style(lights, lineColor, lineWidth, lib)
    }

    /** `paint`: transform every vertex to clip space, then run the painter of the topology. */
    method Paint(scale: Vec3, transform: Mat4, camera: Mat4, vp: Viewport, lib: MathLib) returns (p: Painted)
      ensures p == Render(primitiveType, ClipSpace(vertices, scale, transform, camera), indices, vp, StyleOf(lib))
    {
      var v4 := ClipSpace(vertices, scale, transform, camera);
      match primitiveType
      case TriangleList => p := PaintTriangleList(v4, indices, vp, lib);
      case LineList => p := PaintLineList(v4, indices, vp, lib);
      case LineStrip => p := PaintLineStrip(v4, indices, vp, lib);
      case PointList =>
        var cmds := PaintPointList(v4, vp, lib);
        p := Painted(cmds, false);
      case QuadList => p := PaintQuadList(v4, indices, vp, lib);
    }

    /** The triangle shading loop over the light list. */
    method Shade(v1: Vec4, v2: Vec4, v3: Vec4, lib: MathLib) returns (intensity: real)
      ensures intensity == Intensity(v1, v2, v3, StyleOf(lib))
    {
      var normal := FaceNormal(v1, v2, v3, lib);
      var centroid := Centroid(v1, v2, v3);
      intensity := 0.0;
      for j := 0 to |lights|
        invariant intensity == LightSum(lights[..j], normal, centroid, lib)
      {
        assert lights[..j + 1][..j] == lights[..j];
        intensity := intensity + Max(0.0, Dot(normal, lib.normalize(Sub(lights[j].position, centroid))));
      }
      assert lights[..|lights|] == lights;
      intensity := Min(intensity, 1.0);
    }

    /** One triangle of `paintTriangleList`, from its three fetched vertices. */
    method PaintTriangle(vs: seq<Vec4>, vp: Viewport, lib: MathLib) returns (group: seq<DrawCmd>)
      requires |vs| == 3
      ensures group == GroupCommands(TriangleList, vs, vp, StyleOf(lib))
    {
      var v1, v2, v3 := vs[0], vs[1], vs[2];
      if v1.z < vp.near || v1.z > vp.far || v2.z < vp.near || v2.z > vp.far || v3.z < vp.near || v3.z > vp.far {
        return [];
      }
      var s1, s2, s3 := ScreenPoint(v1, vp), ScreenPoint(v2, vp), ScreenPoint(v3, vp);
      var w, h := vp.width as real, vp.height as real;
      if (s1.x < 0.0 && s2.x < 0.0 && s3.x < 0.0) || (s1.x > w && s2.x > w && s3.x > w)
         || (s1.y < 0.0 && s2.y < 0.0 && s3.y < 0.0) || (s1.y > h && s2.y > h && s3.y > h) {
        return [];
      }
      var intensity := Shade(v1, v2, v3, lib);
      var k := Truncate(255.0 * intensity);
      var pts := [Vec2(s1.x, s1.y), Vec2(s2.x, s2.y), Vec2(s3.x, s3.y)];
      return [FillPolygon(Gray(k), pts), DrawPolygon(Pen(lineColor, lineWidth), pts)];
    }

    method PaintTriangleList(v4: seq<Vec4>, indices: seq<int>, vp: Viewport, lib: MathLib) returns (p: Painted)
      ensures p == Walk(TriangleList, v4, indices, 0, vp, StyleOf(lib))
    {
      ghost var st := StyleOf(lib);
      var cmds: seq<DrawCmd> := [];
      var i := 0;
      while i < |indices|
        invariant 0 <= i
        invariant Walk(TriangleList, v4, indices, 0, vp, st).commands == cmds + Walk(TriangleList, v4, indices, i, vp, st).commands
        invariant Walk(TriangleList, v4, indices, 0, vp, st).fault == Walk(TriangleList, v4, indices, i, vp, st).fault
        decreases |indices| - i
      {
        var g := Fetch(v4, indices, i, 3);
        if g.None? {
          WalkStops(TriangleList, v4, indices, i, vp, st);
          return Painted(cmds, true);
        }
        var group := PaintTriangle(g.value, vp, lib);
        WalkAdvance(TriangleList, v4, indices, i, vp, st, cmds, group);
        cmds := cmds + group;
        i := i + 3;
      }
      WalkEnds(TriangleList, v4, indices, i, vp, st);
      return Painted(cmds, false);
    }

    /** One quad of `paintQuadList`, from its four fetched vertices. */
    method PaintQuad(vs: seq<Vec4>, vp: Viewport, lib: MathLib) returns (group: seq<DrawCmd>)
      requires |vs| == 4
      ensures group == GroupCommands(QuadList, vs, vp, StyleOf(lib))
    {
      var v1, v2, v3, v4 := vs[0], vs[1], vs[2], vs[3];
      if v1.z < vp.near || v1.z > vp.far || v2.z < vp.near || v2.z > vp.far
         || v3.z < vp.near || v3.z > vp.far || v4.z < vp.near || v4.z > vp.far {
        return [];
      }
      var s1, s2, s3, s4 := ScreenPoint(v1, vp), ScreenPoint(v2, vp), ScreenPoint(v3, vp), ScreenPoint(v4, vp);
      var w, h := vp.width as real, vp.height as real;
      if (s1.x < 0.0 && s2.x < 0.0 && s3.x < 0.0 && s4.x < 0.0) || (s1.x > w && s2.x > w && s3.x > w && s4.x > w)
         || (s1.y < 0.0 && s2.y < 0.0 && s3.y < 0.0 && s4.y < 0.0) || (s1.y > h && s2.y > h && s3.y > h && s4.y > h) {
        return [];
      }
      var pts := [Vec2(s1.x, s1.y), Vec2(s2.x, s2.y), Vec2(s3.x, s3.y), Vec2(s4.x, s4.y)];
      return [DrawPolygon(Pen(lineColor, lineWidth), pts)];
    }

    method PaintQuadList(v4: seq<Vec4>, indices: seq<int>, vp: Viewport, lib: MathLib) returns (p: Painted)
      ensures p == Walk(QuadList, v4, indices, 0, vp, StyleOf(lib))
    {
      ghost var st := StyleOf(lib);
      var cmds: seq<DrawCmd> := [];
      var i := 0;
      while i < |indices|
        invariant 0 <= i
        invariant Walk(QuadList, v4, indices, 0, vp, st).commands == cmds + Walk(QuadList, v4, indices, i, vp, st).commands
        invariant Walk(QuadList, v4, indices, 0, vp, st).fault == Walk(QuadList, v4, indices, i, vp, st).fault
        decreases |indices| - i
      {
        var g := Fetch(v4, indices, i, 4);
        if g.None? {
          WalkStops(QuadList, v4, indices, i, vp, st);
          return Painted(cmds, true);
        }
        var group := PaintQuad(g.value, vp, lib);
        WalkAdvance(QuadList, v4, indices, i, vp, st, cmds, group);
        cmds := cmds + group;
        i := i + 4;
      }
      WalkEnds(QuadList, v4, indices, i, vp, st);
      return Painted(cmds, false);
    }

    /** One segment of the line painters, from its two fetched vertices. */
    method PaintSegment(t: PrimitiveType, vs: seq<Vec4>, vp: Viewport, lib: MathLib) returns (seg: seq<DrawCmd>)
      requires (t == LineList || t == LineStrip) && |vs| == 2
      ensures seg == GroupCommands(t, vs, vp, StyleOf(lib))
    {
      var v1, v2 := vs[0], vs[1];
      if v1.z < vp.near || v1.z > vp.far || v2.z < vp.near || v2.z > vp.far {
        return [];
      }
      var s1, s2 := ScreenPoint(v1, vp), ScreenPoint(v2, vp);
      var w, h := vp.width as real, vp.height as real;
      if (s1.x < 0.0 && s2.x < 0.0) || (s1.x > w && s2.x > w) || (s1.y < 0.0 && s2.y < 0.0) || (s1.y > h && s2.y > h) {
        return [];
      }
      return [DrawLine(Pen(lineColor, lineWidth), s1.x, s1.y, s2.x, s2.y)];
    }

    method PaintLineList(v4: seq<Vec4>, indices: seq<int>, vp: Viewport, lib: MathLib) returns (p: Painted)
      ensures p == Walk(LineList, v4, indices, 0, vp, StyleOf(lib))
    {
      ghost var st := StyleOf(lib);
      var cmds: seq<DrawCmd> := [];
      var i := 0;
      while i < |indices|
        invariant 0 <= i
        invariant Walk(LineList, v4, indices, 0, vp, st).commands == cmds + Walk(LineList, v4, indices, i, vp, st).commands
        invariant Walk(LineList, v4, indices, 0, vp, st).fault == Walk(LineList, v4, indices, i, vp, st).fault
        decreases |indices| - i
      {
        var g := Fetch(v4, indices, i, 2);
        if g.None? {
          WalkStops(LineList, v4, indices, i, vp, st);
          return Painted(cmds, true);
        }
        var seg := PaintSegment(LineList, g.value, vp, lib);
        WalkAdvance(LineList, v4, indices, i, vp, st, cmds, seg);
        cmds := cmds + seg;
        i := i + 2;
      }
      WalkEnds(LineList, v4, indices, i, vp, st);
      return Painted(cmds, false);
    }

    method PaintLineStrip(v4: seq<Vec4>, indices: seq<int>, vp: Viewport, lib: MathLib) returns (p: Painted)
      ensures p == Walk(LineStrip, v4, indices, 0, vp, StyleOf(lib))
    {
      ghost var st := StyleOf(lib);
      var cmds: seq<DrawCmd> := [];
      var i := 0;
      while i + 1 < |indices|
        invariant 0 <= i
        invariant Walk(LineStrip, v4, indices, 0, vp, st).commands == cmds + Walk(LineStrip, v4, indices, i, vp, st).commands
        invariant Walk(LineStrip, v4, indices, 0, vp, st).fault == Walk(LineStrip, v4, indices, i, vp, st).fault
        decreases |indices| - i
      {
        var g := Fetch(v4, indices, i, 2);
        if g.None? {
          WalkStops(LineStrip, v4, indices, i, vp, st);
          return Painted(cmds, true);
        }
        var seg := PaintSegment(LineStrip, g.value, vp, lib);
        WalkAdvance(LineStrip, v4, indices, i, vp, st, cmds, seg);
        cmds := cmds + seg;
        i := i + 1;
      }
      WalkEnds(LineStrip, v4, indices, i, vp, st);
      return Painted(cmds, false);
    }

    /** The `foreach` over the transformed vertices; `indices` plays no part. */
    method PaintPointList(v4: seq<Vec4>, vp: Viewport, lib: MathLib) returns (cmds: seq<DrawCmd>)
      ensures cmds == PointWalk(v4, 0, vp, StyleOf(lib))
    {
      ghost var st := StyleOf(lib);
      cmds := [];
      for j := 0 to |v4|
        invariant PointWalk(v4, 0, vp, st) == cmds + PointWalk(v4, j, vp, st)
      {
        assert PointWalk(v4, j, vp, st) == PointCommands(v4[j], vp, st) + PointWalk(v4, j + 1, vp, st);
        var v := v4[j];
        if v.z < vp.near || v.z > vp.far {
          assert PointCommands(v, vp, st) == [];
          continue;
        }
        var s := ScreenPoint(v, vp);
        if s.x < 0.0 || s.x > vp.width as real || s.y < 0.0 || s.y > vp.height as real {
          assert PointCommands(v, vp, st) == [];
          continue;
        }
        var dot := [FillEllipse(lineColor, s.x - lineWidth / 2.0, s.y - lineWidth / 2.0, lineWidth, lineWidth)];
        assert PointCommands(v, vp, st) == dot;
        AppendAssoc(cmds, dot, PointWalk(v4, j + 1, vp, st));
        cmds := cmds + dot;
      }
    }

    method SetLineColor(color: Color)
      modifies this
      ensures lineColor == color && lineWidth == old(lineWidth) && lights == old(lights)
      ensures vertices == old(vertices) && indices == old(indices) && primitiveType == old(primitiveType)
      ensures material == old(material) && normals == old(normals) && uvs == old(uvs)
    {
      lineColor := color;
    }

    method SetLineWidth(width: real)
      modifies this
      ensures lineWidth == width && lineColor == old(lineColor) && lights == old(lights)
      ensures vertices == old(vertices) && indices == old(indices) && primitiveType == old(primitiveType)
      ensures material == old(material) && normals == old(normals) && uvs == old(uvs)
    {
      lineWidth := width;
    }

    /** `addLight`: append. */
    method AddLight(light: Light)
      modifies this
      ensures lights == old(lights) + [light]
      ensures vertices == old(vertices) && indices == old(indices) && primitiveType == old(primitiveType)
      ensures lineColor == old(lineColor) && lineWidth == old(lineWidth) && material == old(material)
      ensures normals == old(normals) && uvs == old(uvs)
    {
      lights := lights + [light];
    }

    /** `removeLight`: drop the first equal light when there is one. */
    method RemoveLight(light: Light)
      modifies this
      ensures light !in old(lights) ==> lights == old(lights)
      ensures light in old(lights) ==>
        var k := IndexOf(old(lights), light);
        lights == old(lights)[..k] + old(lights)[k + 1..]
      ensures multiset(lights) == multiset(old(lights)) - multiset{light}
      ensures vertices == old(vertices) && indices == old(indices) && primitiveType == old(primitiveType)
      ensures lineColor == old(lineColor) && lineWidth == old(lineWidth) && material == old(material)
      ensures normals == old(normals) && uvs == old(uvs)
    {
      RemoveFirstMultiset(lights, light);
      lights := RemoveFirst(lights, light);
    }

    method SetVertices(v: seq<Vec3>)
      modifies this
      ensures vertices == v && indices == old(indices) && primitiveType == old(primitiveType)
      ensures lights == old(lights) && normals == old(normals) && uvs == old(uvs)
      ensures lineColor == old(lineColor) && lineWidth == old(lineWidth) && material == old(material)
    {
      vertices := v;
    }

    method SetIndices(indices: seq<int>)
      modifies this
      ensures this.indices == indices && vertices == old(vertices) && primitiveType == old(primitiveType)
      ensures lights == old(lights) && normals == old(normals) && uvs == old(uvs)
      ensures lineColor == old(lineColor) && lineWidth == old(lineWidth) && material == old(material)
    {
      this.indices := indices;
    }

    method SetPrimitiveType(primitiveType: PrimitiveType)
      modifies this
      ensures this.primitiveType == primitiveType && vertices == old(vertices) && indices == old(indices)
      ensures lights == old(lights) && normals == old(normals) && uvs == old(uvs)
      ensures lineColor == old(lineColor) && lineWidth == old(lineWidth) && material == old(material)
    {
      this.primitiveType := primitiveType;
    }
  }
}
