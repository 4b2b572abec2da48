# MyGame physics and scene core in Dafny

This is a model of the core of MyGame, a WinForms 3-D sandbox written in C#. It covers:

- **Meshes.** Vertices, indices and a topology are painted into draw commands through five painters. A painter clips on depth and on the panel edges. It shades triangles by the light list and stops at the first index that reads past a list.
- **Bodies.** A `GameObject` places its mesh with a transform whose translation row is its position. Each tick it applies its forces, its gravity and two damping factors. Four shapes are built on it: Surface, Cube, TriangleSurface and SphereParticle.
- **Forces, gravity and lights.**
- **Octree.** The broad-phase octree stores and retrieves bodies.
- **Cameras.** There are two: a perspective camera and a flat (orthographic) camera.
- **Scene.** It holds the ordered body list and forwards gestures to the active camera.
- **Audio providers.** These are the cached-sound sample provider, the self-disposing file reader and the mixer's channel-count rule.

Numbers are `real`. The trigonometric and square-root builders of System.Numerics are the fields of a `MathLib` value that operations take as a parameter:

- `CreateFromYawPitchRoll`, `CreateRotationZ`;
- `CreatePerspectiveFieldOfView` (a tangent of half the field of view);
- `Math.Sqrt`, `Vector3.Normalize`.

`CreateOrthographicOffCenter` is plain arithmetic and is defined outright (`Numerics.OrthographicOffCenter`).

Modules, one file each:

- `Numerics` (numerics.dfy): vectors, row-major 4×4 matrices, `Transform`, the single-precision quotient.
- `Ids` (ids.dfy): the id registries.
- `Lists` and `Wrappers` (lists.dfy): `List.Remove`, `Option` and `Result`.
- `Lights` (light.dfy).
- `Meshes` (mesh.dfy).
- `Physics` (physics.dfy).
- `Octrees` (octree.dfy).
- `GameObjects` (gameobject.dfy).
- `BasicPolygons` (basic_polygon.dfy).
- `Cameras` (camera.dfy).
- `Scenes` (scene.dfy).
- `Audio` (audio.dfy).

Mutable C# objects are Dafny classes with `modifies` frames:

- `Mesh`, `GameObject`, `Force`, `Gravity`;
- the cameras, `Scene`;
- the audio providers;
- the id registries.

Light, matrices and vectors are datatypes, and so is the octree (see "Left out").

C# inheritance becomes composition. A `Gravity` holds the `Force` it extends as `base`. Each shape holds its `GameObject` as `body`.

Two behaviours of the code are easy to misread. The model keeps the first as written and records it as a defect:

- `Camera2D.getAllTransform` returns a field that nothing assigns, not view × projection. `Camera2D.GetAllTransform` models it as written. The scene paints 2-D bodies with the corrected product instead (see "Findings").
- `Gravity.get` hides `Force.get` rather than overriding it, so `add`/`set` on the base force do not reach the gravity a body applies.

The other defect under "Findings", the `TriangleSurface` quad table, is handled the same way: the table as written is modelled and shown to fault, and `SetPrimitiveType` installs the corrected one.

## Model

| member | source | states |
|---|---|---|
| Numerics.IntQuotient | physics/Camera.cs:123 | `(float)width / height` is finite exactly when the height is non-zero, and then times the height it gives back the width; for a zero height it is +∞, −∞ or NaN as the width is positive, negative or zero |
| Numerics.Rotation | physics/GameObjects/GameObject.cs:137 | a rotation from the yaw/pitch/roll builder has a zero translation row and M44 = 1 |
| Numerics.MulKeepsTranslationRow | physics/GameObjects/GameObject.cs:137-138 | `r * transform` with a pure rotation `r` keeps the transform's translation row, so turning a body does not move it |
| Numerics.Transform4Mul | physics/Mesh.cs:148-153 | transforming a vector by a product of matrices equals transforming it by each in turn |
| Numerics.DistanceSymmetric | physics/GameObjects/GameObject.cs:197 | the distance between two vertices does not depend on their order |
| Ids.FreeIdExists | physics/GameObjects/GameObject.cs:67-73 | while fewer than int.MaxValue − 1 ids are taken, some id in [1, int.MaxValue) is free, so the retry loop has something to find |
| Ids.FreshId | physics/GameObjects/GameObject.cs:67-74 | the drawn id lies in [1, int.MaxValue) and is not already a key of the map |
| Ids.Registry.constructor | physics/GameObjects/GameObject.cs:19 | the static id map starts empty |
| Ids.Registry.Register | physics/GameObjects/GameObject.cs:64-76 | `arrangeID`: a fresh id, and the map extended by exactly that id ↦ the object |
| Lists.IndexOf | game/Scene.cs:55 | the position of the first occurrence: the element is there and at no earlier position |
| Lists.RemoveFirst | game/Scene.cs:55 | `List.Remove`: without the element the list is unchanged; with it, exactly the first occurrence is cut out |
| Lists.RemoveFirstMultiset | physics/Mesh.cs:359 | removal takes one copy of the element out of the multiset and leaves the others |
| Lights.NewLight | game/Light.cs:10-15 | a base light sits at the origin with colour (1, 1, 1) and intensity 1 |
| Lights.NewPointLight | game/Light.cs:19-24 | a point light carries exactly the given position, colour and intensity |
| Lights.NewDirectionalLight | game/Light.cs:31-36 | a directional light carries the given direction, colour and intensity and stays at the origin |
| Lights.NewSpotLight | game/Light.cs:45-53 | a spot light carries exactly its six arguments |
| Meshes.ClipSpace | physics/Mesh.cs:148-153 | one transformed vertex per vertex, in order, each (v, 1) × scale × transform × camera |
| Meshes.ClipSpaceComposite | physics/Mesh.cs:145-153 | the three transforms applied in turn equal one transform by their product |
| Meshes.Screen | physics/Mesh.cs:194-201 | one screen point per clip-space point: perspective divide, then the panel mapping |
| Meshes.Points | physics/Mesh.cs:220 | the `PointF` array: each screen point's x and y, in order |
| Meshes.LightSum | physics/Mesh.cs:211-216 | the sum over the light list of max(0, normal · direction) is never negative |
| Meshes.Intensity | physics/Mesh.cs:211-217 | the shading intensity is the light sum capped at 1, so it lies in [0, 1] |
| Meshes.Truncate | physics/Mesh.cs:218 | the `(int)` cast truncates toward zero: for x ≥ 0 the largest integer not above x, for x < 0 the smallest integer not below it |
| Meshes.GrayLevel | physics/Mesh.cs:218 | (int)(255·i) for i in [0, 1] is a colour channel in [0, 255] within one step below 255·i |
| Meshes.GroupCommandsEmpty | physics/Mesh.cs:188-227 | one primitive draws nothing exactly when some vertex is outside [near, far] or all its screen points are beyond one panel edge: the vertex-by-vertex tests of the painters are these two rules |
| Meshes.GroupCommandsShape | physics/Mesh.cs:218-227 | a drawn triangle is a gray fill followed by its outline in the line pen; a quad is its outline (348); a line is one segment (257, 287) |
| Meshes.PointCommands | physics/Mesh.cs:296-312 | a vertex draws nothing exactly when it is outside the depth range or off the panel; otherwise one dot of the line width centred on it |
| Meshes.Clip2 | physics/Mesh.cs:239-253 | for a segment, "some vertex outside the depth range" and "all screen points past one edge" are exactly the line painters' two-vertex tests |
| Meshes.Clip3 | physics/Mesh.cs:188-204 | for a triangle, the two clip rules are exactly the triangle painter's three-vertex tests |
| Meshes.Clip4 | physics/Mesh.cs:326-344 | for a quad, the two clip rules are exactly the quad painter's four-vertex tests |
| Meshes.Gather | physics/Mesh.cs:183-185 | the group's vertices are `vertices4[indices[i + k]]` in order |
| Meshes.Fetch | physics/Mesh.cs:320-323 | the group's list reads succeed exactly when every index access is in range, and then give the gathered vertices |
| Meshes.WalkAdvance | physics/Mesh.cs:181-228 | the painters' loop invariant survives drawing one group |
| Meshes.WalkFaults | physics/Mesh.cs:181-185 | the walk faults exactly when the index reads alone say so; the clip tests never matter |
| Meshes.ListFaultFree | physics/Mesh.cs:181 | a list painter runs to the end exactly when the remaining count is a multiple of its stride and every index names a vertex |
| Meshes.StripFaultFree | physics/Mesh.cs:263-266 | the strip painter runs to the end exactly when at most one index remains or every index names a vertex |
| Meshes.WalkFaultFree | physics/Mesh.cs:179-289 | from the start of the list: no fault exactly when the index list fits its topology |
| Meshes.PointWalkAllVisible | physics/Mesh.cs:293-313 | with every vertex visible, the point painter draws one dot per vertex |
| Meshes.AABB.Empty | physics/Mesh.cs:39-40 | the parameterless box starts inverted: min = +float.MaxValue, max = −float.MaxValue |
| Meshes.AABB.constructor | physics/Mesh.cs:42-46 | the box holds the given corners |
| Meshes.AABB.Update | physics/Mesh.cs:52-60 | the box grows per axis to include the vertex and keeps every point it contained |
| Meshes.IntersectSymmetric | physics/Mesh.cs:62-67 | box intersection does not depend on the order of the boxes |
| Meshes.SharedPointIntersects | physics/Mesh.cs:62-67 | two boxes that contain a common point intersect |
| Meshes.Mesh.constructor | physics/Mesh.cs:100-116 | empty lists, triangle-list topology, white pen of width 1.5, the default material |
| Meshes.Mesh.OfType | physics/Mesh.cs:118-122 | as the default constructor, with the given topology |
| Meshes.Mesh.FromLists | physics/Mesh.cs:124-132 | the given lists and topology, default material, no lights |
| Meshes.Mesh.InitMaterial | physics/Mesh.cs:134-140 | the material becomes the four given values; nothing else changes |
| Meshes.Mesh.Paint | physics/Mesh.cs:142-177 | the commands and fault of `Render` for the mesh's topology on its clip-space vertices |
| Meshes.Mesh.Shade | physics/Mesh.cs:206-217 | the light loop computes `Intensity` |
| Meshes.Mesh.PaintTriangle | physics/Mesh.cs:183-227 | one loop body of the triangle painter draws `GroupCommands` for its three vertices |
| Meshes.Mesh.PaintTriangleList | physics/Mesh.cs:179-229 | the triangle painter's loop draws the walk's commands and faults where it does |
| Meshes.Mesh.PaintQuad | physics/Mesh.cs:320-348 | one loop body of the quad painter |
| Meshes.Mesh.PaintQuadList | physics/Mesh.cs:316-350 | the quad painter's loop equals the walk |
| Meshes.Mesh.PaintSegment | physics/Mesh.cs:235-257 | one loop body of the line painters |
| Meshes.Mesh.PaintLineList | physics/Mesh.cs:231-259 | the line-list painter's loop equals the walk |
| Meshes.Mesh.PaintLineStrip | physics/Mesh.cs:261-289 | the strip painter's loop equals the walk |
| Meshes.Mesh.PaintPointList | physics/Mesh.cs:291-314 | the point painter's loop equals the point walk |
| Meshes.Mesh.SetLineColor | physics/Mesh.cs:352 | only the pen colour changes |
| Meshes.Mesh.SetLineWidth | physics/Mesh.cs:353 | only the pen width changes |
| Meshes.Mesh.AddLight | physics/Mesh.cs:358 | the light joins the end of the list |
| Meshes.Mesh.RemoveLight | physics/Mesh.cs:359 | the first equal light is removed if present, otherwise nothing changes; one copy leaves the multiset |
| Meshes.Mesh.SetVertices | physics/Mesh.cs:361 | only the vertex list changes |
| Meshes.Mesh.SetIndices | physics/Mesh.cs:367 | only the index list changes |
| Meshes.Mesh.SetPrimitiveType | physics/Mesh.cs:368 | only the topology changes |
| Physics.Force.constructor | physics/physics.cs:15-31 | the given name, vector and application point, registered under a fresh id |
| Physics.Force.ArrangeId | physics/physics.cs:34-44 | a fresh id in [1, int.MaxValue), the force map extended by it; vector and point kept |
| Physics.Force.Set | physics/physics.cs:47 | the vector becomes the argument |
| Physics.Force.Add | physics/physics.cs:48 | the vector grows by the argument |
| Physics.Force.SetPos | physics/physics.cs:49 | the application point becomes the argument |
| Physics.Force.Clear | physics/physics.cs:52 | the vector becomes zero |
| Physics.Force.GetTorque | physics/physics.cs:51 | pos × f, perpendicular to both the lever and the force |
| Physics.Gravity.constructor | physics/physics.cs:59 | a base force named 重力 of G·mass at the origin, and the mass |
| Physics.Gravity.SetMass | physics/physics.cs:60 | the mass, and the base force reset to G·mass |
| Physics.Gravity.Get | physics/physics.cs:57-61 | straight down with magnitude 9.8·mass, whatever was done to the base force |
| Octrees.GetIndex | physics/Octree.cs:77-118 | an octant number in [0, 8) or −1 |
| Octrees.GetIndexSpec | physics/Octree.cs:85-117 | an octant means the body is on that octant's side of all three midpoints; −1 means it is on no octant's side of all three |
| Octrees.ChildBoundsSpec | physics/Octree.cs:59-74 | child i starts half an extent further along each axis whose bit is set, has half the parent's extent, and ends at the parent's max there |
| Octrees.GetIndexMatchesChild | physics/Octree.cs:67-117 | the octant `GetIndex` picks is the child box on the body's side of every midpoint |
| Octrees.NewOctree | physics/Octree.cs:34-40 | a valid empty leaf at the given level and box |
| Octrees.Clear | physics/Octree.cs:42-54 | a valid empty leaf with the same level and box |
| Octrees.Split | physics/Octree.cs:56-75 | eight empty children, one level down, with the eight octant boxes; the node's own bodies kept |
| Octrees.SplitKeeps | physics/Octree.cs:135-140 | splitting a leaf above the depth limit keeps the invariant (stragglers aside) and the stored bodies |
| Octrees.Insert | physics/Octree.cs:120-157 | the tree stays valid, with the same level and box, and stores exactly one more copy of the body |
| Octrees.Redistribute | physics/Octree.cs:142-155 | the push-down loop leaves a valid split node with the same bodies |
| Octrees.RetrieveAppends | physics/Octree.cs:159-171 | `Retrieve` appends to the caller's list and keeps its contents in front |
| Octrees.CandidatesStored | physics/Octree.cs:159-171 | every candidate is stored in the tree, no more often than it is stored |
| Octrees.StoredIsFound | physics/Octree.cs:120-171 | a stored body is among its own candidates |
| Octrees.DepthBound | physics/Octree.cs:135 | no node of a valid tree rooted within `MaxLevels` lies deeper than `MaxLevels` |
| GameObjects.FreeFall | physics/GameObjects/GameObject.cs:108-111 | with no forces, a = gravity / mass = G whatever the mass |
| GameObjects.TotalForceAppend | physics/GameObjects/GameObject.cs:103-105 | adding a force to the list adds its vector to the total |
| GameObjects.InertiaTensorShape | physics/GameObjects/GameObject.cs:85-90 | the tensor is diagonal, with the three moments m(b² + c²)/12 and 1 in the corner |
| GameObjects.MomentNonNegative | physics/GameObjects/GameObject.cs:86-88 | each moment of a non-negative mass is non-negative |
| GameObjects.InvertDiagonalInverts | physics/GameObjects/GameObject.cs:93 | for non-zero moments the inverse is a two-sided inverse |
| GameObjects.StepMoves | physics/GameObjects/GameObject.cs:119-138 | with the lock taken, the position advances by v·t + ½·a·t² and the turn leaves that position alone |
| GameObjects.StepFromRest | physics/GameObjects/GameObject.cs:108-117 | from rest under gravity alone, a = G and v = G·t·(1 − friction) |
| GameObjects.StepSpinDecays | physics/GameObjects/GameObject.cs:122-129 | with no torque the angular acceleration is zero and the angular velocity only decays by (1 − angularf) |
| GameObjects.Placed | physics/GameObjects/GameObject.cs:186-189 | each vertex placed by the body's transform, in order |
| GameObjects.TouchingSymmetric | physics/GameObjects/GameObject.cs:192-205 | two vertex lists touch in either order or in neither |
| GameObjects.GameObject.constructor | physics/GameObjects/GameObject.cs:21-62 | the field initialisers, the arguments with the position in M41..M43, and a fresh registered id; the gravity's base force is registered under a fresh id, so the force map gains exactly that entry |
| GameObjects.GameObject.WithRotation | physics/GameObjects/GameObject.cs:41-51 | the rotation builder's matrix with the position written into its translation row, a fresh registered id; the gravity's base force is registered under a fresh id, so the force map gains exactly that entry |
| GameObjects.GameObject.InitializeInertiaTensor | physics/GameObjects/GameObject.cs:82-94 | the box tensor of the mass and scale, and its diagonal inverse |
| GameObjects.GameObject.Body | physics/GameObjects/GameObject.cs:209-215 | what the octree reads: the id, `PosX`…`PosZ` and `SizeX`…`SizeZ` |
| GameObjects.TorqueAbout | physics/GameObjects/GameObject.cs:101-107 | the summed torques about a point are the forces' total moment minus that point × their total vector, so a tick depends on the forces only through these two sums |
| GameObjects.GameObject.Update | physics/GameObjects/GameObject.cs:96-141 | a solid body is untouched; otherwise the motion becomes one tick: a `Step` of the forces, their torques, gravity and damping; forces, solidity, mass tensor and inverse are kept |
| GameObjects.GameObject.SumForces | physics/GameObjects/GameObject.cs:101-107 | the loop's totals are the sums of the force vectors and of their torques about the position, in list order |
| GameObjects.GameObject.Move | physics/GameObjects/GameObject.cs:150-155 | the position grows by the offset; `getRot` and everything else are kept |
| GameObjects.GameObject.MoveTo | physics/GameObjects/GameObject.cs:157-162 | the position becomes the argument; the rotation block, and so `getRot`, is kept |
| GameObjects.GameObject.RotateTo | physics/GameObjects/GameObject.cs:164-167 | the transform becomes the bare rotation, so the body also returns to the origin |
| GameObjects.GameObject.SetVelocity | physics/GameObjects/GameObject.cs:174 | only the velocity changes |
| GameObjects.GameObject.SetAngularVelocity | physics/GameObjects/GameObject.cs:175 | only the angular velocity changes |
| GameObjects.GameObject.AddLight | physics/GameObjects/GameObject.cs:177-180 | the light joins the end of the mesh's light list |
| GameObjects.GameObject.Paint | physics/GameObjects/GameObject.cs:145-148 | the mesh is painted at the body's scale and transform |
| GameObjects.GameObject.AddForce | physics/GameObjects/GameObject.cs:169-172 | the force joins the end of the list and the total grows by its vector |
| GameObjects.GameObject.IsCollide | physics/GameObjects/GameObject.cs:183-206 | a collision is reported exactly when some pair of placed vertices is closer than 0.1 |
| GameObjects.IsCollideSymmetric | physics/GameObjects/GameObject.cs:183-206 | a collides with b exactly when b collides with a |
| BasicPolygons.FittingTableNeverFaults | physics/Mesh.cs:159-289 | an index table that fits its topology never makes a painter read past a list |
| BasicPolygons.SurfaceVertices | physics/GameObjects/BasicPolygon.cs:14-20 | four corners, all in the plane y = 0 |
| BasicPolygons.SurfaceIndices | physics/GameObjects/BasicPolygon.cs:25-47 | each topology's table fits it, with the lengths 6, 4, 8, 5 and 4 |
| BasicPolygons.SurfaceSides | physics/GameObjects/BasicPolygon.cs:38 | the line list draws the four sides of the square, each joining corners one coordinate apart |
| BasicPolygons.Surface.constructor | physics/GameObjects/BasicPolygon.cs:12-23 | a mass-1 body with the square's corners, the topology's table and the scale; the body starts with no forces, zero motion, a zero tensor and its inverse, and an unrotated transform translated to the position; the gravity's base force is registered under a fresh id, so the force map gains exactly that entry |
| BasicPolygons.Surface.SetPrimitiveType | physics/GameObjects/BasicPolygon.cs:25-47 | the topology and its table; the corners are kept |
| BasicPolygons.SurfaceNeverFaults | physics/GameObjects/BasicPolygon.cs:25-47 | no topology of the square ever faults |
| BasicPolygons.CubeVertices | physics/GameObjects/BasicPolygon.cs:54-64 | eight corners with every coordinate ±0.5 |
| BasicPolygons.CubeTriangles | physics/GameObjects/BasicPolygon.cs:92-100 | 36 indices, all naming a corner |
| BasicPolygons.CubeQuads | physics/GameObjects/BasicPolygon.cs:103-111 | 24 indices, all naming a corner |
| BasicPolygons.CubeLines | physics/GameObjects/BasicPolygon.cs:114 | 24 indices, all naming a corner |
| BasicPolygons.CubeStrip | physics/GameObjects/BasicPolygon.cs:117 | 17 indices, all naming a corner |
| BasicPolygons.CubeIndices | physics/GameObjects/BasicPolygon.cs:85-123 | each topology's table fits it, with the lengths 36, 24, 24, 17 and 8 |
| BasicPolygons.CubeEdges | physics/GameObjects/BasicPolygon.cs:114 | the 12 segments of the line list each join corners one coordinate apart: they are cube edges |
| BasicPolygons.CubeEdgesDistinct | physics/GameObjects/BasicPolygon.cs:114 | no two of those segments are the same edge, so all 12 edges are drawn |
| BasicPolygons.CubeQuadFaces | physics/GameObjects/BasicPolygon.cs:103-111 | each of the six quads has four distinct corners lying in one face plane |
| BasicPolygons.Cube.constructor | physics/GameObjects/BasicPolygon.cs:52-67 | a mass-1 quad-list cube with the scale; the body starts with no forces, zero motion, a zero tensor and its inverse, and an unrotated transform translated to the position; the gravity's base force is registered under a fresh id, so the force map gains exactly that entry |
| BasicPolygons.Cube.OfType | physics/GameObjects/BasicPolygon.cs:68-83 | a mass-1 cube with the given topology's table and the scale; the body starts with no forces, zero motion, a zero tensor and its inverse, and an unrotated transform translated to the position; the gravity's base force is registered under a fresh id, so the force map gains exactly that entry |
| BasicPolygons.Cube.SetPrimitiveType | physics/GameObjects/BasicPolygon.cs:85-123 | the topology and its table; the corners are kept |
| BasicPolygons.CubeNeverFaults | physics/GameObjects/BasicPolygon.cs:85-123 | no topology of the cube ever faults |
| BasicPolygons.TriangleVertices | physics/GameObjects/BasicPolygon.cs:130-135 | the first three dots laid in the y = 0 plane as (X, 0, Y) |
| BasicPolygons.TriangleSurfaceIndicesAsWritten | physics/GameObjects/BasicPolygon.cs:140-162 | the tables as written; every index names a corner, but the quad table's length is not a multiple of 4 |
| BasicPolygons.TriangleSurfaceQuadFaults | physics/GameObjects/BasicPolygon.cs:149-150 | as written, painting a TriangleSurface as a quad list always faults |
| BasicPolygons.TriangleSurfaceIndices | physics/GameObjects/BasicPolygon.cs:140-162 | corrected tables: each fits its topology, and all but the quad table are as written |
| BasicPolygons.TriangleSurfaceNeverFaults | physics/GameObjects/BasicPolygon.cs:140-162 | with the corrected tables no topology of the triangle faults |
| BasicPolygons.TriangleSurface.constructor | physics/GameObjects/BasicPolygon.cs:128-138 | a mass-1 triangle-list body on the first three dots, with the scale; the body starts with no forces, zero motion, a zero tensor and its inverse, and an unrotated transform translated to the position; the gravity's base force is registered under a fresh id, so the force map gains exactly that entry |
| BasicPolygons.TriangleSurface.SetPrimitiveType | physics/GameObjects/BasicPolygon.cs:140-162 | the topology and its (corrected) table; the corners are kept |
| BasicPolygons.RandomPoints | physics/GameObjects/BasicPolygon.cs:193-202 | `count` draws in order, none for a negative count |
| BasicPolygons.SphereParticle.constructor | physics/GameObjects/BasicPolygon.cs:167-188 | `count` drawn points as a point list with no indices, scaled by the radius on every axis; the body starts with no forces, zero motion, a zero tensor and its inverse, and an unrotated transform translated to the position; the gravity's base force is registered under a fresh id, so the force map gains exactly that entry |
| BasicPolygons.SphereParticle.SetColor | physics/GameObjects/BasicPolygon.cs:190 | the mesh's pen colour changes; nothing else does |
| BasicPolygons.SphereParticle.SetLineWidth | physics/GameObjects/BasicPolygon.cs:191 | the mesh's pen width changes; nothing else does |
| BasicPolygons.SphereParticle.GenerateRandomPoints | physics/GameObjects/BasicPolygon.cs:193-202 | the vertices become `count` fresh draws; topology and indices are kept |
| BasicPolygons.SphereParticle.Update | physics/GameObjects/BasicPolygon.cs:229-236 | a dynamic cloud redraws its points, then the body takes its ordinary tick |
| Cameras.ViewMovesWorldBack | physics/Camera.cs:49-58 | whatever the rotation, the view's translation row is −position and M44 = 1 |
| Cameras.ClampFov | physics/Camera.cs:113-115 | the clamped field of view lies in [0.1, 3.1415926] and equals its input when that is already in range |
| Cameras.ClampFovMonotone | physics/Camera.cs:113-115 | a wider field of view before clamping is never narrower after |
| Cameras.Camera3D.constructor | physics/Camera.cs:25-35 | the field initialisers: origin, no rotation, 45° in radians, aspect 1, depth range [0.1, 1000], zero matrices |
| Cameras.Camera3D.WithParameters | physics/Camera.cs:37-47 | the arguments, the view of the position and rotation, and the perspective of fov, aspect, near and far |
| Cameras.Camera3D.UpdateViewMatrix | physics/Camera.cs:49-58 | the view of the current pose, stored and returned; nothing else changes |
| Cameras.Camera3D.UpdateProjectionMatrix | physics/Camera.cs:60-69 | the perspective of the current parameters, stored and returned |
| Cameras.Camera3D.Move | physics/Camera.cs:85-89 | the position grows by the offset, the view follows, and fov, aspect and projection are untouched |
| Cameras.Camera3D.MoveTo | physics/Camera.cs:91-95 | the position becomes the argument, the view follows, and the projection is untouched |
| Cameras.Camera3D.Rotate | physics/Camera.cs:97-101 | the angles grow by the offset, the view follows with its translation row still −position, and the projection is untouched |
| Cameras.Camera3D.RotateTo | physics/Camera.cs:103-107 | the angles become the argument, the view follows, and the projection is untouched |
| Cameras.Camera3D.Zoom | physics/Camera.cs:109-119 | fov − offset/5000 clamped to [0.1, 3.1415926], exact when already in range; the projection rebuilt, the view untouched |
| Cameras.Camera3D.Resize | physics/Camera.cs:121-128 | the aspect becomes width/height; the projection is rebuilt exactly when that aspect is at least zero |
| Cameras.ResizeRebuildsOnPanel | physics/Camera.cs:121-128 | a panel of positive size gives a positive aspect, so the projection is rebuilt |
| Cameras.PerspectiveTransformComposes | physics/Camera.cs:71-74 | `getAllTransform` applies the view and then the projection to every placed vertex |
| Numerics.OrthographicMapsBox | physics/Camera.cs:165 | the orthographic builder sends the box's near lower-left corner to (−1, −1, 0) and its far upper-right corner to (1, 1, 1) |
| Cameras.OrthographicCentred | physics/Camera.cs:163-166 | the panel box ±(w/2) by ±(h/2) is centred: the orthographic matrix has no X or Y translation |
| Cameras.HalfOdd | physics/Camera.cs:163-166 | C#'s truncating `/ 2` makes the box symmetric: −w/2 is exactly −(w/2), and w/2 is the floor of half a non-negative w |
| Cameras.EditedView | physics/Camera.cs:182-194 | M41 and M42 become −position.X and −position.Y, and every other entry is kept |
| Cameras.EditedViewUnrotated | physics/Camera.cs:182-194 | with no rotation and no change of depth, editing the two entries gives the rebuilt view of the new position |
| Cameras.Camera2D.constructor | physics/Camera.cs:133-144 | the field initialisers and the position (0, 0, 30); every matrix zero |
| Cameras.Camera2D.WithParameters | physics/Camera.cs:145-156 | the arguments, the view of the position and angle, the orthographic box of the panel; `transform` stays zero |
| Cameras.Camera2D.Move | physics/Camera.cs:182-187 | the position grows by the offset, and only M41 and M42 of the view follow it |
| Cameras.Camera2D.MoveTo | physics/Camera.cs:189-194 | the position becomes the argument, and only M41 and M42 of the view follow it |
| Cameras.Camera2D.Rotate | physics/Camera.cs:196-200 | the angle grows by the offset and the view is rebuilt |
| Cameras.Camera2D.RotateTo | physics/Camera.cs:202-206 | the angle becomes the argument and the view is rebuilt |
| Cameras.Camera2D.Zoom | physics/Camera.cs:208-212 | the scale grows by the offset; the rebuilt orthographic box reads only the panel and depth range, so it is the same box |
| Cameras.Camera2D.Resize | physics/Camera.cs:214-219 | the new panel size and the orthographic box rebuilt for it |
| Cameras.FlatTransformCollapses | physics/Camera.cs:168-171 | as written, the flat camera's total transform sends every vertex to the zero vector |
| Cameras.CombinedTransformComposes | physics/Camera.cs:157-166 | corrected total transform: a vertex goes through the view and then the orthographic box |
| Scenes.Scene.constructor | game/Scene.cs:25-46 | no bodies; a flat camera at (0, 0, 5) on 800×600 and a perspective camera at (0, 0, 7.5) with a 45° field of view |
| Scenes.Scene.AddGameObject | game/Scene.cs:48-51 | the body joins the end of the list |
| Scenes.Scene.RemoveGameObject | game/Scene.cs:53-56 | the first occurrence goes if present, otherwise nothing changes; one copy leaves the multiset |
| Scenes.Scene.ClearGameObjects | game/Scene.cs:63-66 | the list is empty |
| Scenes.Scene.Update | game/Scene.cs:68-77 | one update per entry of the list as it was on entry: a body listed n times ends n ticks on from where it started, with its forcing kept and its force list, mesh, scale, id and inertia tensor untouched; the list itself is unchanged |
| Scenes.Scene.UpdateObject | game/Scene.cs:74-75 | both branches of the `is3D` test update the body alike: one tick on, its forcing kept, and its force list, mesh, scale, id and inertia tensor untouched |
| Scenes.Scene.Rotate | game/Scene.cs:107-111 | nothing changes |
| Scenes.Scene.Resize | game/Scene.cs:113-117 | the active camera takes the new size; the other is unchanged |
| Scenes.Scene.Zoom | game/Scene.cs:119-123 | the active camera zooms; the other is unchanged |
| Scenes.Scene.Translate | game/Scene.cs:125-129 | the active camera moves by the offset; the other is unchanged |
| Scenes.Scene.RenderTransform | game/Scene.cs:95-96 | the camera matrix each body is painted with: the active camera's `getAllTransform`, view × projection in 3-D; in 2-D the corrected view × orthographic box, not the zero matrix the code returns |
| Scenes.Scene.GetCamera | game/Scene.cs:131-135 | the perspective camera exactly when the scene is 3-D, the flat one otherwise |
| Audio.SamplesToCopy | MusicSynth/AudioPlaybackEngine.cs:139-140 | min(available, count): no more than either, and equal to one of them |
| Audio.CopyCheck | MusicSynth/AudioPlaybackEngine.cs:141 | `Array.Copy` accepts exactly a non-negative length at a non-negative offset that fits the buffer |
| Audio.ReadFits | MusicSynth/AudioPlaybackEngine.cs:139-141 | a non-negative request into a buffer with room never throws and copies at most the count |
| Audio.CachedSound.constructor | MusicSynth/AudioPlaybackEngine.cs:91-95 | the samples and channel count |
| Audio.CachedSoundSampleProvider.constructor | MusicSynth/AudioPlaybackEngine.cs:132-135 | the cursor starts at the beginning of the sound |
| Audio.CachedSoundSampleProvider.Read | MusicSynth/AudioPlaybackEngine.cs:137-144 | returns min(pending, count); copies exactly those samples into buffer[offset..] and leaves the other cells; advances the cursor by as many; returns 0 once exhausted; on a refused copy nothing changes; samples handed out so far are always a prefix of the sound |
| Audio.AutoDisposeFileReader.constructor | MusicSynth/AudioPlaybackEngine.cs:155-159 | not yet disposed |
| Audio.AudioFileReader.Read | MusicSynth/AudioPlaybackEngine.cs:165 | the decoder's read: min(pending, count) samples copied into buffer[offset..] with the other cells kept and the cursor advanced by as many, or, when `Array.Copy` refuses, its error with nothing changed |
| Audio.AutoDisposeFileReader.Read | MusicSynth/AudioPlaybackEngine.cs:161-172 | once disposed, 0 without touching the reader or the buffer; otherwise the reader's outcome: the error exactly when the copy is refused, else min(pending, count) samples copied into the buffer and the cursor advanced; disposal exactly when that result is 0 |
| Audio.ConversionMatchesMixer | MusicSynth/AudioPlaybackEngine.cs:61-72 | succeeds exactly for matching counts and for mono into stereo; the result has the mixer's channel count; a matching input is returned as is, mono is wrapped |
| Audio.ConversionIdempotent | MusicSynth/AudioPlaybackEngine.cs:61-72 | converting a converted input again returns it unchanged |

## Findings

| source | as written | input that shows it | evidently intended | confidence | as-written member | corrected member |
|---|---|---|---|---|---|---|
| physics/GameObjects/BasicPolygon.cs:149-150 | the QuadList table of `TriangleSurface` is `{ 0, 1, 2 }` | a TriangleSurface switched to QuadList and painted: the quad painter reads `indices[3]` and throws | a table whose length is a multiple of 4, e.g. `{ 0, 1, 2, 0 }` (a degenerate quad) | not executed; high | BasicPolygons.TriangleSurfaceIndicesAsWritten, BasicPolygons.TriangleSurfaceQuadFaults | BasicPolygons.TriangleSurfaceIndices, BasicPolygons.TriangleSurfaceNeverFaults |
| physics/Camera.cs:168-171 | `Camera2D.getAllTransform` returns `transform`, which no constructor or method assigns, so it is the zero matrix | any 2-D scene (`new Scene()`): every vertex maps to (0, 0, 0, 0) | view × orthographic, as `Camera3D.getAllTransform` does for its camera | not executed; medium | Cameras.Camera2D.GetAllTransform, Cameras.FlatTransformCollapses | Cameras.Camera2D.CombinedTransform, Cameras.CombinedTransformComposes |

## Left out

- Floating point is not modelled. Numbers are `real`. `9.8f`, `MathF.PI` (3.14159274) and `0.01f` are taken at their decimal values. The single-precision quotient of `Camera3D.resize` is the one place where infinities and NaN appear (`Float32`).
- The trigonometric builders, `Normalize` and `Distance`'s square root are the fields of a `MathLib` parameter, so nothing is proved about their values.
- `Matrix4x4.CreatePerspectiveFieldOfView` throws `ArgumentOutOfRangeException` for a field of view outside (0, π), a near plane at or below zero, or a near plane at or beyond the far one. `lib.perspective` is total, so `Camera3D.WithParameters`, `UpdateProjectionMatrix`, `Zoom` and `Resize` never model that exception.
- A perspective divide by W = 0 gives 0, not an infinity or NaN.
- Numerics.OrthographicOffCenter: a zero width, height or depth range gives 0 where the single-precision division gives an infinity or NaN.
- Vector division `totalForce / mass` is modelled as multiplication by the reciprocal, which is what System.Numerics computes. A mass of 0 gives a zero acceleration instead of infinities.
- `Matrix4x4.Invert` of the box inertia tensor is `InvertDiagonal`: the reciprocal of each moment when all three are non-zero. When any moment is zero the tensor is singular. System.Numerics then fills the output with NaN and returns false; the model gives the zero matrix and ignores the returned flag.
- GameObjects.GameObject.Update: `updateMutex.WaitOne(0)` is an `acquired` parameter. The other locks are always taken:
  - the camera `zoom`/`updateProjectionMatrix` try-locks;
  - `Scene.Update`, which passes `true`;
  - `Scene.Render`'s `lock`s.
- Cameras.Camera3D.Zoom: the model assumes the lock is always taken. As written, a failed `WaitOne(0)` falls through to `ReleaseMutex`, which throws.
- `Scene.Render`'s `Parallel.ForEach` and its exception catch are not modelled. Only the matrix it passes each body is (`RenderTransform`).
- Scenes.Scene.RenderTransform: in 2-D it gives the corrected view × orthographic box, not the zero matrix that `Camera2D.getAllTransform` returns as written (see "Findings"; `Cameras.FlatTransformCollapses` models the code as written).
- BasicPolygons.TriangleSurface.SetPrimitiveType: for QuadList it installs the corrected four-entry table, not the three-entry table of the code (see "Findings"; `TriangleSurfaceIndicesAsWritten` and `TriangleSurfaceQuadFaults` model the code as written).
- The GDI calls are abstract draw commands (`DrawCmd`). The depth and index buffers are never read or written by the source.
- The panel size that `paint` reads from `MainWin.Instance` is the `Viewport` parameter.
- The random id retry loop of `arrangeID` is a nondeterministic choice of a free id, and the caller must leave room in the map. The static maps are `Registry` objects passed to the constructors.
- `GameObject.arrangeID` is not a separate method. The constructors call the registry directly.
- Octrees: the octree is a datatype, and `Insert`, `Redistribute`, `Clear` and `Retrieve` return new values. The model therefore does not capture:
  - the node array being updated in place;
  - the sharing of the caller's `returnObjects` list;
  - bodies moving after insertion (a `Body` is a snapshot of the id, position and size).
- Lights are values. `List<Light>.Remove` compares lights by reference in the source and by value here, so two equal lights are one light in the model.
- Shapes hold their `GameObject` as `body` instead of inheriting from it. `SphereParticle.update` is a method of the shape that calls the body's update.
- Scenes.Scene.Update ticks each listed `GameObject` with `GameObject.Update`. The source's virtual call reaches `SphereParticle.update` for a particle, which first redraws a dynamic cloud's points; the scene's tick never reaches that override, so a particle's mesh is left as it was.
- BasicPolygons.TriangleSurface.constructor requires at least three dots. With fewer, the source throws while indexing `dots`.
- BasicPolygons.SphereParticle: the Box–Muller `GeneratePoint` and `Random` are a `draw` parameter, whose `i`th value stands for the `i`th call. Nothing is proved about the distribution of the points.
- `SphereBB` is not modelled: all of its behaviour is the square-root distance.
- Meshes.Mesh.FromLists, Meshes.Mesh.SetVertices and Meshes.Mesh.SetIndices store the lists' contents. The source stores the caller's `List` objects, and `getVertices` and `getIndices` hand the same objects out, so later edits through any of those references reach the mesh; that sharing is not modelled.
- Scenes.Scene.GetGameObjects returns the list's contents. The source hands out the live `List` itself, so a caller's edits through it reach the scene; that sharing is not modelled.
- The mouse and keyboard handlers are not modelled: they are empty.
- `getRot` is `GameObject.GetRot`, the third row of the transform. The other plain getters (`getScale`, `getVelocity`, `getAcceleration`, …) are read directly as fields.
- `CollisionBoxRadius` is not modelled: all of its behaviour is the square root of the scale's squared length.
- Audio: the output device, the mixer and `AudioPlaybackEngine`'s constructor are not modelled, nor are `PlaySound`, `AddMixerInput`, `Dispose` and `NoteToFrequency` (`Math.Pow`). Audio file decoding (`CachedSound`'s loading loop, `CachedMidi`) is not modelled either. A cached sound is given its samples, and the NAudio reader behind `AutoDisposeFileReader` is its decoded samples behind a cursor.
- Audio.CachedSoundSampleProvider.Read: `AudioData` is a sequence, so the model does not cover the buffer being the sound's own array. `long` positions are unbounded integers.
- MainWin.cs, Game.cs, Program.cs and MyLogger.cs are not part of this model.
