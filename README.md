# Planet LOD mesh engine and viewer input, in Dafny

This project models the CPU side of a small OpenGL planet viewer. The model is written in Dafny,
and the verifier proves the properties stated about it.

The core is the planet's level-of-detail mesh engine (`src/Planet.cpp`, `include/Planet.h`):

- **The level table.** A 15-band table maps a base triangle's camera distance, as a multiple of
  the radius, to a subdivision level from 0 to 14.
- **The LOD pass.** The pass runs only when the mesh is flagged, the camera moved, or a rotating
  planet is due for an update. It steps each of the 20 base triangles. It rebuilds the mesh
  exactly when the mesh was flagged or some level changed.
- **The rebuild.** Every triangle is subdivided four-way, level by level. Each leaf corner goes
  through a deduplication table that keeps the highest level per vertex. The result is published
  as an index list and a buffer of 9 floats per vertex.
- **The rotation wrap.** `update` keeps the rotation angle in [0, 2 pi].
- **The surface queries.** These are the inside test, the signed distance to the surface,
  penetration correction, and the speed factor near the surface.

Beside it:

- **The icosphere builder** (`src/Icosphere.cpp`). It pushes the 12 icosahedron vertices onto a
  sphere and refines every face four-way. Each face consults an edge-midpoint cache, but then
  pushes a fresh copy of every midpoint and uses that copy, so neighbouring faces do not share
  midpoint vertices (see "## Findings"). The model builds the sphere this way, as the source
  does, and also gives a corrected builder that uses the cached midpoints. Procedural terrain
  colours and lifts each vertex by the noise band at its direction.
- **The orbit camera** (`src/Camera.cpp`): the pitch clamp, the radius floor and repositioning.
- **The scene's mouse handling** (`src/InputManager.cpp`) and **the window's cursor tracking**
  (`src/Window.cpp`).
- **The debug window's data update** (`src/DebugWindow.cpp`): the nearest planet and the status line.
- **The input part of the frame loop** (`src/main.cpp`): `clamp`, the wheel zoom clamp, free-fly
  mouse look, the speed tied to the radius, and the arrow-key zoom.

Modelling choices:

- Floats are reals.
- `glm::normalize`, `glm::length`, `sqrt`, the trigonometric functions and the model-matrix
  rotation are uninterpreted functions, carried in a `Glm.MathLib` value. `Glm.Lawful` states the
  few laws of length and normalisation that some lemmas assume.
- Time (`glfwGetTime`), cursor positions, key states and noise samples are parameters.
- Registered callbacks are returned as values rather than called.
- Objects whose fields the source updates are classes with `modifies` frames. Each operation's
  new state is tied to a specification function, and the source's promises are proved as lemmas
  about those functions.

One file per source file:

| file | models |
|---|---|
| `glm.dfy` | vectors and the maths library |
| `planet_header.dfy` | `include/Planet.h` |
| `lod_levels.dfy` | the level table, the pass gate and the per-triangle step |
| `icosahedron.dfy` | the 20 base faces shared by both builders |
| `mesh_build.dfy` | the rebuild's dedup table, leaf corners and vertex records |
| `planet.dfy` | `src/Planet.cpp` |
| `icosphere.dfy` | `src/Icosphere.cpp` |
| `glfw.dfy` | the GLFW button and action codes |
| `camera.dfy` | `src/Camera.cpp` |
| `input_manager.dfy` | `src/InputManager.cpp` |
| `window.dfy` | `src/Window.cpp` |
| `debug_window.dfy` | `src/DebugWindow.cpp` |
| `main_loop.dfy` | `src/main.cpp` |

## Model

| member | source | states |
|---|---|---|
| PlanetHeader.Vec3EqualReflexive | include/Planet.h:170-177 | every vector is tolerantly equal to itself |
| PlanetHeader.Vec3EqualSymmetric | include/Planet.h:170-177 | tolerant equality is symmetric |
| PlanetHeader.Vec3EqualNotTransitive | include/Planet.h:170-177 | three vectors 0.6e-6 apart in x: a~b and b~c, but not a~c |
| PlanetHeader.NearKeysAreVec3Equal | include/Planet.h:170-177 | two keys 1e-7 apart are equal for the map |
| PlanetHeader.EqualKeysCanHashApart | include/Planet.h:160-167 | keys that differ only in x hash apart whenever their x hashes differ, so tolerantly equal keys can land in different buckets |
| PlanetHeader.NewQuadNode | include/Planet.h:32-33 | a new quadtree node keeps its bounds, level and face, is a leaf without children, has morph factor 0 and the member defaults |
| Icosahedron.FacesClosed | src/Planet.cpp:59-69 | the 20 base faces form a closed, consistently oriented surface: each directed edge is met reversed by another face |
| LodLevels.RequiredLevel | src/Planet.cpp:202-236 | the level chosen for a distance is between 0 and 14 |
| LodLevels.BandBoundsIncreasing | src/Planet.cpp:206-236 | the band bounds 0.05 R ... 64 R increase strictly |
| LodLevels.RequiredLevelIsTable | src/Planet.cpp:202-236 | the chain of tests equals the reference table: level 14 - k for the first band k whose bound exceeds the distance, 0 when none does |
| LodLevels.TableLevelBounded | src/Planet.cpp:202-236 | from band k on, the table gives a level in [0, 14 - k] |
| LodLevels.TableLevelMonotone | src/Planet.cpp:202-236 | for radius >= 0, the table level never increases with distance |
| LodLevels.RequiredLevelMonotone | src/Planet.cpp:202-236 | for radius >= 0, a nearer triangle never gets a lower level |
| LodLevels.RequiredLevelExtremes | src/Planet.cpp:206-236 | for radius > 0, a distance below 0.05 R gives 14 and one of 64 R or more gives 0 |
| LodLevels.EarthScenario | src/Planet.cpp:202-236 | for R = 6371, a distance of 0.04 R gives 14 and one of 100 R gives 0 |
| LodLevels.LodPassDue | src/Planet.cpp:173-182 | the pass runs iff the mesh is flagged, the camera moved more than 0.05, or the planet rotates and at least 1/30 s passed |
| LodLevels.TriangleStep | src/Planet.cpp:198-244 | corners, centre and visibility are kept. Distance and level are refreshed only past the 0.1 tolerance or when flagged; otherwise the triangle is unchanged. The level and needsUpdate change only together |
| LodLevels.StepAll | src/Planet.cpp:189-246 | a pass steps each triangle, in order, against its own new distance |
| LodLevels.LevelChangedIff | src/Planet.cpp:239-243 | the rebuild flag of the loop is set iff some triangle's level differs |
| LodLevels.StepAllConsistent | src/Planet.cpp:198-244 | a flagged pass makes every level the table level of its cached distance; an unflagged one keeps that |
| LodLevels.ConsistentLevelsOrdered | src/Planet.cpp:202-236 | with consistent levels, a triangle no farther than another has at least its level |
| MeshBuild.GrowsTransitive | src/Planet.cpp:269-287 | table growth (positions extended at the end, levels never lowered) composes |
| MeshBuild.VertexTable.constructor | src/Planet.cpp:264-268 | a rebuild starts with an empty map, position list and level list |
| MeshBuild.VertexTable.AddVertex | src/Planet.cpp:269-287 | the position is pushed onto the sphere. A present key returns its index and raises that level to the max; a new key appends one position and one level and returns the old size. The lists stay equal in length and the map stays their inverse |
| MeshBuild.TablePositionsDistinct | src/Planet.cpp:269-287 | a valid table never stores one position twice |
| MeshBuild.LeafCorners | src/Planet.cpp:382-407 | a triangle split L times emits 3 * 4^L corners (4^L leaf triangles) |
| MeshBuild.MeshCornersCount | src/Planet.cpp:290-315 | the whole mesh emits 3 times the sum of 4^level over the base triangles |
| MeshBuild.MeshCornersOnlyDependOnLevels | src/Planet.cpp:290-315 | triangles with the same corners and levels emit the same corners, whatever their cached distances |
| MeshBuild.EmitsUnderGrowth | src/Planet.cpp:269-287 | indices emitted earlier keep naming the same positions as the table grows |
| MeshBuild.EmittedVertexCount | src/Planet.cpp:269-303 | when every one of n distinct stored vertices is named by an index matching the corners, the vertices are exactly the corners' distinct sphere points, and n is their number |
| MeshBuild.VertexRecord | src/Planet.cpp:321-342 | one vertex record is 9 floats |
| MeshBuild.Records | src/Planet.cpp:321-342 | the buffer for n positions is 9 n floats |
| MeshBuild.RecordAt | src/Planet.cpp:321-342 | floats 9j .. 9j+9 of the buffer are the record of position j |
| MeshBuild.BufferPositionIsStored | src/Planet.cpp:321-342 | the position read back from record j is position j |
| Planets.UnitIcosahedron | src/Planet.cpp:40-51 | the base icosahedron has 12 corners |
| Planets.ScaledBy | src/Planet.cpp:53-56 | scaling by the radius keeps the vertex count |
| Planets.BaseTriangles | src/Planet.cpp:58-87 | generateSphere makes one triangle per base face |
| Planets.BaseTrianglesValid | src/Planet.cpp:75-87 | the fresh triangles index the 12 vertices, sit at level 0 and are flagged for update |
| Planets.CenterDistances | src/Planet.cpp:189-196 | one new world-space distance per triangle |
| Planets.BufferPositions | src/Planet.cpp:321-342 | reading n positions back from the buffer gives n positions |
| Planets.PassOutcomeFromSteps | src/Planet.cpp:189-251 | the stepped triangles, the rebuild-iff-changed-or-flagged decision and the kept mesh together make a pass outcome |
| Planets.MeshMatchesFromTable | src/Planet.cpp:255-345 | a table, buffer and index list that agree, with every stored vertex used, publish a mesh with vertexCount records, indexCount indices, each index naming its corner's vertex and each record named by some index |
| Planets.PublishedVertexCount | src/Planet.cpp:255-345 | a mesh that matches the levels publishes exactly the distinct sphere points of the leaf corners, one 9-float record each |
| Planets.PassKeepsLevelsValid | src/Planet.cpp:189-247 | a pass keeps corner indices and level bounds, and leaves every level consistent |
| Planets.PassKeepsMesh | src/Planet.cpp:248-251 | an unflagged pass that changes no level keeps the published mesh valid without a rebuild |
| Planets.EmitsAppendTriangle | src/Planet.cpp:384-393 | emitting a leaf triangle's three table indices extends the emitted corners by its three corners |
| Planets.VertexRecordIs | src/Planet.cpp:326-341 | position, shaded colour and normal, in that order, are the vertex record |
| Planets.BufferHoldsAppend | src/Planet.cpp:321-342 | appending a record extends the buffer by one position |
| Planets.BufferPositionsAreStored | src/Planet.cpp:321-342 | a buffer read back gives exactly the table positions |
| Planets.Planet.constructor | src/Planet.cpp:11-16 | the initial fields: axis +y, no rotation, empty mesh, camera at the origin, mesh flagged, time 0 |
| Planets.Planet.GenerateSphere | src/Planet.cpp:38-91 | vertices are the unit icosahedron times the radius, triangles the fresh base triangles, and the mesh is flagged |
| Planets.Planet.SetRadius | src/Planet.cpp:155-161 | a new radius regenerates the base sphere and flags the mesh; the same radius changes nothing |
| Planets.Planet.Update | src/Planet.cpp:125-136 | the angle advances by speed * dt, less a whole number of turns, and ends in [0, 2 pi]: unchanged when already there, above 0 when it was positive (so 4 pi gives 2 pi), below 2 pi when it was negative |
| Planets.Planet.UpdateDynamicLOD | src/Planet.cpp:164-252 | when not due, nothing changes. When due, the camera and time are recorded and the pass outcome holds. Afterwards the mesh is unflagged and matches the levels |
| Planets.Planet.RunLODPass | src/Planet.cpp:185-251 | a due pass gives the pass outcome and leaves the planet invariant with the mesh unflagged |
| Planets.Planet.FinishLODPass | src/Planet.cpp:248-251 | rebuild once iff flagged or changed, else keep the mesh; the flag is cleared |
| Planets.Planet.UpdateTriangleLevels | src/Planet.cpp:189-246 | the loop steps every triangle against its world-space distance and reports whether any level changed |
| Planets.Planet.UpdateTriangleLevel | src/Planet.cpp:190-244 | one triangle is stepped in place and the others are untouched; the result says whether its level changed |
| Planets.Planet.RebuildMesh | src/Planet.cpp:255-345 | the published mesh matches the triangle levels: one record per distinct leaf-corner vertex, each named by an index (so PublishedVertexCount applies), and the rebuild count goes up by one |
| Planets.Planet.EmitMeshCorners | src/Planet.cpp:290-315 | the index list names, in order, the table vertex at every leaf corner of the mesh, and every table vertex is named |
| Planets.Planet.EmitLeafTriangle | src/Planet.cpp:294-303 | a level-0 triangle's three corners go through the table and are appended, so every table vertex stays named |
| Planets.Planet.WriteVertexBuffer | src/Planet.cpp:318-342 | the buffer holds one record per table position, in order |
| Planets.Planet.SubdivideTriangleRecursive | src/Planet.cpp:382-407 | the index list grows by exactly the triangle's leaf corners, through a table that only grows and whose every vertex stays named |
| Planets.Planet.IsPointInside | src/Planet.cpp:421-424 | inside iff the signed distance to the surface is negative |
| Planets.Planet.GetDistanceToSurface | src/Planet.cpp:427-430 | the signed distance plus the radius is the distance to the centre |
| Planets.Planet.PreventPenetration | src/Planet.cpp:433-455 | a point at least radius + margin from the centre is unchanged. A nearer one goes to centre + normalize(point - centre) * (radius + margin), or along +z when point - centre is shorter than 0.0001 |
| Planets.Planet.GetSpeedMultiplierNearSurface | src/Planet.cpp:458-494 | the factor is in [0.001, 1], 1 beyond 10 units, 0.001 within 0.01 |
| Planets.SpeedMultiplierAt | src/Planet.cpp:458-494 | the piecewise-linear factor of a distance is in [0.001, 1], 1 beyond 10 and 0.001 up to 0.01 |
| Planets.SpeedMultiplierMonotone | src/Planet.cpp:458-494 | the factor never decreases with distance to the surface |
| Planets.PreventPenetrationReachesShell | src/Planet.cpp:433-452 | with lawful lengths, a corrected point is exactly radius + margin from the centre |
| Planets.PreventPenetrationLeavesOutside | src/Planet.cpp:433-455 | with lawful lengths and margin >= 0, the result is never inside and is at least margin above the surface |
| Icospheres.SphereVertex | src/Icosphere.cpp:56-62 | the vertex lies at radius along the direction, with that direction as its normal |
| Icospheres.MidKey | src/Icosphere.cpp:65-67 | the key is the (smaller, larger) pair of the two indices |
| Icospheres.MidKeySymmetric | src/Icosphere.cpp:65-67 | both orders of an edge give the same key |
| Icospheres.Refined | src/Icosphere.cpp:106-109 | a face is replaced by four faces |
| Icospheres.Flatten | src/Icosphere.cpp:114-118 | the index list has three entries per face |
| Icospheres.FlattenBelow | src/Icosphere.cpp:114-118 | every stored index of faces below n is below n |
| Icospheres.BaseFaces | src/Icosphere.cpp:92-97 | 20 faces over the 12 base vertices |
| Icospheres.WrittenStepIs | src/Icosphere.cpp:102-110 | as written, a face adds midpoints a, b, c, each one past the vertex the cache may have just added |
| Icospheres.WrittenRunShape | src/Icosphere.cpp:99-112 | as written, every face's midpoints are fresh increasing indices, each group above the last, so no two faces share a midpoint |
| Icospheres.WrittenRunBelow | src/Icosphere.cpp:99-112 | as written, every new face's indices are below the new vertex count |
| Icospheres.WrittenRunCount | src/Icosphere.cpp:99-112 | as written, a pass caches exactly the old edges and appends one vertex per edge plus three per face |
| Icospheres.AddMidpointAsWritten | src/Icosphere.cpp:56-77 | addVertex(getMiddlePoint(..)): a hit appends one vertex; a miss appends two and caches the first; the index is the last vertex, and the cache gains the edge |
| Icospheres.AddMidpointDuplicates | src/Icosphere.cpp:64-77 | on a miss, the face's vertex is an exact copy of the cached midpoint vertex of that edge; on a hit, it is a new vertex along the cached vertex's position |
| Icospheres.WrittenFaceStep | src/Icosphere.cpp:102-110 | one face as written appends four faces below the new vertex count, keeping the old vertices |
| Icospheres.WrittenPassOver | src/Icosphere.cpp:99-112 | a pass as written makes four faces per face, all below its final vertex count |
| Icospheres.WrittenFaceStepIndices | src/Icosphere.cpp:102-110 | the face step with vertices has the index-only written step as its faces, vertex count and cached edges |
| Icospheres.WrittenPassIndices | src/Icosphere.cpp:99-112 | the pass with vertices has the index-only written pass as its faces, vertex count and cached edges |
| Icospheres.WrittenPassesShape | src/Icosphere.cpp:99-112 | after k passes as written, there are |faces| * 4^k faces, all below the vertex count |
| Icospheres.WrittenPassExtraVertices | src/Icosphere.cpp:103-105 | a pass as written ends with 3 vertices per old face more than the pass with shared midpoints |
| Icospheres.SharedStepIs | src/Icosphere.cpp:102-110 | with shared midpoints, a face's step is its three cache lookups in order |
| Icospheres.SharedRunNumbered | src/Icosphere.cpp:99-112 | a pass makes 4 faces per face; its cache holds exactly the old edges and numbers the new vertices one per edge |
| Icospheres.SharedRunSplits | src/Icosphere.cpp:99-112 | every old face is replaced, in order, by its four faces through the cached midpoints of its edges |
| Icospheres.SharedRunBelow | src/Icosphere.cpp:99-112 | every new face's indices are below the new vertex count |
| Icospheres.SharedPassesShape | src/Icosphere.cpp:99-112 | after k shared passes, there are |faces| * 4^k faces, all below the vertex count |
| Icospheres.SharedStepBelow | src/Icosphere.cpp:102-110 | one face's step keeps all faces below the vertex count |
| Icospheres.SharedStepNumbered | src/Icosphere.cpp:102-110 | one face's step keeps the cache numbering |
| Icospheres.SharedStepKeys | src/Icosphere.cpp:102-110 | one face's step adds its edges and changes no cached entry |
| Icospheres.SharedStepFaces | src/Icosphere.cpp:102-110 | the four faces a step adds use the cache entries for the face's edges |
| Icospheres.LookupKeeps | src/Icosphere.cpp:64-77 | a lookup keeps every entry, adds its key and returns the key's entry |
| Icospheres.LookupNumbered | src/Icosphere.cpp:64-77 | a lookup keeps the cache numbering |
| Icospheres.WrittenPassSplitsSharedEdge | src/Icosphere.cpp:103-105 | base faces 0 and 1 share edge 0-5, yet as written they get two different midpoint vertices for it |
| Icospheres.SharedPassJoinsSharedEdge | src/Icosphere.cpp:103-105 | with the cached index, the two faces use one midpoint vertex for that edge |
| Icospheres.BandIntervals | src/Icosphere.cpp:34-49 | ocean below 0.48, sand below 0.51, grass below 0.61, rock below 0.71, snow otherwise, each an iff |
| Icospheres.BandMonotone | src/Icosphere.cpp:34-49 | a higher noise value never gives a lower band |
| Icospheres.TerrainHeightSigns | src/Icosphere.cpp:34-49 | with mountainHeight >= 0, the ocean offset is <= 0 and every other offset >= 0 |
| Icospheres.TerrainFollowsDirection | src/Icosphere.cpp:26-28 | two vertices in one direction get the same terrain vertex, since the noise is sampled at the direction |
| Icospheres.TerrainVertexPlaced | src/Icosphere.cpp:26-53 | a terrain vertex keeps its direction as normal, sits at radius plus its band offset, has height in [0, 1] and its band's colour |
| Icospheres.GrownIsPow4 | src/Icosphere.cpp:99-112 | n faces after k passes are n * 4^k |
| Icospheres.BasePositions | src/Icosphere.cpp:85-89 | the icosahedron has 12 corners |
| Icospheres.BaseVertices | src/Icosphere.cpp:84-90 | 12 starting vertices |
| Icospheres.Icosphere.constructor | src/Icosphere.cpp:8-10 | the vertices are those of n passes as written over the 12 base vertices and 20 base faces, and the indices are those faces flattened: 60 * 4^n indices, each below the vertex count |
| Icospheres.Icosphere.AddVertex | src/Icosphere.cpp:56-62 | exactly one vertex is appended, on the sphere along the input, and its index is the old size |
| Icospheres.Icosphere.GetMiddlePoint | src/Icosphere.cpp:64-77 | on a hit, nothing is appended and the cached vertex's position is returned; on a miss, one midpoint vertex is appended and cached under the key |
| Icospheres.Icosphere.AddMidpoint | src/Icosphere.cpp:103-105 | one addVertex(getMiddlePoint(..)) call appends the vertices, updates the cache and returns the index that AddMidpointAsWritten gives |
| Icospheres.Icosphere.RefinePassAsWritten | src/Icosphere.cpp:100-111 | the pass as written leaves the faces, vertex list and cache of WrittenPassOver, including every cached and fresh midpoint vertex. Its faces and vertex count are the index-only written run's |
| Icospheres.Icosphere.SplitFaceAsWritten | src/Icosphere.cpp:102-110 | one face as written leaves the faces, vertex list and cache of WrittenFaceStep: per edge, a cached midpoint vertex on a miss and a fresh copy |
| Icospheres.Icosphere.GetMiddleIndex | src/Icosphere.cpp:64-77 | the corrected lookup: a hit returns the cached index and appends nothing; a miss appends one midpoint vertex and caches its index |
| Icospheres.Icosphere.RefinePass | src/Icosphere.cpp:100-111 | the corrected pass gives SharedRun's faces, vertex count and cache. Every face splits through the cache, whose keys are the old edges. Each cached index holds that edge's midpoint vertex, and the new faces are below the vertex count |
| Icospheres.Icosphere.SplitFace | src/Icosphere.cpp:102-110 | one face is one shared step, and the cache keeps holding midpoints |
| Icospheres.Icosphere.MidpointStep | src/Icosphere.cpp:64-77 | a lookup inside a pass keeps every cached index pointing at its edge's midpoint vertex |
| Icospheres.Icosphere.StoreIndices | src/Icosphere.cpp:114-118 | the index list is the faces flattened, three per face |
| Icospheres.Icosphere.AddBaseVertices | src/Icosphere.cpp:84-90 | the 12 icosahedron corners are pushed in order |
| Icospheres.Icosphere.CreateIcosphere | src/Icosphere.cpp:79-119 | the vertices are those of n passes as written (none when n <= 0) over the 12 base vertices and 20 base faces; the index list is those faces flattened, 60 * 4^n indices, all below the vertex count |
| Icospheres.Icosphere.RefineAll | src/Icosphere.cpp:99-112 | k passes as written leave exactly the faces and vertex list of WrittenPasses, extending the old vertices |
| Icospheres.Icosphere.CreateIcosphereShared | src/Icosphere.cpp:79-119 | the corrected builder: the faces of n shared passes over the base faces, flattened into 60 * 4^n indices below the vertex count, after the 12 base vertices |
| Icospheres.Icosphere.RefineAllShared | src/Icosphere.cpp:99-112 | k corrected passes leave the faces and vertex count of k iterated SharedRun passes, extending the old vertices |
| Icospheres.Icosphere.ApplyProceduralTerrain | src/Icosphere.cpp:12-54 | every vertex becomes its terrain vertex for the noise at ten times its direction; the count is kept and oceanLevel is not read |
| Cameras.Camera.constructor | src/Camera.cpp:8-11 | the fields are as given and the camera is placed on its orbit |
| Cameras.Camera.UpdatePosition | src/Camera.cpp:46-53 | position is the orbit point for radius, yaw and pitch around the target; direction is towards the target |
| Cameras.Camera.SetOrbitMode | src/Camera.cpp:16-24 | target is the new target; radius, yaw and pitch are the length and angles of the old position's offset from it; then the camera is placed |
| Cameras.Camera.ProcessMouseMovement | src/Camera.cpp:26-33 | yaw grows by dx; pitch is old pitch + dy, clamped to [-89.9, 89.9]; radius and target are kept |
| Cameras.Camera.ProcessKeyboard | src/Camera.cpp:35-38 | no field changes |
| Cameras.Camera.ProcessMouseScroll | src/Camera.cpp:40-44 | radius is old radius - 10 dy, floored at 1; yaw, pitch and target are kept |
| Cameras.TurnedPitch | src/Camera.cpp:27-31 | the pitch is in [-89.9, 89.9]: unchanged inside the limits, the limit on each side beyond them |
| Cameras.TurnedPitchMonotone | src/Camera.cpp:27-31 | a larger input pitch never gives a smaller clamped pitch |
| Cameras.ScrolledRadius | src/Camera.cpp:41-42 | the radius is at least 1 and at least old - 10 dy, and equals one of them |
| Cameras.ScrollsCompose | src/Camera.cpp:41-42 | two scrolls whose first stays above the floor act as one scroll by their sum |
| Cameras.ScrollFloorAbsorbs | src/Camera.cpp:41-42 | once at the floor, any inward scroll stays at the floor |
| InputManagers.InputManager.constructor | src/InputManager.cpp:2-6 | no scene, not rotating, cursor (0, 0), control on |
| InputManagers.InputManager.Bind | src/InputManager.cpp:8-10 | the scene's camera becomes the current one |
| InputManagers.InputManager.MouseButtonCallback | src/InputManager.cpp:24-35 | only the middle button with control on counts: a press starts a turn at the cursor, a release ends it; anything else changes nothing. Control off never coexists with a turn |
| InputManagers.InputManager.CursorPosCallback | src/InputManager.cpp:37-45 | while turning with control on and a scene bound, the camera turns by (dx, -dy) and the position is remembered; otherwise nothing changes |
| InputManagers.InputManager.ScrollCallback | src/InputManager.cpp:47-51 | the bound camera's radius is scrolled by yoffset |
| InputManagers.InputManager.SetCameraControlEnabled | src/InputManager.cpp:54-59 | control is set; turning survives only when enabling |
| Windows.Window.constructor | src/Window.cpp:4-7 | first event pending, cursor at the window centre, button up |
| Windows.Window.SetMouseMovementCallback | src/Window.cpp:97-99 | the movement callback is set or cleared |
| Windows.Window.SetScrollCallback | src/Window.cpp:101-103 | the scroll callback is set or cleared |
| Windows.Window.MouseCallback | src/Window.cpp:105-124 | the last position becomes the event's and the first event is consumed; the offset is forwarded iff the left button is held and a callback is set |
| Windows.Window.MouseButtonCallback | src/Window.cpp:126-136 | a left press sets pressed, a left release clears it, anything else keeps it |
| Windows.Window.ScrollCallback | src/Window.cpp:138-143 | the vertical offset is forwarded iff a scroll callback is set |
| Windows.CursorOffset | src/Window.cpp:108-115 | the first event reports (0, 0); later ones the move from the last position, y reversed |
| Windows.OffsetsTelescope | src/Window.cpp:114-118 | two offsets in a row add up to the move across both events |
| DebugWindows.NearestIsUnique | src/DebugWindow.cpp:266-278 | the nearest index and distance are determined by the distances |
| DebugWindows.NoPlanetsNoNearest | src/DebugWindow.cpp:266-267 | with no planets the index is -1 and the distance is the float maximum |
| DebugWindows.NearestStep | src/DebugWindow.cpp:274-277 | one more distance replaces the nearest only when strictly smaller, so ties keep the earliest |
| DebugWindows.DistanceStatus | src/DebugWindow.cpp:195-208 | inside iff d < 0, very close iff 0 <= d < 1, close iff 1 <= d < 10, far iff d >= 10 |
| DebugWindows.DistanceStatusMonotone | src/DebugWindow.cpp:195-208 | a nearer distance never gives a less severe status |
| DebugWindows.NearestPlanetBlock | src/DebugWindow.cpp:180-192 | the block is shown iff 0 <= index < number of names, with that name, the distance and its status |
| DebugWindows.DebugWindow.constructor | src/DebugWindow.cpp:11-19 | closed, distance 0, index -1, speed factor 1, the nine planet names |
| DebugWindows.DebugWindow.SetOpen | src/DebugWindow.cpp:73 | the window thread marks the window open |
| DebugWindows.DebugWindow.Cleanup | src/DebugWindow.cpp:281-294 | the window ends up closed |
| DebugWindows.DebugWindow.Update | src/DebugWindow.cpp:256-279 | closed: nothing changes. Open: the camera is recorded, one distance per planet in planet order, and the nearest index and distance are the first strict minimum below the float maximum |
| FrameLoop.Clamp | src/main.cpp:20-23 | with lo <= hi the result is in [lo, hi]; a value inside is kept; the result is the value or a bound; with lo > hi it is lo |
| FrameLoop.ClampIdempotent | src/main.cpp:20-23 | clamping twice is clamping once |
| FrameLoop.ClampMonotone | src/main.cpp:20-23 | clamping keeps the order of values |
| FrameLoop.ZoomedRadius | src/main.cpp:276-282 | with scroll, the radius is in [1.1 R, 20 R]; without, it is kept |
| FrameLoop.KeyZoomedRadius | src/main.cpp:286-287 | after an arrow key the radius is at least 1; up alone adds 0.1 |
| FrameLoop.DownKeyPassesZoomFloor | src/main.cpp:286-287 | from the nearest wheel zoom, the down key goes below 1.1 R |
| FrameLoop.FrameState.constructor | src/main.cpp:162-172 | the camera orbits at 2 R with yaw and pitch 0; speed is 0.2 radius; nothing scrolled; first mouse pending; orbit mode |
| FrameLoop.FrameState.ScrollCallback | src/main.cpp:94-98 | the accumulator grows by the wheel offset |
| FrameLoop.FrameState.TrackMouse | src/main.cpp:227-236 | with the left button held, the offset is the cursor offset (none the first time); without, it is zero; the position is always remembered |
| FrameLoop.FrameState.FreeFlyLook | src/main.cpp:262-273 | with the left button held, yaw grows by 0.2 dx and pitch is clamp(old + 0.2 dy, -89, 89); the front vector follows the angles |
| FrameLoop.FrameState.Zoom | src/main.cpp:276-282 | the radius becomes the zoomed radius, the camera is re-placed when there was scroll, and the accumulator is 0 |
| FrameLoop.FrameState.UpdateSpeed | src/main.cpp:284 | the speed is 0.2 times the radius |
| FrameLoop.FrameState.ArrowKeyZoom | src/main.cpp:286-287 | the radius is the key-zoomed radius; yaw and pitch are kept |
| FrameLoop.FrameState.HandleInput | src/main.cpp:226-287 | after a frame's input, the accumulator is 0 and the speed is 0.2 times the wheel-zoomed radius. The radius is that, key-zoomed. With the button held and (dx, dy) the cursor offset: orbit mode gives yaw + dx and the camera's pitch clamp of pitch + dy; free-fly gives yaw + 0.2 dx and pitch + 0.2 dy clamped to +-89. Free-fly sets the front vector from the new angles; orbit mode leaves it. Flight mode keeps the angles |

## Left out

- OpenGL and GLFW calls are not modelled: buffer upload, draw calls, window creation, callback registration. Registered callbacks appear only as flags and returned values.
- Culling, backface and frustum tests and triangle normals are not modelled. They are clip-space float arithmetic on camera matrices.
- The cube-sphere quadtree members declared in `include/Planet.h` are not modelled, except the `QuadNode` constructor. The persistent-noise members and `getModelMatrix`'s matrix are not modelled either; the rotation is an uninterpreted function of axis and angle.
- Floating point is not modelled: rounding, overflow, NaN and infinity. Floats are reals, and `Glm.FloatDiv` treats a zero divisor as giving 0.
- `glm::normalize`, `length`, `sqrt`, `sin`, `cos`, `atan2` and `asin` are uninterpreted. No claim depends on their values, except those stated under `Glm.Lawful`.
- FastNoiseLite is not modelled. The noise field is a function parameter of `Icospheres.Icosphere.ApplyProceduralTerrain`, sampled at ten times each vertex's direction.
- The debug window's thread, message loop, mutex and text painting are not modelled, nor `updateFPS`. `SetOpen` stands for the thread's stores of the open flag.
- The camera passed to `DebugWindows.DebugWindow.Update` enters as its position and speed factor. Its class (in `include/Camera.h`) is not part of this model.
- Console logging and the per-level statistics of the rebuild are not modelled.
- The flight mode of the frame loop is not modelled: its own camera, roll, and keyboard movement. Free-fly keyboard movement and rendering are not modelled either.
- FrameLoop.FrameState.HandleInput: in flight mode the source sets `cameraFront` and `cameraUp` from the flight camera (src/main.cpp:258-259). The model has no flight camera, so it states nothing about the front vector in that mode.
- The model cannot use `glfwGetCursorPos` and `glfwGetKey`, so cursor positions and key states are parameters.
- The input manager's static fields are one object. The scene is represented by its camera.
- MeshBuild.VertexTable.AddVertex: the dedup map compares keys exactly. The source's map hashes exact bits and compares with the tolerant equality inside a bucket, so near-equal positions are merged only when they fall into the same bucket. The model does not claim such merging (see PlanetHeader.EqualKeysCanHashApart).
- Icospheres.Icosphere.ApplyProceduralTerrain: the oceanLevel argument is ignored, as in the source, which always uses 0.48.
- The default margin of 0.3 for `preventPenetration` (include/Planet.h:152) is not modelled: nothing calls the function, and Planets.Planet.PreventPenetration takes the margin as an argument.
- Planets.Planet.Update: 2 pi is the literal 6.28318530717958647692.
- Planets.Planet.UpdateDynamicLOD: the current time (`glfwGetTime`) and the camera position are parameters.
- Planets.Planet.RunLODPass, Planets.Planet.FinishLODPass, Planets.Planet.UpdateTriangleLevels, Planets.Planet.UpdateTriangleLevel, Planets.Planet.EmitMeshCorners, Planets.Planet.EmitLeafTriangle and Planets.Planet.WriteVertexBuffer are parts of `updateDynamicLOD` and `rebuildMesh`, split out so that each proof stays small.
- Icospheres.Icosphere.SplitFace, Icospheres.Icosphere.MidpointStep, Icospheres.Icosphere.SplitFaceAsWritten and Icospheres.Icosphere.AddMidpoint are parts of the refinement loop, split out for the same reason.
- Icospheres.Icosphere.CreateIcosphereShared and Icospheres.Icosphere.RefineAllShared state the vertex count of the corrected builder, not its vertex list; Icospheres.Icosphere.RefinePass states the midpoint vertices of one corrected pass.
- FrameLoop.FrameState.HandleInput: the source's comment promises `cameraSpeed == 0.2 * radius` every frame. This holds only right after line 284. The arrow keys change the radius afterwards, so the contract ties the speed to the wheel-zoomed radius.
- FrameLoop.FrameState.HandleInput: the arrow keys can also leave the 1.1 R .. 20 R zoom range, as FrameLoop.DownKeyPassesZoomFloor shows.
- The headers `include/Camera.h`, `src/Camera.h` and `src/Icosphere.h` disagree with the implementations. The model follows the `.cpp` files.

## Findings

| source | as written | input that shows it | evidently intended | confidence | as-written member | corrected member |
|---|---|---|---|---|---|---|
| src/Icosphere.cpp:103-105 | each face appends a fresh vertex for every midpoint, on top of the one `getMiddlePoint` caches. Neighbouring faces get duplicate, unshared midpoint vertices, and the cached vertex of each edge is used by no face: 3 vertices per face more than needed | subdivisions = 1: base faces (0, 11, 5) and (0, 5, 1) share edge 0-5 but get different midpoint vertices; the pass ends with 60 more vertices than the shared pass | use the cached midpoint index, so faces sharing an edge share its midpoint vertex | not executed | Icospheres.WrittenPassSplitsSharedEdge, Icospheres.WrittenPassExtraVertices | Icospheres.SharedPassJoinsSharedEdge, Icospheres.Icosphere.CreateIcosphereShared |
