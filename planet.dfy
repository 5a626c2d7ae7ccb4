/**
 * The planet: its base icosahedron, the distance-driven LOD pass over the
 * 20 base triangles, the mesh rebuild that subdivides each triangle to its
 * level and deduplicates the leaf corners, the rotation-angle wrap, and the
 * surface queries used by the camera.
 */
module Planets {
  import opened Glm
  import opened PlanetHeader
  import opened LodLevels
  import opened MeshBuild
  import opened Icosahedron

  const TwoPi: real := 6.28318530717958647692

  /** The 12 icosahedron corners, before scaling: (±1, ±phi, 0) and its cyclic shifts, times 1 / sqrt(phi^2 + 1). */
  function UnitIcosahedron(math: MathLib): (vs: seq<Vec3>)
    ensures |vs| == 12
  {
    var phi := (1.0 + math.sqrt(5.0)) / 2.0;
    var norm := FloatDiv(1.0, math.sqrt(phi * phi + 1.0));
    [ Vec3(-1.0 * norm, phi * norm, 0.0), Vec3(1.0 * norm, phi * norm, 0.0),
      Vec3(-1.0 * norm, -phi * norm, 0.0), Vec3(1.0 * norm, -phi * norm, 0.0),
      Vec3(0.0, -1.0 * norm, phi * norm), Vec3(0.0, 1.0 * norm, phi * norm),
      Vec3(0.0, -1.0 * norm, -phi * norm), Vec3(0.0, 1.0 * norm, -phi * norm),
      Vec3(phi * norm, 0.0, -1.0 * norm), Vec3(phi * norm, 0.0, 1.0 * norm),
      Vec3(-phi * norm, 0.0, -1.0 * norm), Vec3(-phi * norm, 0.0, 1.0 * norm) ]
  }

  /** The centroid (a + b + c) / 3. */
  function TriangleCenter(a: Vec3, b: Vec3, c: Vec3): Vec3 {
    Vec3((a.x + b.x + c.x) / 3.0, (a.y + b.y + c.y) / 3.0, (a.z + b.z + c.z) / 3.0)
  }

  /** The fresh base triangle for face f: level 0, distance 0, flagged for update and visible. */
  function BaseTriangle(vertices: seq<Vec3>, f: nat): Triangle
    requires |vertices| == 12 && f < |Faces|
  {
    var (a, b, c) := Faces[f];
    Triangle(a, b, c, TriangleCenter(vertices[a], vertices[b], vertices[c]), 0.0, 0, true, true)
  }

  function ScaledBy(vs: seq<Vec3>, k: real): (ws: seq<Vec3>)
    ensures |ws| == |vs|
  {
    seq(|vs|, i requires 0 <= i < |vs| => Scale(vs[i], k))
  }

  /** The 20 fresh base triangles, face by face. */
  function BaseTriangles(vertices: seq<Vec3>): (ts: seq<Triangle>)
    requires |vertices| == 12
    ensures |ts| == |Faces|
  {
    seq(|Faces|, f requires 0 <= f < |Faces| => BaseTriangle(vertices, f))
  }

  /** The base triangles index the 12 vertices, sit at level 0 and are flagged for update. */
  lemma BaseTrianglesValid(vertices: seq<Vec3>)
    requires |vertices| == 12
    ensures CornersIn(BaseTriangles(vertices), 12)
    ensures forall f :: 0 <= f < |Faces| ==>
      BaseTriangles(vertices)[f].subdivisionLevel == 0 && BaseTriangles(vertices)[f].needsUpdate
  {
  }

  /**
   * The outcome of a due LOD pass from triangles ts0 (flagged or not), published mesh mesh0
   * and rebuild count rebuilds0: every triangle is stepped against its world-space camera
   * distance, and the mesh is rebuilt (once) exactly when it was flagged or some level
   * changed; otherwise it is kept as it was.
   */
  ghost predicate PassOutcome(math: MathLib, radius: real, pose: Pose, cameraPos: Vec3,
                              ts0: seq<Triangle>, flagged: bool, mesh0: PublishedMesh, rebuilds0: nat,
                              ts: seq<Triangle>, mesh: PublishedMesh, rebuilds: nat)
  {
    && ts == StepAll(ts0, CenterDistances(math, pose, cameraPos, ts0), radius, flagged)
    && var rebuilt := flagged || LevelChanged(ts0, ts);
       && rebuilds == rebuilds0 + (if rebuilt then 1 else 0)
       && (!rebuilt ==> mesh == mesh0)
  }

  /** A pass outcome, put together from the loop's result and the rebuild decision. */
  lemma PassOutcomeFromSteps(math: MathLib, radius: real, pose: Pose, cameraPos: Vec3,
                             ts0: seq<Triangle>, flagged: bool, mesh0: PublishedMesh, rebuilds0: nat,
                             ts: seq<Triangle>, mesh: PublishedMesh, rebuilds: nat, changed: bool)
    requires ts == StepAll(ts0, CenterDistances(math, pose, cameraPos, ts0), radius, flagged)
    requires changed == LevelChanged(ts0, ts)
    requires flagged || changed ==> rebuilds == rebuilds0 + 1
    requires !flagged && !changed ==> rebuilds == rebuilds0 && mesh == mesh0
    ensures PassOutcome(math, radius, pose, cameraPos, ts0, flagged, mesh0, rebuilds0, ts, mesh, rebuilds)
  {
  }

  /** The parts of the model matrix: translation, rotation axis, speed and angle. */
  datatype Pose = Pose(position: Vec3, rotationAxis: Vec3, rotationSpeed: real, currentRotation: real)

  /** A triangle centre taken to world space by the model matrix: rotated only when the planet spins. */
  function WorldCenter(math: MathLib, pose: Pose, center: Vec3): Vec3 {
    if pose.rotationSpeed != 0.0 then
      Add(pose.position, math.rotate(pose.currentRotation, pose.rotationAxis, center))
    else
      Add(pose.position, center)
  }

  /** The camera's distance to a triangle centre taken to world space. */
  function CameraDistance(math: MathLib, pose: Pose, cameraPos: Vec3, center: Vec3): real {
    math.length(Sub(cameraPos, WorldCenter(math, pose, center)))
  }

  /** The new camera distance of every triangle of a LOD pass. */
  function CenterDistances(math: MathLib, pose: Pose, cameraPos: Vec3, ts: seq<Triangle>): (ds: seq<real>)
    ensures |ds| == |ts|
  {
    seq(|ts|, i requires 0 <= i < |ts| => CameraDistance(math, pose, cameraPos, ts[i].center))
  }

  /** The positions stored in the first n records of a 9-float vertex buffer. */
  function BufferPositions(buffer: seq<real>, n: nat): (ps: seq<Vec3>)
    requires 9 * n <= |buffer|
    ensures |ps| == n
  {
    seq(n, j requires 0 <= j < n => BufferPosition(buffer, j))
  }

  /** The published mesh: the vertex buffer, the index list and their counts. */
  datatype PublishedMesh = PublishedMesh(vertexData: seq<real>, indices: seq<nat>, vertexCount: int, indexCount: int)

  /**
   * The published mesh is the one the triangle levels call for: one 9-float record per
   * distinct vertex, the counts equal to the list sizes, the index list naming, corner
   * by corner, the vertex at each leaf corner of the subdivided triangles, and every
   * record named by some index (see PublishedVertexCount).
   */
  ghost predicate MeshMatchesOn(math: MathLib, radius: real, color: Vec3, vertices: seq<Vec3>, ts: seq<Triangle>,
                                mesh: PublishedMesh)
  {
    && CornersIn(ts, |vertices|)
    && 0 <= mesh.vertexCount
    && |mesh.vertexData| == 9 * mesh.vertexCount
    && mesh.indexCount == |mesh.indices|
    && var positions := BufferPositions(mesh.vertexData, mesh.vertexCount);
       && BufferHolds(math, radius, color, mesh.vertexData, positions)
       && Distinct(positions)
       && Emits(math, radius, mesh.indices, positions, MeshCorners(math, radius, vertices, ts))
       && Covers(mesh.indices, mesh.vertexCount)
  }

  /**
   * A published mesh that matches the levels holds exactly the distinct sphere points of
   * the leaf corners, one record each.
   */
  lemma PublishedVertexCount(math: MathLib, radius: real, color: Vec3, vertices: seq<Vec3>, ts: seq<Triangle>,
                             mesh: PublishedMesh)
    requires MeshMatchesOn(math, radius, color, vertices, ts, mesh)
    ensures var corners := MeshCorners(math, radius, vertices, ts);
      && (set x | x in BufferPositions(mesh.vertexData, mesh.vertexCount))
           == (set c | c in corners :: SurfacePoint(math, radius, c))
      && mesh.vertexCount == |set c | c in corners :: SurfacePoint(math, radius, c)|
  {
    EmittedVertexCount(math, radius, mesh.indices, BufferPositions(mesh.vertexData, mesh.vertexCount),
                       MeshCorners(math, radius, vertices, ts));
  }

  /**
   * The planet's invariant: triangle corners index the base vertices and levels are in
   * 0..14; unless the mesh is flagged, every level matches its cached distance and the
   * published mesh matches the levels.
   */
  ghost predicate PlanetInvariant(math: MathLib, radius: real, color: Vec3, vertices: seq<Vec3>, ts: seq<Triangle>,
                                  flagged: bool, mesh: PublishedMesh)
  {
    && CornersIn(ts, |vertices|)
    && (forall i :: 0 <= i < |ts| ==> 0 <= ts[i].subdivisionLevel <= MaxLevel)
    && (!flagged ==> LevelsConsistent(ts, radius) && MeshMatchesOn(math, radius, color, vertices, ts, mesh))
  }

  /** A rebuild whose table, buffer and index list agree publishes a mesh that matches the levels. */
  lemma MeshMatchesFromTable(math: MathLib, radius: real, color: Vec3, vertices: seq<Vec3>, ts: seq<Triangle>,
                             finalVertices: seq<real>, finalIndices: seq<nat>, positions: seq<Vec3>)
    requires CornersIn(ts, |vertices|)
    requires BufferHolds(math, radius, color, finalVertices, positions) && Distinct(positions)
    requires Emits(math, radius, finalIndices, positions, MeshCorners(math, radius, vertices, ts))
    requires Covers(finalIndices, |positions|)
    ensures MeshMatchesOn(math, radius, color, vertices, ts,
                          PublishedMesh(finalVertices, finalIndices, |positions|, |finalIndices|))
  {
    BufferPositionsAreStored(math, radius, color, finalVertices, positions);
  }

  /** A LOD pass keeps corners and level bounds, and leaves every level consistent. */
  lemma PassKeepsLevelsValid(math: MathLib, radius: real, color: Vec3, vertices: seq<Vec3>, ts: seq<Triangle>,
                             distances: seq<real>, force: bool, mesh: PublishedMesh)
    requires PlanetInvariant(math, radius, color, vertices, ts, force, mesh) && |distances| == |ts|
    ensures var us := StepAll(ts, distances, radius, force);
      && CornersIn(us, |vertices|)
      && (forall i :: 0 <= i < |us| ==> 0 <= us[i].subdivisionLevel <= MaxLevel)
      && LevelsConsistent(us, radius)
  {
    StepAllConsistent(ts, distances, radius, force);
  }

  /** An unforced pass that changes no level keeps the invariant with the mesh as it is. */
  lemma PassKeepsMesh(math: MathLib, radius: real, color: Vec3, vertices: seq<Vec3>, ts: seq<Triangle>,
                      distances: seq<real>, mesh: PublishedMesh)
    requires |distances| == |ts|
    requires PlanetInvariant(math, radius, color, vertices, ts, false, mesh)
    requires !LevelChanged(ts, StepAll(ts, distances, radius, false))
    ensures PlanetInvariant(math, radius, color, vertices, StepAll(ts, distances, radius, false), false, mesh)
  {
    var us := StepAll(ts, distances, radius, false);
    PassKeepsLevelsValid(math, radius, color, vertices, ts, distances, false, mesh);
    LevelChangedIff(ts, us);
    MeshCornersOnlyDependOnLevels(math, radius, vertices, ts, us);
  }

  lemma EmitsAppendTriangle(math: MathLib, radius: real, indices: seq<nat>, positions: seq<Vec3>, corners: seq<Vec3>,
                            i1: nat, i2: nat, i3: nat, a: Vec3, b: Vec3, c: Vec3)
    requires Emits(math, radius, indices, positions, corners)
    requires i1 < |positions| && positions[i1] == SurfacePoint(math, radius, a)
    requires i2 < |positions| && positions[i2] == SurfacePoint(math, radius, b)
    requires i3 < |positions| && positions[i3] == SurfacePoint(math, radius, c)
    ensures Emits(math, radius, indices + [i1, i2, i3], positions, corners + [a, b, c])
  {
  }

  lemma ConcatRegroup(d: seq<Vec3>, c1: seq<Vec3>, c2: seq<Vec3>, c3: seq<Vec3>, c4: seq<Vec3>)
    ensures d + c1 + c2 + c3 + c4 == d + (c1 + c2 + c3 + c4)
  {
  }

  lemma AppendRegroup(before: seq<real>, a: seq<real>, b: seq<real>, c: seq<real>)
    ensures before + a + b + c == before + (a + b + c)
  {
  }

  lemma VertexRecordIs(math: MathLib, radius: real, color: Vec3, p: Vec3, shade: real, r: real, g: real, b: real, normal: Vec3)
    requires shade == Shade(radius, p.y)
    requires r == color.x * shade && g == color.y * shade && b == color.z * shade
    requires normal == math.normalize(p)
    ensures [p.x, p.y, p.z] + [r, g, b] + [normal.x, normal.y, normal.z] == VertexRecord(math, radius, color, p)
  {
    var record := VertexRecord(math, radius, color, p);
    var pieces := [p.x, p.y, p.z] + [r, g, b] + [normal.x, normal.y, normal.z];
    forall i | 0 <= i < 9
      ensures pieces[i] == record[i]
    {
    }
  }

  lemma BufferHoldsAppend(math: MathLib, radius: real, color: Vec3, buffer: seq<real>, positions: seq<Vec3>, p: Vec3)
    requires BufferHolds(math, radius, color, buffer, positions)
    ensures BufferHolds(math, radius, color, buffer + VertexRecord(math, radius, color, p), positions + [p])
  {
    assert (positions + [p])[..|positions|] == positions;
  }

  lemma BufferPositionsAreStored(math: MathLib, radius: real, color: Vec3, buffer: seq<real>, positions: seq<Vec3>)
    requires BufferHolds(math, radius, color, buffer, positions)
    ensures BufferPositions(buffer, |positions|) == positions
  {
    forall j | 0 <= j < |positions|
      ensures BufferPositions(buffer, |positions|)[j] == positions[j]
    {
      BufferPositionIsStored(math, radius, color, buffer, positions, j);
    }
  }

  class Planet {
    const math: MathLib
    var position: Vec3
    var radius: real
    var color: Vec3
    var rotationAxis: Vec3
    var rotationSpeed: real
    var currentRotation: real
    /** The 12 base vertices, scaled by the radius. */
    var vertices: seq<Vec3>
    var triangles: seq<Triangle>
    /** The published mesh: 9 floats per vertex, 3 indices per leaf triangle. */
    var finalVertices: seq<real>
    var finalIndices: seq<nat>
    var sphereVertexCount: int
    var sphereIndexCount: int
    var lastCameraPosition: Vec3
    var lodNeedsUpdate: bool
    var lastLODUpdateTime: real
    /** How many times the mesh has been rebuilt. */
    ghost var rebuilds: nat

    /** The planet's invariant holds of its fields. */
    ghost predicate Valid()
      reads this`vertices, this`triangles, this`lodNeedsUpdate, this`radius, this`color,
            this`finalVertices, this`finalIndices, this`sphereVertexCount, this`sphereIndexCount
    {
      PlanetInvariant(math, radius, color, vertices, triangles, lodNeedsUpdate, Published())
    }

    /** The published mesh as one value. */
    function Published(): PublishedMesh
      reads this`finalVertices, this`finalIndices, this`sphereVertexCount, this`sphereIndexCount
    {
      PublishedMesh(finalVertices, finalIndices, sphereVertexCount, sphereIndexCount)
    }

    function CurrentPose(): Pose
      reads this`position, this`rotationAxis, this`rotationSpeed, this`currentRotation
    {
      Pose(position, rotationAxis, rotationSpeed, currentRotation)
    }

    constructor (math: MathLib, position: Vec3, radius: real, color: Vec3)
      ensures Valid()
      ensures this.math == math && this.position == position && this.radius == radius && this.color == color
      ensures rotationAxis == Vec3(0.0, 1.0, 0.0) && rotationSpeed == 0.0 && currentRotation == 0.0
      ensures vertices == [] && triangles == [] && finalVertices == [] && finalIndices == []
      ensures sphereVertexCount == 0 && sphereIndexCount == 0
      ensures lastCameraPosition == Zero && lodNeedsUpdate && lastLODUpdateTime == 0.0
    {
      this.math := math;
      this.position := position;
      this.radius := radius;
      this.color := color;
      rotationAxis := Vec3(0.0, 1.0, 0.0);
      rotationSpeed := 0.0;
      currentRotation := 0.0;
      vertices := [];
      triangles := [];
      finalVertices := [];
      finalIndices := [];
      sphereVertexCount := 0;
      sphereIndexCount := 0;
      lastCameraPosition := Zero;
      lodNeedsUpdate := true;
      lastLODUpdateTime := 0.0;
      rebuilds := 0;
    }

    /**
     * The base icosahedron: the 12 unit corners scaled by the radius, one level-0 triangle
     * per face with its centroid, and the mesh flagged for a rebuild.
     */
    method GenerateSphere()
      modifies this`vertices, this`triangles, this`lodNeedsUpdate
      ensures vertices == ScaledBy(UnitIcosahedron(math), radius)
      ensures triangles == BaseTriangles(vertices)
      ensures lodNeedsUpdate && Valid()
    {
      var unit := UnitIcosahedron(math);
      vertices := unit;
      var k := 0;
      while k < |vertices|
        modifies this`vertices
        invariant 0 <= k <= |vertices| == |unit|
        invariant forall i :: 0 <= i < k ==> vertices[i] == Scale(unit[i], radius)
        invariant forall i :: k <= i < |unit| ==> vertices[i] == unit[i]
      {
        vertices := vertices[k := Scale(vertices[k], radius)];
        k := k + 1;
      }
      assert vertices == ScaledBy(unit, radius);
      triangles := [];
      var f := 0;
      while f < |Faces|
        modifies this`triangles
        invariant 0 <= f <= |Faces| && |triangles| == f
        invariant forall g :: 0 <= g < f ==> triangles[g] == BaseTriangle(vertices, g)
      {
        var (a, b, c) := Faces[f];
        var triangle := Triangle(a, b, c, TriangleCenter(vertices[a], vertices[b], vertices[c]), 0.0, 0, true, true);
        triangles := triangles + [triangle];
        f := f + 1;
      }
      assert triangles == BaseTriangles(vertices);
      BaseTrianglesValid(vertices);
      lodNeedsUpdate := true;
    }

    /** A new radius regenerates the base sphere and flags the mesh; the same radius changes nothing. */
    method SetRadius(r: real)
      requires Valid()
      modifies this`radius, this`vertices, this`triangles, this`lodNeedsUpdate
      ensures Valid()
      ensures r == old(radius) ==> unchanged(this)
      ensures r != old(radius) ==>
        && radius == r && lodNeedsUpdate
        && vertices == ScaledBy(UnitIcosahedron(math), radius)
        && triangles == BaseTriangles(vertices)
    {
      if r != radius {
        radius := r;
        lodNeedsUpdate := true;
        GenerateSphere();
      }
    }

    /**
     * Advance the rotation by speed * deltaTime and bring it back into [0, 2 pi] by whole
     * turns; `turns` is the number of turns taken off.
     */
    method Update(deltaTime: real) returns (ghost turns: int)
      modifies this`currentRotation
      ensures 0.0 <= currentRotation <= TwoPi
      ensures currentRotation == old(currentRotation) + rotationSpeed * deltaTime - turns as real * TwoPi
      ensures var start := old(currentRotation) + rotationSpeed * deltaTime;
        && (0.0 <= start <= TwoPi ==> currentRotation == start)
        && (start > 0.0 ==> currentRotation > 0.0)
        && (start < 0.0 ==> currentRotation < TwoPi)
    {
      currentRotation := currentRotation + rotationSpeed * deltaTime;
      ghost var start := currentRotation;
      turns := 0;
      while currentRotation > TwoPi
        invariant currentRotation == start - turns as real * TwoPi
        invariant start <= TwoPi ==> turns == 0
        invariant start > 0.0 ==> currentRotation > 0.0
        invariant start < 0.0 ==> currentRotation == start
        decreases currentRotation.Floor
      {
        currentRotation := currentRotation - TwoPi;
        turns := turns + 1;
      }
      while currentRotation < 0.0
        invariant currentRotation <= TwoPi
        invariant currentRotation == start - turns as real * TwoPi
        invariant start >= 0.0 ==> currentRotation >= 0.0
        invariant 0.0 <= start <= TwoPi ==> turns == 0
        invariant start < 0.0 ==> currentRotation < TwoPi
        decreases (-currentRotation).Floor
      {
        currentRotation := currentRotation + TwoPi;
        turns := turns - 1;
      }
    }

    /**
     * The LOD pass at camera position cameraPos and time currentTime. When the pass is due,
     * it records the camera and the time, steps every triangle against its new distance,
     * and rebuilds the mesh exactly when the mesh was flagged or some level changed.
     * Afterwards the mesh is never flagged and matches the levels.
     */
    method UpdateDynamicLOD(cameraPos: Vec3, currentTime: real)
      requires Valid()
      modifies this`triangles, this`lastCameraPosition, this`lastLODUpdateTime, this`lodNeedsUpdate,
               this`finalVertices, this`finalIndices, this`sphereVertexCount, this`sphereIndexCount, this`rebuilds
      ensures Valid() && !lodNeedsUpdate
      ensures var due := old(LodPassDue(lodNeedsUpdate, math.length(Sub(cameraPos, lastCameraPosition)),
                                        rotationSpeed != 0.0, currentTime - lastLODUpdateTime));
        && (!due ==>
              && triangles == old(triangles) && lodNeedsUpdate == old(lodNeedsUpdate)
              && lastCameraPosition == old(lastCameraPosition) && lastLODUpdateTime == old(lastLODUpdateTime)
              && Published() == old(Published()) && rebuilds == old(rebuilds))
        && (due ==>
              && lastCameraPosition == cameraPos && lastLODUpdateTime == currentTime
              && PassOutcome(math, radius, CurrentPose(), cameraPos, old(triangles), old(lodNeedsUpdate),
                             old(Published()), old(rebuilds), triangles, Published(), rebuilds))
    {
      var timeSinceLastUpdate := currentTime - lastLODUpdateTime;
      var cameraMovement := math.length(Sub(cameraPos, lastCameraPosition));
      var cameraMovedSignificantly := cameraMovement > MinCameraMovement;
      var planetIsRotating := rotationSpeed != 0.0;
      var timeForUpdate := timeSinceLastUpdate >= MinUpdateInterval;
      if !lodNeedsUpdate && !cameraMovedSignificantly && (!planetIsRotating || !timeForUpdate) {
        return;
      }
      lastCameraPosition := cameraPos;
      lastLODUpdateTime := currentTime;
      RunLODPass(cameraPos);
    }

    /**
     * The body of a due LOD pass: step the triangles, then rebuild the mesh when it was
     * flagged or some level changed, and otherwise keep it (it still matches the levels).
     */
    method RunLODPass(cameraPos: Vec3)
      requires Valid()
      modifies this`triangles, this`lodNeedsUpdate,
               this`finalVertices, this`finalIndices, this`sphereVertexCount, this`sphereIndexCount, this`rebuilds
      ensures Valid() && !lodNeedsUpdate
      ensures PassOutcome(math, radius, CurrentPose(), cameraPos, old(triangles), old(lodNeedsUpdate),
                          old(Published()), old(rebuilds), triangles, Published(), rebuilds)
    {
      ghost var ts0, flagged, mesh0, rebuilds0, pose := triangles, lodNeedsUpdate, Published(), rebuilds, CurrentPose();
      ghost var distances := CenterDistances(math, pose, cameraPos, ts0);
      ghost var r, c, vs := radius, color, vertices;
      var needsRebuild := UpdateTriangleLevels(cameraPos);
      assert lodNeedsUpdate == flagged && Published() == mesh0 && rebuilds == rebuilds0 && CurrentPose() == pose;
      assert radius == r && color == c && vertices == vs;
      FinishLODPass(needsRebuild, ts0, distances);
      assert CurrentPose() == pose;
      PassOutcomeFromSteps(math, radius, pose, cameraPos, ts0, flagged, mesh0, rebuilds0, triangles, Published(), rebuilds,
                           needsRebuild);
    }

    /**
     * The tail of a due LOD pass, once the triangles have been stepped from ts0: rebuild
     * when the mesh was flagged or some level changed, and otherwise keep the mesh.
     */
    method FinishLODPass(needsRebuild: bool, ghost ts0: seq<Triangle>, ghost distances: seq<real>)
      requires |distances| == |ts0|
      requires PlanetInvariant(math, radius, color, vertices, ts0, lodNeedsUpdate, Published())
      requires triangles == StepAll(ts0, distances, radius, lodNeedsUpdate)
      requires !needsRebuild ==> !LevelChanged(ts0, triangles)
      modifies this`lodNeedsUpdate, this`finalVertices, this`finalIndices, this`sphereVertexCount,
               this`sphereIndexCount, this`rebuilds
      ensures Valid() && !lodNeedsUpdate
      ensures old(lodNeedsUpdate) || needsRebuild ==> rebuilds == old(rebuilds) + 1
      ensures !old(lodNeedsUpdate) && !needsRebuild ==> rebuilds == old(rebuilds) && Published() == old(Published())
    {
      if needsRebuild || lodNeedsUpdate {
        PassKeepsLevelsValid(math, radius, color, vertices, ts0, distances, lodNeedsUpdate, Published());
        RebuildMesh();
        lodNeedsUpdate := false;
      } else {
        PassKeepsMesh(math, radius, color, vertices, ts0, distances, Published());
      }
    }

    /**
     * The loop of the LOD pass: every triangle takes its new world-space camera distance
     * and, where due, its new level; the result says whether some level changed.
     */
    method UpdateTriangleLevels(cameraPos: Vec3) returns (needsRebuild: bool)
      modifies this`triangles
      ensures triangles == StepAll(old(triangles), CenterDistances(math, CurrentPose(), cameraPos, old(triangles)),
                                   radius, lodNeedsUpdate)
      ensures needsRebuild == LevelChanged(old(triangles), triangles)
    {
      needsRebuild := false;
      ghost var ts0 := triangles;
      ghost var distances := CenterDistances(math, CurrentPose(), cameraPos, ts0);
      var i := 0;
      while i < |triangles|
        invariant 0 <= i <= |triangles| == |ts0|
        invariant forall j :: 0 <= j < i ==> triangles[j] == TriangleStep(ts0[j], distances[j], radius, lodNeedsUpdate)
        invariant forall j :: i <= j < |ts0| ==> triangles[j] == ts0[j]
        invariant needsRebuild == LevelChanged(ts0[..i], triangles[..i])
      {
        var levelChanged := UpdateTriangleLevel(i, cameraPos);
        if levelChanged {
          needsRebuild := true;
        }
        assert ts0[..i + 1][..i] == ts0[..i];
        assert triangles[..i + 1][..i] == triangles[..i];
        i := i + 1;
      }
      assert ts0[..i] == ts0 && triangles[..i] == triangles;
      assert triangles == StepAll(ts0, distances, radius, lodNeedsUpdate);
    }

    /**
     * One triangle of the LOD pass: refresh its cached distance when it moved by more than
     * the tolerance (or the mesh is flagged) and, if its required level differs, take that
     * level and mark it for update. The result says whether its level changed.
     */
    method UpdateTriangleLevel(i: nat, cameraPos: Vec3) returns (levelChanged: bool)
      requires i < |triangles|
      modifies this`triangles
      ensures triangles == old(triangles)[i := TriangleStep(old(triangles)[i],
                                                           CameraDistance(math, CurrentPose(), cameraPos, old(triangles)[i].center),
                                                           radius, lodNeedsUpdate)]
      ensures levelChanged == (triangles[i].subdivisionLevel != old(triangles)[i].subdivisionLevel)
    {
      var triangle := triangles[i];
      var newDistance := CameraDistance(math, CurrentPose(), cameraPos, triangle.center);
      levelChanged := false;
      if Abs(newDistance - triangle.distanceToCamera) > DistanceTolerance || lodNeedsUpdate {
        triangle := triangle.(distanceToCamera := newDistance);
        var requiredLevel := RequiredLevel(triangle.distanceToCamera, radius);
        if triangle.subdivisionLevel != requiredLevel {
          triangle := triangle.(subdivisionLevel := requiredLevel, needsUpdate := true);
          levelChanged := true;
        }
        triangles := triangles[i := triangle];
      }
    }

    /**
     * Rebuild the published mesh from the triangle levels: every triangle is subdivided to
     * its level, every leaf corner goes through one deduplication table, and each distinct
     * vertex is written as position, shaded colour and normal.
     */
    method RebuildMesh()
      requires CornersIn(triangles, |vertices|)
      modifies this`finalVertices, this`finalIndices, this`sphereVertexCount, this`sphereIndexCount, this`rebuilds
      ensures rebuilds == old(rebuilds) + 1
      ensures MeshMatchesOn(math, radius, color, vertices, triangles, Published())
    {
      rebuilds := rebuilds + 1;
      finalVertices := [];
      finalIndices := [];
      var table := new VertexTable(math, radius);
      EmitMeshCorners(table);
      WriteVertexBuffer(table.positions);
      sphereVertexCount := |table.positions|;
      sphereIndexCount := |finalIndices|;
      TablePositionsDistinct(table);
      MeshMatchesFromTable(math, radius, color, vertices, triangles, finalVertices, finalIndices, table.positions);
    }

    /**
     * The index-list half of the rebuild: every triangle, at its level, emits its leaf
     * corners through the table.
     */
    method EmitMeshCorners(table: VertexTable)
      requires CornersIn(triangles, |vertices|) && finalIndices == []
      requires table.Valid() && table.math == math && table.radius == radius && table.positions == []
      modifies this`finalIndices, table
      ensures table.Valid()
      ensures Emits(math, radius, finalIndices, table.positions, MeshCorners(math, radius, vertices, triangles))
      ensures Covers(finalIndices, |table.positions|)
    {
      var i := 0;
      while i < |triangles|
        invariant 0 <= i <= |triangles|
        invariant table.Valid() && table.math == math && table.radius == radius
        invariant Emits(math, radius, finalIndices, table.positions, MeshCorners(math, radius, vertices, triangles[..i]))
        invariant Covers(finalIndices, |table.positions|)
      {
        var triangle := triangles[i];
        ghost var done := MeshCorners(math, radius, vertices, triangles[..i]);
        assert triangles[..i + 1][..i] == triangles[..i];
        if triangle.subdivisionLevel == 0 {
          EmitLeafTriangle(vertices[triangle.v1], vertices[triangle.v2], vertices[triangle.v3], 0, table, done);
        } else {
          SubdivideTriangleRecursive(vertices[triangle.v1], vertices[triangle.v2], vertices[triangle.v3],
                                     triangle.subdivisionLevel, triangle.subdivisionLevel, table, done);
        }
        i := i + 1;
      }
      assert triangles[..i] == triangles;
    }

    /** One leaf triangle: its three corners go through the table with the given level. */
    method EmitLeafTriangle(v1: Vec3, v2: Vec3, v3: Vec3, subdivisionLevel: int, table: VertexTable,
                            ghost done: seq<Vec3>)
      requires table.Valid() && table.math == math && table.radius == radius
      requires Emits(math, radius, finalIndices, table.positions, done)
      requires Covers(finalIndices, |table.positions|)
      modifies this`finalIndices, table
      ensures table.Valid()
      ensures Grows(old(table.positions), old(table.levels), table.positions, table.levels)
      ensures Emits(math, radius, finalIndices, table.positions, done + [v1, v2, v3])
      ensures Covers(finalIndices, |table.positions|)
    {
      ghost var p0, l0 := table.positions, table.levels;
      var i1 := table.AddVertex(v1, subdivisionLevel);
      ghost var p1, l1 := table.positions, table.levels;
      var i2 := table.AddVertex(v2, subdivisionLevel);
      ghost var p2, l2 := table.positions, table.levels;
      var i3 := table.AddVertex(v3, subdivisionLevel);
      GrowsTransitive(p0, l0, p1, l1, p2, l2);
      GrowsTransitive(p0, l0, p2, l2, table.positions, table.levels);
      GrowsTransitive(p1, l1, p2, l2, table.positions, table.levels);
      EmitsUnderGrowth(math, radius, finalIndices, p0, l0, table.positions, table.levels, done);
      EmitsAppendTriangle(math, radius, finalIndices, table.positions, done, i1, i2, i3, v1, v2, v3);
      CoversAppend(finalIndices, |p0|, i1, |p1|);
      CoversAppend(finalIndices + [i1], |p1|, i2, |p2|);
      CoversAppend(finalIndices + [i1] + [i2], |p2|, i3, |table.positions|);
      assert finalIndices + [i1] + [i2] + [i3] == finalIndices + [i1, i2, i3];
      finalIndices := finalIndices + [i1, i2, i3];
    }

    /**
     * The vertex-buffer half of the rebuild: one 9-float record per distinct position,
     * in table order.
     */
    method WriteVertexBuffer(positions: seq<Vec3>)
      modifies this`finalVertices
      ensures BufferHolds(math, radius, color, finalVertices, positions)
    {
      finalVertices := [];
      var j := 0;
      while j < |positions|
        modifies this`finalVertices
        invariant 0 <= j <= |positions|
        invariant BufferHolds(math, radius, color, finalVertices, positions[..j])
      {
        var vertex := positions[j];
        ghost var before := finalVertices;
        finalVertices := finalVertices + [vertex.x, vertex.y, vertex.z];
        var normalizedHeight := (FloatDiv(vertex.y, radius) + 1.0) * 0.5;
        var r := color.x * (0.8 + 0.2 * normalizedHeight);
        var g := color.y * (0.8 + 0.2 * normalizedHeight);
        var b := color.z * (0.8 + 0.2 * normalizedHeight);
        finalVertices := finalVertices + [r, g, b];
        var normal := math.normalize(vertex);
        finalVertices := finalVertices + [normal.x, normal.y, normal.z];
        AppendRegroup(before, [vertex.x, vertex.y, vertex.z], [r, g, b], [normal.x, normal.y, normal.z]);
        VertexRecordIs(math, radius, color, vertex, 0.8 + 0.2 * normalizedHeight, r, g, b, normal);
        assert finalVertices == before + VertexRecord(math, radius, color, vertex);
        BufferHoldsAppend(math, radius, color, before, positions[..j], vertex);
        assert positions[..j + 1] == positions[..j] + [vertex];
        j := j + 1;
      }
      assert positions[..j] == positions;
    }

    /**
     * Split the triangle (v1, v2, v3) `level` times, midpoints pushed onto the sphere, and
     * emit the leaves' corners through the table with the triangle's subdivisionLevel:
     * the index list grows by exactly the leaf corners of the triangle.
     */
    method SubdivideTriangleRecursive(v1: Vec3, v2: Vec3, v3: Vec3, level: int, subdivisionLevel: int,
                                      table: VertexTable, ghost done: seq<Vec3>)
      requires table.Valid() && table.math == math && table.radius == radius
      requires Emits(math, radius, finalIndices, table.positions, done)
      requires Covers(finalIndices, |table.positions|)
      modifies this`finalIndices, table
      ensures table.Valid()
      ensures Grows(old(table.positions), old(table.levels), table.positions, table.levels)
      ensures Emits(math, radius, finalIndices, table.positions, done + LeafCorners(math, radius, v1, v2, v3, level))
      ensures Covers(finalIndices, |table.positions|)
      decreases level
    {
      if level <= 0 {
        EmitLeafTriangle(v1, v2, v3, subdivisionLevel, table, done);
        return;
      }
      var m1 := SurfacePoint(math, radius, Add(v1, v2));
      var m2 := SurfacePoint(math, radius, Add(v2, v3));
      var m3 := SurfacePoint(math, radius, Add(v3, v1));
      ghost var p0, l0 := table.positions, table.levels;
      ghost var c1 := LeafCorners(math, radius, v1, m1, m3, level - 1);
      ghost var c2 := LeafCorners(math, radius, v2, m2, m1, level - 1);
      ghost var c3 := LeafCorners(math, radius, v3, m3, m2, level - 1);
      ghost var c4 := LeafCorners(math, radius, m1, m2, m3, level - 1);
      SubdivideTriangleRecursive(v1, m1, m3, level - 1, subdivisionLevel, table, done);
      ghost var p1, l1 := table.positions, table.levels;
      SubdivideTriangleRecursive(v2, m2, m1, level - 1, subdivisionLevel, table, done + c1);
      ghost var p2, l2 := table.positions, table.levels;
      SubdivideTriangleRecursive(v3, m3, m2, level - 1, subdivisionLevel, table, done + c1 + c2);
      ghost var p3, l3 := table.positions, table.levels;
      SubdivideTriangleRecursive(m1, m2, m3, level - 1, subdivisionLevel, table, done + c1 + c2 + c3);
      GrowsTransitive(p0, l0, p1, l1, p2, l2);
      GrowsTransitive(p0, l0, p2, l2, p3, l3);
      GrowsTransitive(p0, l0, p3, l3, table.positions, table.levels);
      assert LeafCorners(math, radius, v1, v2, v3, level) == c1 + c2 + c3 + c4;
      ConcatRegroup(done, c1, c2, c3, c4);
    }

    /** The distance from the planet's centre. */
    function DistanceToCenter(point: Vec3): real
      reads this
    {
      math.length(Sub(point, position))
    }

    function IsPointInside(point: Vec3): (inside: bool)
      reads this
      ensures inside <==> GetDistanceToSurface(point) < 0.0
    {
      DistanceToCenter(point) < radius
    }

    /** Signed distance to the surface: negative inside the planet. */
    function GetDistanceToSurface(point: Vec3): (d: real)
      reads this
      ensures d + radius == DistanceToCenter(point)
    {
      DistanceToCenter(point) - radius
    }

    /**
     * A point nearer the centre than radius + margin is moved out along the centre-to-point
     * direction (+z when the point is within 0.0001 of the centre) to exactly that distance;
     * any other point is returned unchanged.
     */
    function PreventPenetration(point: Vec3, margin: real): (q: Vec3)
      reads this
      ensures DistanceToCenter(point) >= radius + margin ==> q == point
      ensures DistanceToCenter(point) < radius + margin && math.length(Sub(point, position)) >= 0.0001 ==>
                q == Add(position, Scale(math.normalize(Sub(point, position)), radius + margin))
      ensures DistanceToCenter(point) < radius + margin && math.length(Sub(point, position)) < 0.0001 ==>
                q == Add(position, Scale(math.normalize(Vec3(0.0, 0.0, 1.0)), radius + margin))
    {
      var distanceToCenter := DistanceToCenter(point);
      var minDistance := radius + margin;
      if distanceToCenter < minDistance then
        var direction := Sub(point, position);
        var direction' := if math.length(direction) < 0.0001 then Vec3(0.0, 0.0, 1.0) else direction;
        Add(position, Scale(math.normalize(direction'), minDistance))
      else
        point
    }

    function GetSpeedMultiplierNearSurface(point: Vec3): (m: real)
      reads this
      ensures 0.001 <= m <= 1.0
      ensures GetDistanceToSurface(point) > 10.0 ==> m == 1.0
      ensures GetDistanceToSurface(point) <= 0.01 ==> m == 0.001
    {
      SpeedMultiplierAt(GetDistanceToSurface(point))
    }
  }

  /**
   * The speed factor at a given distance to the surface: 0.001 up to 0.01, then linear to
   * 0.01 at 0.1, to 0.05 at 1 and to 0.2 at 10, and 1 beyond 10.
   */
  function SpeedMultiplierAt(distanceToSurface: real): (m: real)
    ensures 0.001 <= m <= 1.0
    ensures distanceToSurface > 10.0 ==> m == 1.0
    ensures distanceToSurface <= 0.01 ==> m == 0.001
  {
    var ultraCloseZone, veryCloseZone, closeZone, mediumZone := 0.01, 0.1, 1.0, 10.0;
    var ultraSlow, verySlow, slow, medium := 0.001, 0.01, 0.05, 0.2;
    if distanceToSurface <= 0.0 then ultraSlow
    else if distanceToSurface <= ultraCloseZone then ultraSlow
    else if distanceToSurface <= veryCloseZone then
      ultraSlow + (verySlow - ultraSlow) * (distanceToSurface / veryCloseZone)
    else if distanceToSurface <= closeZone then
      verySlow + (slow - verySlow) * (distanceToSurface / closeZone)
    else if distanceToSurface <= mediumZone then
      slow + (medium - slow) * (distanceToSurface / mediumZone)
    else 1.0
  }

  /** Moving away from the surface never slows the camera down. */
  lemma SpeedMultiplierMonotone(d1: real, d2: real)
    requires d1 <= d2
    ensures SpeedMultiplierAt(d1) <= SpeedMultiplierAt(d2)
  {
  }

  /** With a lawful length, a corrected point sits exactly radius + margin from the centre. */
  lemma PreventPenetrationReachesShell(planet: Planet, point: Vec3, margin: real)
    requires Lawful(planet.math) && planet.radius + margin >= 0.0
    requires planet.DistanceToCenter(point) < planet.radius + margin
    ensures planet.DistanceToCenter(planet.PreventPenetration(point, margin)) == planet.radius + margin
  {
    var math := planet.math;
    var direction := Sub(point, planet.position);
    var direction' := if math.length(direction) < 0.0001 then Vec3(0.0, 0.0, 1.0) else direction;
    assert direction' != Zero;
    var w := Scale(math.normalize(direction'), planet.radius + margin);
    assert planet.PreventPenetration(point, margin) == Add(planet.position, w);
    SubAddCancels(planet.position, w);
  }

  /** With a lawful length and margin >= 0, the corrected point is never inside the planet. */
  lemma PreventPenetrationLeavesOutside(planet: Planet, point: Vec3, margin: real)
    requires Lawful(planet.math) && margin >= 0.0 && planet.radius + margin >= 0.0
    ensures !planet.IsPointInside(planet.PreventPenetration(point, margin))
    ensures planet.GetDistanceToSurface(planet.PreventPenetration(point, margin)) >= margin
  {
    if planet.DistanceToCenter(point) < planet.radius + margin {
      PreventPenetrationReachesShell(planet, point, margin);
    }
  }
}
