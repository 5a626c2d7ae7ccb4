/**
 * The level-of-detail policy of the planet: the 15-band table from camera
 * distance to subdivision level, the gate that decides whether a LOD pass
 * runs at all, and the per-triangle step of a pass.
 */
module LodLevels {
  import opened Glm
  import opened PlanetHeader

  /** The highest level the table hands out. */
  const MaxLevel: int := 14

  /** Minimum camera displacement that counts as movement (0.05 units). */
  const MinCameraMovement: real := 0.05

  /** Minimum time between passes for a rotating planet (1/30 s). */
  const MinUpdateInterval: real := 1.0 / 30.0

  /** A cached distance is refreshed only when the new one differs by more than this. */
  const DistanceTolerance: real := 0.1

  /**
   * The subdivision level for a triangle at `distance` from the camera on a planet of
   * `radius`, as the chain of band tests of the LOD pass.
   */
  function RequiredLevel(distance: real, radius: real): (level: int)
    ensures 0 <= level <= MaxLevel
  {
    if distance < radius * 0.05 then 14
    else if distance < radius * 0.08 then 13
    else if distance < radius * 0.12 then 12
    else if distance < radius * 0.18 then 11
    else if distance < radius * 0.25 then 10
    else if distance < radius * 0.35 then 9
    else if distance < radius * 0.5 then 8
    else if distance < radius * 1.0 then 7
    else if distance < radius * 2.0 then 6
    else if distance < radius * 4.0 then 5
    else if distance < radius * 8.0 then 4
    else if distance < radius * 16.0 then 3
    else if distance < radius * 32.0 then 2
    else if distance < radius * 64.0 then 1
    else 0
  }

  /** Upper bounds of the bands, as multiples of the radius, from the nearest band out. */
  const BandBounds: seq<real> :=
    [0.05, 0.08, 0.12, 0.18, 0.25, 0.35, 0.5, 1.0, 2.0, 4.0, 8.0, 16.0, 32.0, 64.0]

  /** Bands are listed in increasing order. */
  ghost predicate Increasing(s: seq<real>) {
    forall i, j :: 0 <= i < j < |s| ==> s[i] < s[j]
  }

  /**
   * Reference definition of the table: the first band k (from k on) whose bound,
   * scaled by the radius, exceeds the distance gives level 14 - k; no band gives 0.
   */
  function TableLevel(distance: real, radius: real, k: nat): (level: int)
    requires k <= |BandBounds|
    decreases |BandBounds| - k
  {
    if k == |BandBounds| then 0
    else if distance < radius * BandBounds[k] then MaxLevel - k
    else TableLevel(distance, radius, k + 1)
  }

  lemma BandBoundsIncreasing()
    ensures Increasing(BandBounds)
  {
  }

  /** The chain of tests and the table agree everywhere. */
  lemma RequiredLevelIsTable(distance: real, radius: real)
    ensures RequiredLevel(distance, radius) == TableLevel(distance, radius, 0)
  {
    var d, r := distance, radius;
    assert TableLevel(d, r, 13) == if d < r * 64.0 then 1 else 0;
    assert TableLevel(d, r, 12) == if d < r * 32.0 then 2 else TableLevel(d, r, 13);
    assert TableLevel(d, r, 11) == if d < r * 16.0 then 3 else TableLevel(d, r, 12);
    assert TableLevel(d, r, 10) == if d < r * 8.0 then 4 else TableLevel(d, r, 11);
    assert TableLevel(d, r, 9) == if d < r * 4.0 then 5 else TableLevel(d, r, 10);
    assert TableLevel(d, r, 8) == if d < r * 2.0 then 6 else TableLevel(d, r, 9);
    assert TableLevel(d, r, 7) == if d < r * 1.0 then 7 else TableLevel(d, r, 8);
    assert TableLevel(d, r, 6) == if d < r * 0.5 then 8 else TableLevel(d, r, 7);
    assert TableLevel(d, r, 5) == if d < r * 0.35 then 9 else TableLevel(d, r, 6);
    assert TableLevel(d, r, 4) == if d < r * 0.25 then 10 else TableLevel(d, r, 5);
    assert TableLevel(d, r, 3) == if d < r * 0.18 then 11 else TableLevel(d, r, 4);
    assert TableLevel(d, r, 2) == if d < r * 0.12 then 12 else TableLevel(d, r, 3);
    assert TableLevel(d, r, 1) == if d < r * 0.08 then 13 else TableLevel(d, r, 2);
  }

  /** From band k on, the table's level is at most 14 - k and at least 0. */
  lemma {:induction false} TableLevelBounded(distance: real, radius: real, k: nat)
    requires k <= |BandBounds|
    ensures 0 <= TableLevel(distance, radius, k) <= MaxLevel - k
    decreases |BandBounds| - k
  {
    if k < |BandBounds| && !(distance < radius * BandBounds[k]) {
      TableLevelBounded(distance, radius, k + 1);
    }
  }

  /** For a non-negative radius, a nearer distance never gets a lower level from band k on. */
  lemma {:induction false} TableLevelMonotone(d1: real, d2: real, radius: real, k: nat)
    requires 0.0 <= radius && d1 <= d2
    requires k <= |BandBounds|
    ensures TableLevel(d1, radius, k) >= TableLevel(d2, radius, k)
    decreases |BandBounds| - k
  {
    if k < |BandBounds| {
      if d1 < radius * BandBounds[k] {
        TableLevelBounded(d2, radius, k);
      } else {
        assert !(d2 < radius * BandBounds[k]);
        TableLevelMonotone(d1, d2, radius, k + 1);
      }
    }
  }

  /** Closer means the same or more detail: the level never increases as the distance grows. */
  lemma RequiredLevelMonotone(d1: real, d2: real, radius: real)
    requires 0.0 <= radius && d1 <= d2
    ensures RequiredLevel(d1, radius) >= RequiredLevel(d2, radius)
  {
    RequiredLevelIsTable(d1, radius);
    RequiredLevelIsTable(d2, radius);
    TableLevelMonotone(d1, d2, radius, 0);
  }

  /** The ends of the table: nearer than 0.05 radius is level 14, 64 radii or farther is level 0. */
  lemma RequiredLevelExtremes(distance: real, radius: real)
    requires 0.0 < radius
    ensures distance < radius * 0.05 ==> RequiredLevel(distance, radius) == MaxLevel
    ensures distance >= radius * 64.0 ==> RequiredLevel(distance, radius) == 0
  {
  }

  /** An Earth-sized planet: a camera at 0.04 radii gets level 14, one at 100 radii gets level 0. */
  lemma EarthScenario()
    ensures RequiredLevel(6371.0 * 0.04, 6371.0) == 14
    ensures RequiredLevel(6371.0 * 100.0, 6371.0) == 0
  {
  }

  /**
   * Whether a LOD pass runs. The pass returns early exactly when the mesh is not flagged,
   * the camera moved at most MinCameraMovement, and the planet is not rotating or less
   * than MinUpdateInterval has elapsed.
   */
  function LodPassDue(meshFlagged: bool, cameraMovement: real, rotating: bool, elapsed: real): (due: bool)
    ensures due <==> meshFlagged || cameraMovement > MinCameraMovement || (rotating && elapsed >= MinUpdateInterval)
  {
    var moved := cameraMovement > MinCameraMovement;
    var timeForUpdate := elapsed >= MinUpdateInterval;
    !(!meshFlagged && !moved && (!rotating || !timeForUpdate))
  }

  /**
   * One triangle of a pass. The cached distance and the level are refreshed only when the
   * new distance differs from the cached one by more than the tolerance or the mesh is
   * flagged; the level and the needsUpdate flag change only when the required level differs.
   */
  function TriangleStep(t: Triangle, newDistance: real, radius: real, force: bool): (u: Triangle)
    ensures u.v1 == t.v1 && u.v2 == t.v2 && u.v3 == t.v3 && u.center == t.center && u.isVisible == t.isVisible
    ensures Abs(newDistance - t.distanceToCamera) > DistanceTolerance || force ==>
              u.distanceToCamera == newDistance && u.subdivisionLevel == RequiredLevel(newDistance, radius)
    ensures !(Abs(newDistance - t.distanceToCamera) > DistanceTolerance || force) ==> u == t
    ensures u.subdivisionLevel != t.subdivisionLevel ==> u.needsUpdate
    ensures u.needsUpdate != t.needsUpdate ==> u.subdivisionLevel != t.subdivisionLevel
  {
    if Abs(newDistance - t.distanceToCamera) > DistanceTolerance || force then
      var level := RequiredLevel(newDistance, radius);
      if t.subdivisionLevel != level then
        t.(distanceToCamera := newDistance, subdivisionLevel := level, needsUpdate := true)
      else
        t.(distanceToCamera := newDistance)
    else
      t
  }

  /** A whole pass over the triangles, given each triangle's new camera distance. */
  function StepAll(ts: seq<Triangle>, distances: seq<real>, radius: real, force: bool): (us: seq<Triangle>)
    requires |distances| == |ts|
    ensures |us| == |ts|
    ensures forall i :: 0 <= i < |ts| ==> us[i] == TriangleStep(ts[i], distances[i], radius, force)
  {
    seq(|ts|, i requires 0 <= i < |ts| => TriangleStep(ts[i], distances[i], radius, force))
  }

  /** Some triangle's level differs between the two lists (checked from the last one back). */
  predicate LevelChanged(ts: seq<Triangle>, us: seq<Triangle>)
    requires |ts| == |us|
    decreases |ts|
  {
    && |ts| > 0
    && (ts[|ts| - 1].subdivisionLevel != us[|us| - 1].subdivisionLevel
        || LevelChanged(ts[..|ts| - 1], us[..|us| - 1]))
  }

  /** LevelChanged holds exactly when some position carries two different levels. */
  lemma {:induction false} LevelChangedIff(ts: seq<Triangle>, us: seq<Triangle>)
    requires |ts| == |us|
    ensures LevelChanged(ts, us) <==> exists i :: 0 <= i < |ts| && ts[i].subdivisionLevel != us[i].subdivisionLevel
    decreases |ts|
  {
    if |ts| > 0 {
      var n := |ts| - 1;
      LevelChangedIff(ts[..n], us[..n]);
      if LevelChanged(ts[..n], us[..n]) {
        var i :| 0 <= i < n && ts[..n][i].subdivisionLevel != us[..n][i].subdivisionLevel;
        assert ts[i].subdivisionLevel != us[i].subdivisionLevel;
      }
      if exists i :: 0 <= i < |ts| && ts[i].subdivisionLevel != us[i].subdivisionLevel {
        var i :| 0 <= i < |ts| && ts[i].subdivisionLevel != us[i].subdivisionLevel;
        if i < n {
          assert ts[..n][i].subdivisionLevel != us[..n][i].subdivisionLevel;
        }
      }
    }
  }

  /** Every triangle's level is the one the table gives for its cached distance. */
  ghost predicate LevelsConsistent(ts: seq<Triangle>, radius: real) {
    forall i :: 0 <= i < |ts| ==> ts[i].subdivisionLevel == RequiredLevel(ts[i].distanceToCamera, radius)
  }

  /** A forced pass makes every level consistent; an unforced one keeps consistency. */
  lemma StepAllConsistent(ts: seq<Triangle>, distances: seq<real>, radius: real, force: bool)
    requires |distances| == |ts|
    requires force || LevelsConsistent(ts, radius)
    ensures LevelsConsistent(StepAll(ts, distances, radius, force), radius)
  {
    var us := StepAll(ts, distances, radius, force);
    forall i | 0 <= i < |us|
      ensures us[i].subdivisionLevel == RequiredLevel(us[i].distanceToCamera, radius)
    {
      assert us[i] == TriangleStep(ts[i], distances[i], radius, force);
    }
  }

  /**
   * With consistent levels, a triangle whose cached distance is no larger than another's
   * has at least its level: nearer parts of the planet are never coarser.
   */
  lemma ConsistentLevelsOrdered(ts: seq<Triangle>, radius: real, i: nat, j: nat)
    requires 0.0 <= radius && LevelsConsistent(ts, radius)
    requires i < |ts| && j < |ts|
    requires ts[i].distanceToCamera <= ts[j].distanceToCamera
    ensures ts[i].subdivisionLevel >= ts[j].subdivisionLevel
  {
    RequiredLevelMonotone(ts[i].distanceToCamera, ts[j].distanceToCamera, radius);
  }
}
