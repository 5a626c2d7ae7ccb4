/**
 * The debug window's data side: each update records the camera, the signed distance
 * from the camera to every planet's surface, and the nearest planet, found by a
 * running minimum that starts at the largest float; the painted status of the
 * nearest planet is a four-way classification of that distance.
 */
module DebugWindows {
  import opened Glm
  import opened Planets

  datatype Option<T> = None | Some(value: T)

  /** std::numeric_limits<float>::max(). */
  const FltMax: real := 340282346638528859811704183484516925440.0

  /**
   * k and m are what the running minimum over ds leaves: k is the first index whose
   * distance is the least one, if that is below the largest float, with m that distance;
   * otherwise k is -1 and m the largest float.
   */
  predicate NearestIs(ds: seq<real>, k: int, m: real) {
    if k == -1 then
      m == FltMax && forall i :: 0 <= i < |ds| ==> ds[i] >= FltMax
    else
      && 0 <= k < |ds| && m == ds[k] && m < FltMax
      && (forall i :: 0 <= i < k ==> ds[i] > m)
      && (forall i :: k <= i < |ds| ==> ds[i] >= m)
  }

  /** The nearest planet is determined by the distances: two answers are the same answer. */
  lemma NearestIsUnique(ds: seq<real>, k1: int, m1: real, k2: int, m2: real)
    requires NearestIs(ds, k1, m1) && NearestIs(ds, k2, m2)
    ensures k1 == k2 && m1 == m2
  {
  }

  /** With no planets there is no nearest one. */
  lemma NoPlanetsNoNearest(k: int, m: real)
    requires NearestIs([], k, m)
    ensures k == -1 && m == FltMax
  {
  }

  /** One more distance d updates the running minimum only when d is strictly smaller. */
  lemma NearestStep(ds: seq<real>, k: int, m: real, d: real)
    requires NearestIs(ds, k, m) && k >= -1
    ensures d < m ==> NearestIs(ds + [d], |ds|, d)
    ensures !(d < m) ==> NearestIs(ds + [d], k, m)
  {
    var es := ds + [d];
    assert forall i :: 0 <= i < |ds| ==> es[i] == ds[i];
  }

  /** The status line of the nearest planet. */
  datatype Status = Inside | VeryClose | Close | Far

  function DistanceStatus(d: real): (s: Status)
    ensures s == Inside <==> d < 0.0
    ensures s == VeryClose <==> 0.0 <= d < 1.0
    ensures s == Close <==> 1.0 <= d < 10.0
    ensures s == Far <==> 10.0 <= d
  {
    if d < 0.0 then Inside
    else if d < 1.0 then VeryClose
    else if d < 10.0 then Close
    else Far
  }

  function Severity(s: Status): nat {
    match s
    case Inside => 3
    case VeryClose => 2
    case Close => 1
    case Far => 0
  }

  /** Nearer is never less severe. */
  lemma DistanceStatusMonotone(d1: real, d2: real)
    requires d1 <= d2
    ensures Severity(DistanceStatus(d1)) >= Severity(DistanceStatus(d2))
  {
  }

  /** What the nearest-planet block shows: name, index, distance and status. */
  datatype NearestBlock = NearestBlock(name: string, index: int, distance: real, status: Status)

  /** The block is shown only for an index that names a planet. */
  function NearestPlanetBlock(names: seq<string>, index: int, distance: real): (b: Option<NearestBlock>)
    ensures b.Some? <==> 0 <= index < |names|
    ensures b.Some? ==> b.value.name == names[index] && b.value.index == index
    ensures b.Some? ==> b.value.distance == distance && b.value.status == DistanceStatus(distance)
  {
    if 0 <= index < |names| then Some(NearestBlock(names[index], index, distance, DistanceStatus(distance)))
    else None
  }

  /** The names of the planets, in the order the scene creates them. */
  const PlanetNames: seq<string> :=
    ["Soleil", "Mercure", "Venus", "Terre", "Mars", "Jupiter", "Saturne", "Uranus", "Neptune"]

  class DebugWindow {
    var isOpen: bool
    var cameraPosition: Vec3
    var nearestDistance: real
    var nearestPlanetIndex: int
    var speedMultiplier: real
    var planetDistances: seq<real>
    var planetNames: seq<string>

    constructor ()
      ensures !isOpen && nearestDistance == 0.0 && nearestPlanetIndex == -1 && speedMultiplier == 1.0
      ensures planetDistances == [] && planetNames == PlanetNames
    {
      isOpen := false;
      cameraPosition := Zero;
      nearestDistance := 0.0;
      nearestPlanetIndex := -1;
      speedMultiplier := 1.0;
      planetDistances := [];
      planetNames := PlanetNames;
    }

    /** The window thread marks the window open once it is shown, and closed when its loop ends. */
    method SetOpen(open: bool)
      modifies this`isOpen
      ensures isOpen == open
    {
      isOpen := open;
    }

    /** Closing the window leaves it marked closed. */
    method Cleanup()
      modifies this`isOpen
      ensures !isOpen
    {
      isOpen := false;
    }

    /**
     * Record the camera's position and speed factor and, planet by planet, its signed
     * distance to the surface, keeping the nearest planet. A closed window changes nothing.
     */
    method Update(cameraPosition: Vec3, speedMultiplier: real, planets: seq<Planet>)
      modifies this`cameraPosition, this`speedMultiplier, this`nearestDistance, this`nearestPlanetIndex,
               this`planetDistances
      ensures !isOpen ==>
                && this.cameraPosition == old(this.cameraPosition) && this.speedMultiplier == old(this.speedMultiplier)
                && nearestDistance == old(nearestDistance) && nearestPlanetIndex == old(nearestPlanetIndex)
                && planetDistances == old(planetDistances)
      ensures isOpen ==>
                && this.cameraPosition == cameraPosition && this.speedMultiplier == speedMultiplier
                && |planetDistances| == |planets|
                && (forall i :: 0 <= i < |planets| ==>
                      planetDistances[i] == planets[i].GetDistanceToSurface(cameraPosition))
                && NearestIs(planetDistances, nearestPlanetIndex, nearestDistance)
    {
      if !isOpen {
        return;
      }
      this.cameraPosition := cameraPosition;
      this.speedMultiplier := speedMultiplier;
      nearestDistance := FltMax;
      nearestPlanetIndex := -1;
      planetDistances := [];
      var i := 0;
      while i < |planets|
        invariant 0 <= i <= |planets| && |planetDistances| == i
        invariant this.cameraPosition == cameraPosition && this.speedMultiplier == speedMultiplier
        invariant forall j :: 0 <= j < i ==> planetDistances[j] == planets[j].GetDistanceToSurface(cameraPosition)
        invariant NearestIs(planetDistances, nearestPlanetIndex, nearestDistance) && nearestPlanetIndex >= -1
      {
        var distanceToSurface := planets[i].GetDistanceToSurface(this.cameraPosition);
        NearestStep(planetDistances, nearestPlanetIndex, nearestDistance, distanceToSurface);
        planetDistances := planetDistances + [distanceToSurface];
        if distanceToSurface < nearestDistance {
          nearestDistance := distanceToSurface;
          nearestPlanetIndex := i;
        }
        i := i + 1;
      }
    }
  }
}
