/** The waypoint list that a finished drawing turns into: one entry per
    coordinate, each carrying the length of the leg that ends at it.
    The builder is generic in the coordinate type and in the distance
    function, so everything proved here holds whichever distance formula a
    component plugs in (great-circle or flat). */
module Waypoints {

  /** A waypoint as the drawend handlers build it: `{coordinates, distance}`. */
  datatype Waypoint<T> = Waypoint(coordinates: T, distance: real)

  /** The coordinates of a waypoint list, in order. */
  function Coordinates<T>(ws: seq<Waypoint<T>>): (cs: seq<T>)
    ensures |cs| == |ws|
  {
    seq(|ws|, i requires 0 <= i < |ws| => ws[i].coordinates)
  }

  /** A waypoint list is chained under `dist` when the first entry has
      distance 0 and every later entry carries the distance from its
      predecessor's coordinates to its own. */
  ghost predicate Chained<T>(ws: seq<Waypoint<T>>, dist: (T, T) -> real)
  {
    && (|ws| > 0 ==> ws[0].distance == 0.0)
    && forall i :: 0 < i < |ws| ==> ws[i].distance == dist(ws[i - 1].coordinates, ws[i].coordinates)
  }

  /** `coords.map((coord, index) => ({coordinates: coord,
      distance: index > 0 ? dist(coords[index - 1], coord) : 0}))`:
      the list keeps the input's coordinates in order and is chained. */
  function Build<T>(coords: seq<T>, dist: (T, T) -> real): (ws: seq<Waypoint<T>>)
    ensures Coordinates(ws) == coords
    ensures Chained(ws, dist)
  {
    var ws := seq(|coords|, i requires 0 <= i < |coords| =>
                 Waypoint(coords[i], if i > 0 then dist(coords[i - 1], coords[i]) else 0.0));
    assert forall i :: 0 <= i < |ws| ==> Coordinates(ws)[i] == coords[i];
    ws
  }

  /** The two properties of Build's contract determine its result: any list
      with the input's coordinates that is chained IS the built list. */
  lemma BuildUnique<T>(coords: seq<T>, dist: (T, T) -> real, ws: seq<Waypoint<T>>)
    requires Coordinates(ws) == coords
    requires Chained(ws, dist)
    ensures ws == Build(coords, dist)
  {
  }

  /** Entry i of the built list, spelled out index by index. */
  lemma BuildAt<T>(coords: seq<T>, dist: (T, T) -> real, i: nat)
    requires i < |coords|
    ensures |Build(coords, dist)| == |coords|
    ensures Build(coords, dist)[i].coordinates == coords[i]
    ensures Build(coords, dist)[i].distance == if i == 0 then 0.0 else dist(coords[i - 1], coords[i])
  {
  }

  /** Appending a point to the input appends one waypoint whose distance is
      the new leg, and leaves the earlier waypoints as they were. */
  lemma BuildAppend<T>(coords: seq<T>, p: T, dist: (T, T) -> real)
    ensures Build(coords + [p], dist)
            == Build(coords, dist) + [Waypoint(p, if |coords| == 0 then 0.0 else dist(coords[|coords| - 1], p))]
  {
  }

  /** The list built from a prefix of the input is the same prefix of the
      list built from the whole input. */
  lemma BuildPrefix<T>(coords: seq<T>, dist: (T, T) -> real, k: nat)
    requires k <= |coords|
    ensures Build(coords[..k], dist) == Build(coords, dist)[..k]
  {
  }

  /** With a distance function that is never negative, no waypoint carries a
      negative distance. */
  lemma BuildNonNegative<T>(coords: seq<T>, dist: (T, T) -> real)
    requires forall a, b :: dist(a, b) >= 0.0
    ensures forall i :: 0 <= i < |Build(coords, dist)| ==> Build(coords, dist)[i].distance >= 0.0
  {
  }

  /** Zero or one coordinate: the list has matching length and all its
      distances are 0. */
  lemma BuildShort<T>(coords: seq<T>, dist: (T, T) -> real)
    requires |coords| <= 1
    ensures Build(coords, dist) == if coords == [] then [] else [Waypoint(coords[0], 0.0)]
  {
  }
}
