/** The drawing session of the map component: the same component state as
    the App component, with the finishing work split over two `drawend`
    listeners and the waypoints shown through a separate modal. The flat
    distance function is held as a parameter of the component. */
module MapComponent {
  import opened Geometry
  import opened Waypoints
  import opened Interactions
  import opened FlatDistance

  class MapView {
    const mapWidget: MapWidget
    /** `calculateDistance`, the flat 111000-metres-per-degree formula. */
    const distance: (Coord, Coord) -> real
    var drawInteraction: Draw?
    var waypoints: seq<Waypoint<Coord>>
    var modalOpen: bool

    /** The distance is the flat approximation, and at most one draw
        interaction is on the map, the recorded one. */
    ghost predicate Valid()
      reads this, mapWidget
    {
      && (forall a, b :: IsFlatDistance(a, b, distance(a, b)))
      && (forall d :: d in mapWidget.interactions ==> d == drawInteraction)
    }

    /** Waypoints built with the flat distance: none negative, and each leg
        the same measured backwards. */
    static lemma FlatLegs(g: Geometry, distance: (Coord, Coord) -> real)
      requires forall a, b :: IsFlatDistance(a, b, distance(a, b))
      ensures forall i :: 0 <= i < |RouteWaypoints(g, distance)| ==> RouteWaypoints(g, distance)[i].distance >= 0.0
      ensures forall i :: 0 < i < |RouteWaypoints(g, distance)| ==>
                RouteWaypoints(g, distance)[i].distance
                == distance(RouteWaypoints(g, distance)[i].coordinates, RouteWaypoints(g, distance)[i - 1].coordinates)
    {
      var route, ws := Route(g), RouteWaypoints(g, distance);
      FlatWaypointsNonNegative(route, distance);
      forall i | 0 < i < |ws|
        ensures ws[i].distance == distance(ws[i].coordinates, ws[i - 1].coordinates)
      {
        BuildAt(route, distance, i);
        BuildAt(route, distance, i - 1);
      }
    }

    /** The component's initial state, with a freshly created map. */
    constructor (distance: (Coord, Coord) -> real)
      requires forall a, b :: IsFlatDistance(a, b, distance(a, b))
      ensures Valid() && fresh(mapWidget)
      ensures this.distance == distance
      ensures mapWidget.interactions == {} && drawInteraction == null
      ensures waypoints == [] && !modalOpen
    {
      mapWidget := new MapWidget();
      this.distance := distance;
      drawInteraction := null;
      waypoints := [];
      modalOpen := false;
    }

    /** `addDrawInteraction(type)`: takes the previously recorded draw
        interaction off the map, installs a new one of the given type and
        records it. */
    method AddDrawInteraction(kind: GeometryType) returns (draw: Draw)
      requires Valid()
      modifies this`drawInteraction, mapWidget`interactions
      ensures Valid()
      ensures fresh(draw) && draw.kind == kind
      ensures drawInteraction == draw && mapWidget.interactions == {draw}
    {
      if drawInteraction != null {
        mapWidget.RemoveInteraction(drawInteraction);
      }
      assert mapWidget.interactions == {};
      draw := new Draw(kind);
      mapWidget.AddInteraction(draw);
      drawInteraction := draw;
    }

    /** The `drawstart` listener: the waypoints are cleared, nothing else
        changes. */
    method DrawStart()
      requires Valid()
      modifies this`waypoints
      ensures Valid()
      ensures waypoints == []
    {
      waypoints := [];
    }

    /** The first `drawend` listener: the waypoints become the list built
        from the finished geometry (for a polygon, the corrected per-vertex
        list) and the modal opens; the map is not touched. */
    method DrawEndShowWaypoints(g: Geometry)
      requires Valid()
      modifies this`waypoints, this`modalOpen
      ensures Valid()
      ensures waypoints == RouteWaypoints(g, distance)
      ensures modalOpen
      ensures forall i :: 0 <= i < |waypoints| ==> waypoints[i].distance >= 0.0
    {
      FlatLegs(g, distance);
      waypoints := RouteWaypoints(g, distance);
      modalOpen := true;
    }

    /** The second `drawend` listener: interaction `draw` leaves the map. */
    method DrawEndStopDrawing(draw: Draw)
      requires Valid()
      modifies mapWidget`interactions
      ensures Valid()
      ensures mapWidget.interactions == old(mapWidget.interactions) - {draw}
    {
      mapWidget.RemoveInteraction(draw);
    }

    /** A `drawend` event of interaction `draw`, whose finished geometry has
        the draw's type: both listeners, in the order they were registered. */
    method DrawEnd(draw: Draw, g: Geometry)
      requires Valid()
      requires TypeOf(g) == draw.kind
      modifies this`waypoints, this`modalOpen, mapWidget`interactions
      ensures Valid()
      ensures waypoints == RouteWaypoints(g, distance)
      ensures modalOpen
      ensures forall i :: 0 <= i < |waypoints| ==> waypoints[i].distance >= 0.0
      ensures mapWidget.interactions == old(mapWidget.interactions) - {draw}
    {
      DrawEndShowWaypoints(g);
      DrawEndStopDrawing(draw);
    }

    /** The modal's `onClose`: the modal closes, the waypoints stay. */
    method CloseModal()
      requires Valid()
      modifies this`modalOpen
      ensures Valid()
      ensures !modalOpen
    {
      modalOpen := false;
    }
  }
}
