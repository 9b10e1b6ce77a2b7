/** The drawing session of the App component: the component state
    (`drawInteraction`, `waypoints`, `modalOpen`), the map it draws on, and
    the handlers that update them. The great-circle distance function is
    held as a parameter of the component. */
module AppComponent {
  import opened Geometry
  import opened Waypoints
  import opened Interactions

  class App {
    const mapWidget: MapWidget
    /** `calculateDistance`, the haversine formula. */
    const distance: (Coord, Coord) -> real
    var drawInteraction: Draw?
    var waypoints: seq<Waypoint<Coord>>
    var modalOpen: bool

    /** At most one draw interaction is on the map, and it is the recorded one. */
    ghost predicate Valid()
      reads this, mapWidget
    {
      forall d :: d in mapWidget.interactions ==> d == drawInteraction
    }

    /** The component's initial state, with a freshly created map. */
    constructor (distance: (Coord, Coord) -> real)
      ensures Valid() && fresh(mapWidget)
      ensures this.distance == distance
      ensures mapWidget.interactions == {} && drawInteraction == null
      ensures waypoints == [] && !modalOpen
    {
      mapWidget := new MapWidget();
      this.distance := distance;
      drawInteraction := null;
      waypoints := [];
      modalOpen := false;
    }

    /** `addDrawInteraction(type)`: takes the previously recorded draw
        interaction off the map, installs a new one of the given type and
        records it. The waypoints and the modal are left alone. */
    method AddDrawInteraction(kind: GeometryType) returns (draw: Draw)
      requires Valid()
      modifies this`drawInteraction, mapWidget`interactions
      ensures Valid()
      ensures fresh(draw) && draw.kind == kind
      ensures drawInteraction == draw && mapWidget.interactions == {draw}
    {
      if drawInteraction != null {
        mapWidget.RemoveInteraction(drawInteraction);
      }
      assert mapWidget.interactions == {};
      draw := new Draw(kind);
      mapWidget.AddInteraction(draw);
      drawInteraction := draw;
    }

    /** The `drawstart` listener: the waypoints are cleared. */
    method DrawStart()
      requires Valid()
      modifies this`waypoints
      ensures Valid()
      ensures waypoints == []
    {
      waypoints := [];
    }

    /** The `drawend` listener of interaction `draw`, whose finished geometry
        has the draw's type: the waypoints become the list built from that
        geometry (for a polygon, the corrected per-vertex list), the modal
        opens and `draw` leaves the map. */
    method DrawEnd(draw: Draw, g: Geometry)
      requires Valid()
      requires TypeOf(g) == draw.kind
      modifies this`waypoints, this`modalOpen, mapWidget`interactions
      ensures Valid()
      ensures waypoints == RouteWaypoints(g, distance)
      ensures modalOpen
      ensures mapWidget.interactions == old(mapWidget.interactions) - {draw}
    {
      waypoints := RouteWaypoints(g, distance);
      modalOpen := true;
      mapWidget.RemoveInteraction(draw);
    }

    /** The modal's `onClose`: the modal closes, the waypoints stay. */
    method CloseModal()
      requires Valid()
      modifies this`modalOpen
      ensures Valid()
      ensures !modalOpen
    {
      modalOpen := false;
    }

    /** "Generate Data": the modal closes and the current waypoints are
        handed to the console (returned here). */
    method GenerateData() returns (data: seq<Waypoint<Coord>>)
      requires Valid()
      modifies this`modalOpen
      ensures Valid()
      ensures !modalOpen
      ensures data == waypoints
    {
      modalOpen := false;
      data := waypoints;
    }
  }

  /** Drawing a second route discards the first: draw a three-point line,
      close the modal, draw a one-point line; only the last point remains. */
  method RedrawDiscardsPreviousRoute(distance: (Coord, Coord) -> real, p0: Coord, p1: Coord, p2: Coord, q: Coord)
  {
    var app := new App(distance);
    var first := app.AddDrawInteraction(LineString);
    app.DrawStart();
    app.DrawEnd(first, LineGeometry([p0, p1, p2]));
    assert |app.waypoints| == 3 && app.modalOpen;
    assert first !in app.mapWidget.interactions;
    app.CloseModal();
    assert |app.waypoints| == 3;
    var second := app.AddDrawInteraction(LineString);
    assert app.mapWidget.interactions == {second} && first != second;
    app.DrawStart();
    assert app.waypoints == [];
    app.DrawEnd(second, LineGeometry([q]));
    BuildShort([q], distance);
    assert app.waypoints == [Waypoint(q, 0.0)];
  }
}
