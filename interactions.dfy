/** The two pieces of map state the drawing session touches: draw
    interactions and the map's set of active interactions. */
module Interactions {
  import opened Geometry

  /** A draw interaction, created for one geometry type. */
  class Draw {
    const kind: GeometryType

    constructor (kind: GeometryType)
      ensures this.kind == kind
    {
      this.kind := kind;
    }
  }

  /** The map, seen only through the draw interactions active on it. */
  class MapWidget {
    var interactions: set<Draw>

    constructor ()
      ensures interactions == {}
    {
      interactions := {};
    }

    /** `map.addInteraction(draw)`. */
    method AddInteraction(draw: Draw)
      modifies this`interactions
      ensures interactions == old(interactions) + {draw}
    {
      interactions := interactions + {draw};
    }

    /** `map.removeInteraction(draw)`: removing an interaction that is not on
        the map changes nothing. */
    method RemoveInteraction(draw: Draw)
      modifies this`interactions
      ensures interactions == old(interactions) - {draw}
    {
      interactions := interactions - {draw};
    }
  }
}
