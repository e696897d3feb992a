/**
 * The older area record (`sumo_project/area.py`): a rectangle with a name and an emissions
 * total, containment of a coordinate pair, its bounds and its construction from bounds.
 */
module LegacyArea {
  import opened Geometry

  datatype Area = Area(rectangle: Quad, name: string, emissions: real)

  /** `Area(coords, name)`: the polygon of the corners, with nothing emitted yet. */
  function NewArea(coords: Quad, name: string): (a: Area)
    ensures a.rectangle == coords && a.name == name && a.emissions == 0.0
  {
    Area(coords, name, 0.0)
  }

  /** `Area(coords)`: the name defaults to the empty one. */
  function Unnamed(coords: Quad): (a: Area)
    ensures a == NewArea(coords, "") && a.name == "" && a.emissions == 0.0
  {
    NewArea(coords, "")
  }

  /** `item in area`: the coordinate pair, as a point, lies in the rectangle's interior. */
  predicate ContainsItem(a: Area, item: (real, real)) {
    Contains(a.rectangle, Point(item.0, item.1))
  }

  /** `area.bounds`: the `(xmin, ymin, xmax, ymax)` of the rectangle. */
  function AreaBounds(a: Area): (b: Bounds)
    ensures b.xmin <= b.xmax && b.ymin <= b.ymax
    ensures ContainsItem(a, (b.xmin, b.ymin)) == false
  {
    BoundsOf(a.rectangle)
  }

  /**
   * `Area.from_bounds(xmin, ymin, xmax, ymax)`: an unnamed area whose corners are
   * `(xmin,ymin), (xmin,ymax), (xmax,ymax), (xmax,ymin)`; for ordered bounds its bounds are
   * those given.
   */
  function AreaFromBounds(xmin: real, ymin: real, xmax: real, ymax: real): (a: Area)
    ensures a.name == "" && a.emissions == 0.0 && AxisAligned(a.rectangle)
    ensures a.rectangle.p0 == Point(xmin, ymin) && a.rectangle.p2 == Point(xmax, ymax)
    ensures xmin <= xmax && ymin <= ymax ==> AreaBounds(a) == Bounds(xmin, ymin, xmax, ymax)
  {
    Unnamed(FromBounds(xmin, ymin, xmax, ymax))
  }

  /**
   * An area built from ordered bounds contains exactly the pairs strictly inside them: a pair
   * on an edge or a corner is not in the area.
   */
  lemma FromBoundsContains(xmin: real, ymin: real, xmax: real, ymax: real, item: (real, real))
    requires xmin <= xmax && ymin <= ymax
    ensures ContainsItem(AreaFromBounds(xmin, ymin, xmax, ymax), item) <==> xmin < item.0 < xmax && ymin < item.1 < ymax
  {
    var a := AreaFromBounds(xmin, ymin, xmax, ymax);
    assert BoundsOf(a.rectangle) == Bounds(xmin, ymin, xmax, ymax);
  }

  /** The bounds of an area rebuilt from them are the same, and so is what it contains. */
  lemma FromOwnBounds(a: Area, item: (real, real))
    requires AxisAligned(a.rectangle)
    ensures var b := AreaBounds(a);
            AreaBounds(AreaFromBounds(b.xmin, b.ymin, b.xmax, b.ymax)) == b &&
            (ContainsItem(AreaFromBounds(b.xmin, b.ymin, b.xmax, b.ymax), item) <==> ContainsItem(a, item))
  {
    var b := AreaBounds(a);
    FromBoundsContains(b.xmin, b.ymin, b.xmax, b.ymax, item);
  }
}
