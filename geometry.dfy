/**
 * The part of shapely the core relies on: points, four-corner polygons given by their
 * corner coordinates, their bounds, and containment of a point in the polygon's interior.
 */
module Geometry {

  datatype Point = Point(x: real, y: real)

  /** A polygon given by four corners, in the order its coordinates were listed. */
  datatype Quad = Quad(p0: Point, p1: Point, p2: Point, p3: Point)

  /** `(xmin, ymin, xmax, ymax)`, as shapely's `bounds` gives it. */
  datatype Bounds = Bounds(xmin: real, ymin: real, xmax: real, ymax: real)

  function Min(a: real, b: real): real { if a <= b then a else b }
  function Max(a: real, b: real): real { if a <= b then b else a }

  function Min4(a: real, b: real, c: real, d: real): (m: real)
    ensures m <= a && m <= b && m <= c && m <= d
    ensures m == a || m == b || m == c || m == d
  {
    Min(Min(a, b), Min(c, d))
  }

  function Max4(a: real, b: real, c: real, d: real): (m: real)
    ensures a <= m && b <= m && c <= m && d <= m
    ensures m == a || m == b || m == c || m == d
  {
    Max(Max(a, b), Max(c, d))
  }

  /** The bounding box of the corners: `Polygon(coords).bounds`. */
  function BoundsOf(q: Quad): (b: Bounds)
    ensures b.xmin <= b.xmax && b.ymin <= b.ymax
  {
    Bounds(Min4(q.p0.x, q.p1.x, q.p2.x, q.p3.x), Min4(q.p0.y, q.p1.y, q.p2.y, q.p3.y),
           Max4(q.p0.x, q.p1.x, q.p2.x, q.p3.x), Max4(q.p0.y, q.p1.y, q.p2.y, q.p3.y))
  }

  /** The bounds are the extremes of the corners: each corner lies within them and each bound is some corner's. */
  lemma BoundsAreExtremes(q: Quad)
    ensures var b := BoundsOf(q);
            && b.xmin <= q.p0.x <= b.xmax && b.xmin <= q.p1.x <= b.xmax && b.xmin <= q.p2.x <= b.xmax && b.xmin <= q.p3.x <= b.xmax
            && b.ymin <= q.p0.y <= b.ymax && b.ymin <= q.p1.y <= b.ymax && b.ymin <= q.p2.y <= b.ymax && b.ymin <= q.p3.y <= b.ymax
            && (b.xmin == q.p0.x || b.xmin == q.p1.x || b.xmin == q.p2.x || b.xmin == q.p3.x)
            && (b.xmax == q.p0.x || b.xmax == q.p1.x || b.xmax == q.p2.x || b.xmax == q.p3.x)
            && (b.ymin == q.p0.y || b.ymin == q.p1.y || b.ymin == q.p2.y || b.ymin == q.p3.y)
            && (b.ymax == q.p0.y || b.ymax == q.p1.y || b.ymax == q.p2.y || b.ymax == q.p3.y)
  {
  }

  /**
   * True when the four corners are those of an axis-aligned rectangle listed around its
   * boundary, the only shape the grid and `from_bounds` ever build.
   */
  predicate AxisAligned(q: Quad) {
    && q.p0.x == q.p1.x && q.p2.x == q.p3.x
    && q.p1.y == q.p2.y && q.p3.y == q.p0.y
  }

  /**
   * `Polygon(coords).contains(point)` for an axis-aligned rectangle: the point lies in the
   * open interior, so a point on an edge or a corner is not contained.
   */
  predicate Contains(q: Quad, p: Point) {
    var b := BoundsOf(q);
    b.xmin < p.x < b.xmax && b.ymin < p.y < b.ymax
  }

  /** The corners `(xmin,ymin), (xmin,ymax), (xmax,ymax), (xmax,ymin)`, in that order. */
  function FromBounds(xmin: real, ymin: real, xmax: real, ymax: real): (q: Quad)
    ensures AxisAligned(q) && q.p0 == Point(xmin, ymin) && q.p2 == Point(xmax, ymax)
    ensures xmin <= xmax && ymin <= ymax ==> BoundsOf(q) == Bounds(xmin, ymin, xmax, ymax)
  {
    Quad(Point(xmin, ymin), Point(xmin, ymax), Point(xmax, ymax), Point(xmax, ymin))
  }

  /** A rectangle built from ordered bounds contains exactly the points strictly inside them. */
  lemma ContainsFromBounds(xmin: real, ymin: real, xmax: real, ymax: real, p: Point)
    requires xmin <= xmax && ymin <= ymax
    ensures Contains(FromBounds(xmin, ymin, xmax, ymax), p) <==> xmin < p.x < xmax && ymin < p.y < ymax
  {
  }

  /** Building a rectangle from its bounds and taking the bounds back gives what was given. */
  lemma BoundsRoundTrip(b: Bounds)
    requires b.xmin <= b.xmax && b.ymin <= b.ymax
    ensures BoundsOf(FromBounds(b.xmin, b.ymin, b.xmax, b.ymax)) == b
  {
  }

  /** A rectangle with no width or no height contains no point. */
  lemma DegenerateContainsNothing(q: Quad, p: Point)
    requires BoundsOf(q).xmin == BoundsOf(q).xmax || BoundsOf(q).ymin == BoundsOf(q).ymax
    ensures !Contains(q, p)
  {
  }
}
