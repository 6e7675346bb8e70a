/**
 * The geometry value types of include/types.hpp.
 *
 * Coordinates are doubles in the source, but they are only ever compared,
 * never used in arithmetic, so they are modelled as unbounded integers
 * (which also rules out NaN).
 */
module Types {

  /** A point; for set purposes its identity is its pair of coordinates. */
  datatype Point2D = Point2D(x: int, y: int)

  /** Point2D::operator< : ordered by y first, then by x. */
  predicate Less(a: Point2D, b: Point2D): (less: bool)
    ensures less ==> a != b && a.y <= b.y
    ensures a.y < b.y ==> less
  {
    a.y < b.y || (a.y == b.y && a.x < b.x)
  }

  /** An axis-aligned box; min and max are taken as given, never normalised. */
  datatype Region = Region(minX: int, minY: int, maxX: int, maxY: int)

  /** Region::contains : inclusive on all four bounds. */
  predicate Contains(r: Region, x: int, y: int): (inside: bool)
    ensures inside ==> r.minX <= r.maxX && r.minY <= r.maxY
  {
    x >= r.minX && x <= r.maxX && y >= r.minY && y <= r.maxY
  }

  lemma LessIrreflexive(a: Point2D)
    ensures !Less(a, a)
  {
  }

  lemma LessTransitive(a: Point2D, b: Point2D, c: Point2D)
    requires Less(a, b) && Less(b, c)
    ensures Less(a, c)
  {
  }

  /**
   * Two points are equivalent under Less (neither precedes the other) exactly
   * when they are equal, so an ordered set of points deduplicates by
   * coordinates and the order is total.
   */
  lemma LessEquivalenceIsEquality(a: Point2D, b: Point2D)
    ensures !Less(a, b) && !Less(b, a) <==> a == b
    ensures a == b || Less(a, b) || Less(b, a)
  {
  }

  /** The y coordinate dominates: a smaller y precedes whatever the x values. */
  lemma LessYDominates(a: Point2D, b: Point2D)
    requires a.y < b.y
    ensures Less(a, b) && !Less(b, a)
  {
  }

  /** Every bound is inclusive: the four corners of a proper box are inside it. */
  lemma CornersContained(r: Region)
    requires r.minX <= r.maxX && r.minY <= r.maxY
    ensures Contains(r, r.minX, r.minY) && Contains(r, r.minX, r.maxY)
    ensures Contains(r, r.maxX, r.minY) && Contains(r, r.maxX, r.maxY)
  {
  }

  /** An inverted box (min above max on some axis) contains no point at all. */
  lemma InvertedRegionIsEmpty(r: Region, x: int, y: int)
    requires r.minX > r.maxX || r.minY > r.maxY
    ensures !Contains(r, x, y)
  {
  }
}
