/**
 * The normalized point model and the geometry built on it (src/utils/math.tsx).
 * A point carries the size of the frame (canvas or image) its coordinates
 * were captured in; every comparison first maps points into a common frame.
 * Coordinates are real numbers: floating-point rounding is not modelled.
 */
module Geometry {
  import opened Wrappers

  /** A frame: the width and height of a drawing surface or image. */
  datatype Size = Size(width: real, height: real)

  /** Coordinates captured in the frame `scale`. */
  datatype Point = Point(x: real, y: real, scale: Size)

  predicate PositiveSize(s: Size) {
    s.width > 0.0 && s.height > 0.0
  }

  /** A point whose frame can be divided by. */
  predicate WellFramed(p: Point) {
    PositiveSize(p.scale)
  }

  predicate AllFramed(points: seq<Point>) {
    forall i :: 0 <= i < |points| ==> WellFramed(points[i])
  }

  /**
   * calculateRelativePoint: the point linearly mapped into `canvasSize`,
   * keeping its position relative to the frame (x / width, y / height).
   */
  function RelativePoint(point: Point, canvasSize: Size): (r: Point)
    requires WellFramed(point)
    ensures r.scale == canvasSize
  {
    Point(point.x * canvasSize.width / point.scale.width,
          point.y * canvasSize.height / point.scale.height,
          canvasSize)
  }

  /** Mapping a point into its own frame changes nothing. */
  lemma RelativePointOwnFrame(p: Point)
    requires WellFramed(p)
    ensures RelativePoint(p, p.scale) == p
  {
  }

  /** Mapping into `via` first and then into `target` is mapping into `target` directly. */
  lemma RelativePointCompose(p: Point, via: Size, target: Size)
    requires WellFramed(p) && PositiveSize(via)
    ensures RelativePoint(RelativePoint(p, via), target) == RelativePoint(p, target)
  {
    var q := RelativePoint(p, via);
    assert q.x * target.width / via.width == p.x * target.width / p.scale.width by {
      assert q.x * p.scale.width == p.x * via.width;
    }
    assert q.y * target.height / via.height == p.y * target.height / p.scale.height by {
      assert q.y * p.scale.height == p.y * via.height;
    }
  }

  /**
   * calculateDistanceBetweenPoints without its square root: the squared
   * Euclidean distance of the two points once both are mapped into `canvasSize`.
   */
  function SquaredDistance(point1: Point, point2: Point, canvasSize: Size): (d: real)
    requires WellFramed(point1) && WellFramed(point2)
    ensures d >= 0.0
  {
    var scaled1 := RelativePoint(point1, canvasSize);
    var scaled2 := RelativePoint(point2, canvasSize);
    var xDiff := scaled2.x - scaled1.x;
    var yDiff := scaled2.y - scaled1.y;
    xDiff * xDiff + yDiff * yDiff
  }

  /** The snap radius, in pixels of the current canvas. */
  const SnapRadius: real := 10.0

  /** `distance <= 10`, i.e. squared distance at most 100. */
  predicate Near(point1: Point, point2: Point, canvasSize: Size)
    requires WellFramed(point1) && WellFramed(point2)
  {
    SquaredDistance(point1, point2, canvasSize) <= SnapRadius * SnapRadius
  }

  lemma SquaredDistanceSymmetric(a: Point, b: Point, f: Size)
    requires WellFramed(a) && WellFramed(b)
    ensures SquaredDistance(a, b, f) == SquaredDistance(b, a, f)
  {
  }

  lemma SquaredDistanceSelf(a: Point, f: Size)
    requires WellFramed(a)
    ensures SquaredDistance(a, a, f) == 0.0
  {
  }

  /**
   * The distance depends only on where the points lie: mapping them into any
   * positive frame beforehand does not change it.
   */
  lemma SquaredDistanceOfRelative(a: Point, b: Point, via: Size, f: Size)
    requires WellFramed(a) && WellFramed(b) && PositiveSize(via)
    ensures SquaredDistance(RelativePoint(a, via), RelativePoint(b, via), f) == SquaredDistance(a, b, f)
  {
    RelativePointCompose(a, via, f);
    RelativePointCompose(b, via, f);
  }

  /**
   * Scaling both points' frames and the comparison frame by the same factor
   * leaves the distance unchanged.
   */
  lemma SquaredDistanceScaleInvariant(a: Point, b: Point, f: Size, k: real)
    requires WellFramed(a) && WellFramed(b) && k > 0.0
    ensures var ka := Point(a.x, a.y, Size(k * a.scale.width, k * a.scale.height));
            var kb := Point(b.x, b.y, Size(k * b.scale.width, k * b.scale.height));
            SquaredDistance(ka, kb, Size(k * f.width, k * f.height)) == SquaredDistance(a, b, f)
  {
    var kf := Size(k * f.width, k * f.height);
    RelativePointScaled(a, f, k);
    RelativePointScaled(b, f, k);
    SquaredDistanceOfSamePixels(a, b, f, Point(a.x, a.y, Size(k * a.scale.width, k * a.scale.height)),
                                Point(b.x, b.y, Size(k * b.scale.width, k * b.scale.height)), kf);
  }

  /** Scaling a point's frame and the target frame by one factor lands the point on the same pixel. */
  lemma RelativePointScaled(a: Point, f: Size, k: real)
    requires WellFramed(a) && k > 0.0
    ensures var ka := RelativePoint(Point(a.x, a.y, Size(k * a.scale.width, k * a.scale.height)), Size(k * f.width, k * f.height));
            ka.x == RelativePoint(a, f).x && ka.y == RelativePoint(a, f).y
  {
    CancelFactor(a.x, f.width, a.scale.width, k);
    CancelFactor(a.y, f.height, a.scale.height, k);
  }

  /** Points that land on the same pixels are the same distance apart. */
  lemma SquaredDistanceOfSamePixels(a: Point, b: Point, f: Size, a2: Point, b2: Point, f2: Size)
    requires WellFramed(a) && WellFramed(b) && WellFramed(a2) && WellFramed(b2)
    requires RelativePoint(a, f).x == RelativePoint(a2, f2).x && RelativePoint(a, f).y == RelativePoint(a2, f2).y
    requires RelativePoint(b, f).x == RelativePoint(b2, f2).x && RelativePoint(b, f).y == RelativePoint(b2, f2).y
    ensures SquaredDistance(a, b, f) == SquaredDistance(a2, b2, f2)
  {
  }

  lemma CancelFactor(a: real, b: real, c: real, k: real)
    requires c > 0.0 && k > 0.0
    ensures a * (k * b) / (k * c) == a * b / c
  {
    assert a * (k * b) == k * (a * b);
  }

  /** The three shoelace accumulators of calculateCentroidOfPolygon. */
  datatype Moments = Moments(area: real, cx: real, cy: real)

  /** The shoelace contribution of the edge from `p0` to `p1`, from their coordinates as they are. */
  function RawEdgeMoments(p0: Point, p1: Point): Moments {
    var crossProduct := p0.x * p1.y - p1.x * p0.y;
    Moments(crossProduct, (p0.x + p1.x) * crossProduct, (p0.y + p1.y) * crossProduct)
  }

  /** The contribution of the edge from `point0` to `point1`, both mapped into `canvasSize`. */
  function EdgeMoments(point0: Point, point1: Point, canvasSize: Size): Moments
    requires WellFramed(point0) && WellFramed(point1)
  {
    RawEdgeMoments(RelativePoint(point0, canvasSize), RelativePoint(point1, canvasSize))
  }

  /** The vertex after vertex k - 1 on the closed polygon: index k % n for 0 < k <= n. */
  function Successor(k: nat, n: nat): (j: nat)
    requires 0 < k <= n
    ensures j < n
  {
    if k == n then 0 else k
  }

  lemma SuccessorIsModulo(k: nat, n: nat)
    requires 0 < k <= n
    ensures Successor(k, n) == k % n
  {
  }

  /** The accumulators after the edges (i, (i + 1) % n) for every i < k. */
  function MomentsUpTo(points: seq<Point>, canvasSize: Size, k: nat): Moments
    requires AllFramed(points) && k <= |points|
    decreases k
  {
    if k == 0 then Moments(0.0, 0.0, 0.0)
    else
      var m := MomentsUpTo(points, canvasSize, k - 1);
      var e := EdgeMoments(points[k - 1], points[Successor(k, |points|)], canvasSize);
      Moments(m.area + e.area, m.cx + e.cx, m.cy + e.cy)
  }

  /** Dividing a moment by six times the halved area undoes a factor of three times the doubled area. */
  lemma CentroidDivision(doubledArea: real, moment: real)
    requires doubledArea != 0.0
    ensures 3.0 * doubledArea * (moment / (6.0 * (doubledArea / 2.0))) == moment
  {
    assert 6.0 * (doubledArea / 2.0) == 3.0 * doubledArea;
  }

  /**
   * The area-weighted centroid of the closed polygon, in `canvasSize`.
   * None when the signed area is zero: there the source divides by zero and
   * returns non-finite coordinates.
   */
  function Centroid(points: seq<Point>, canvasSize: Size): (c: Option<Point>)
    requires AllFramed(points)
    ensures var m := MomentsUpTo(points, canvasSize, |points|);
            && (c.None? <==> m.area == 0.0)
            && (c.Some? ==> c.value.scale == canvasSize && 3.0 * m.area * c.value.x == m.cx && 3.0 * m.area * c.value.y == m.cy)
  {
    var m := MomentsUpTo(points, canvasSize, |points|);
    var area := m.area / 2.0;
    if area == 0.0 then None
    else
      CentroidDivision(m.area, m.cx);
      CentroidDivision(m.area, m.cy);
      Some(Point(m.cx / (6.0 * area), m.cy / (6.0 * area), canvasSize))
  }

  /** Adding edge (k, (k + 1) % n) to the accumulators of the first k edges, field by field. */
  lemma MomentsStep(points: seq<Point>, canvasSize: Size, k: nat)
    requires AllFramed(points) && k < |points|
    ensures var e := EdgeMoments(points[k], points[Successor(k + 1, |points|)], canvasSize);
            && MomentsUpTo(points, canvasSize, k + 1).area == MomentsUpTo(points, canvasSize, k).area + e.area
            && MomentsUpTo(points, canvasSize, k + 1).cx == MomentsUpTo(points, canvasSize, k).cx + e.cx
            && MomentsUpTo(points, canvasSize, k + 1).cy == MomentsUpTo(points, canvasSize, k).cy + e.cy
  {
  }

  /** The edge contribution, from its two vertices already mapped into the frame. */
  lemma EdgeMomentsOfPixels(point0: Point, point1: Point, canvasSize: Size, p0: Point, p1: Point, crossProduct: real)
    requires WellFramed(point0) && WellFramed(point1)
    requires p0 == RelativePoint(point0, canvasSize) && p1 == RelativePoint(point1, canvasSize)
    requires crossProduct == p0.x * p1.y - p1.x * p0.y
    ensures EdgeMoments(point0, point1, canvasSize)
            == Moments(crossProduct, (p0.x + p1.x) * crossProduct, (p0.y + p1.y) * crossProduct)
  {
  }

  /** calculateCentroidOfPolygon: the shoelace loop, proved to compute Centroid. */
  method CalculateCentroidOfPolygon(points: seq<Point>, canvasSize: Size) returns (c: Option<Point>)
    requires AllFramed(points)
    ensures c == Centroid(points, canvasSize)
    ensures c.None? <==> MomentsUpTo(points, canvasSize, |points|).area == 0.0
    ensures c.Some? ==> c.value.scale == canvasSize
  {
    var cx, cy, area := 0.0, 0.0, 0.0;
    var n := |points|;
    for i := 0 to n
      invariant Moments(area, cx, cy) == MomentsUpTo(points, canvasSize, i)
    {
      var j := (i + 1) % n;
      SuccessorIsModulo(i + 1, n);
      var p0 := RelativePoint(points[i], canvasSize);
      var p1 := RelativePoint(points[j], canvasSize);
      var crossProduct := p0.x * p1.y - p1.x * p0.y;
      EdgeMomentsOfPixels(points[i], points[j], canvasSize, p0, p1, crossProduct);
      MomentsStep(points, canvasSize, i);
      area := area + crossProduct;
      cx := cx + (p0.x + p1.x) * crossProduct;
      cy := cy + (p0.y + p1.y) * crossProduct;
    }
    area := area / 2.0;
    if area == 0.0 {
      return None;
    }
    cx := cx / (6.0 * area);
    cy := cy / (6.0 * area);
    c := Some(Point(cx, cy, canvasSize));
  }

  /** Each point mapped into `canvasSize`. */
  function RelativePoints(points: seq<Point>, canvasSize: Size): (r: seq<Point>)
    requires AllFramed(points)
    ensures |r| == |points|
    ensures forall i :: 0 <= i < |r| ==> r[i] == RelativePoint(points[i], canvasSize)
  {
    seq(|points|, i requires 0 <= i < |points| => RelativePoint(points[i], canvasSize))
  }

  lemma EdgeMomentsOfRelative(p0: Point, p1: Point, via: Size, f: Size)
    requires WellFramed(p0) && WellFramed(p1) && PositiveSize(via)
    ensures EdgeMoments(RelativePoint(p0, via), RelativePoint(p1, via), f) == EdgeMoments(p0, p1, f)
  {
    RelativePointCompose(p0, via, f);
    RelativePointCompose(p1, via, f);
  }

  lemma {:induction false} MomentsOfRelative(points: seq<Point>, via: Size, f: Size, k: nat)
    requires AllFramed(points) && PositiveSize(via) && k <= |points|
    ensures AllFramed(RelativePoints(points, via))
    ensures MomentsUpTo(RelativePoints(points, via), f, k) == MomentsUpTo(points, f, k)
    decreases k
  {
    var q := RelativePoints(points, via);
    if k > 0 {
      MomentsOfRelative(points, via, f, k - 1);
      var j := Successor(k, |points|);
      EdgeMomentsOfRelative(points[k - 1], points[j], via, f);
    }
  }

  /** The centroid depends only on where the vertices lie, not on the frames they were captured in. */
  lemma CentroidOfRelative(points: seq<Point>, via: Size, f: Size)
    requires AllFramed(points) && PositiveSize(via)
    ensures AllFramed(RelativePoints(points, via))
    ensures Centroid(RelativePoints(points, via), f) == Centroid(points, f)
  {
    MomentsOfRelative(points, via, f, |points|);
  }

  /** An edge and its reverse contribute opposite signed areas. */
  lemma EdgeAreaAntisymmetric(p0: Point, p1: Point, f: Size)
    requires WellFramed(p0) && WellFramed(p1)
    ensures EdgeMoments(p0, p1, f).area + EdgeMoments(p1, p0, f).area == 0.0
  {
    var a := RelativePoint(p0, f);
    var b := RelativePoint(p1, f);
    assert EdgeMoments(p0, p1, f).area == a.x * b.y - b.x * a.y;
    assert EdgeMoments(p1, p0, f).area == b.x * a.y - a.x * b.y;
  }

  /** Fewer than three vertices enclose no area, so their centroid is undefined. */
  lemma CentroidOfDegenerate(points: seq<Point>, f: Size)
    requires AllFramed(points) && |points| <= 2
    ensures Centroid(points, f) == None
  {
    if |points| == 1 {
      assert Successor(1, 1) == 0;
      EdgeAreaAntisymmetric(points[0], points[0], f);
      assert MomentsUpTo(points, f, 1).area == EdgeMoments(points[0], points[0], f).area;
    } else if |points| == 2 {
      assert Successor(1, 2) == 1 && Successor(2, 2) == 0;
      EdgeAreaAntisymmetric(points[0], points[1], f);
      assert MomentsUpTo(points, f, 1).area == EdgeMoments(points[0], points[1], f).area;
      assert MomentsUpTo(points, f, 2).area == MomentsUpTo(points, f, 1).area + EdgeMoments(points[1], points[0], f).area;
    }
  }

  function RawMomentsUpTo(points: seq<Point>, k: nat): Moments
    requires k <= |points|
    decreases k
  {
    if k == 0 then Moments(0.0, 0.0, 0.0)
    else
      var m := RawMomentsUpTo(points, k - 1);
      var e := RawEdgeMoments(points[k - 1], points[Successor(k, |points|)]);
      Moments(m.area + e.area, m.cx + e.cx, m.cy + e.cy)
  }

  lemma EdgeMomentsInOwnFrame(p0: Point, p1: Point, f: Size)
    requires PositiveSize(f) && p0.scale == f && p1.scale == f
    ensures EdgeMoments(p0, p1, f) == RawEdgeMoments(p0, p1)
  {
    RelativePointOwnFrame(p0);
    RelativePointOwnFrame(p1);
  }

  /** For a polygon already captured in the target frame, the accumulators need no rescaling. */
  lemma {:induction false} MomentsInOwnFrame(points: seq<Point>, f: Size, k: nat)
    requires PositiveSize(f) && k <= |points|
    requires forall i :: 0 <= i < |points| ==> points[i].scale == f
    ensures AllFramed(points)
    ensures MomentsUpTo(points, f, k) == RawMomentsUpTo(points, k)
    decreases k
  {
    if k > 0 {
      MomentsInOwnFrame(points, f, k - 1);
      var j := Successor(k, |points|);
      EdgeMomentsInOwnFrame(points[k - 1], points[j], f);
    }
  }

  predicate IsUnitSquare(square: seq<Point>) {
    var unit := Size(1.0, 1.0);
    && |square| == 4
    && square[0] == Point(0.0, 0.0, unit) && square[1] == Point(1.0, 0.0, unit)
    && square[2] == Point(1.0, 1.0, unit) && square[3] == Point(0.0, 1.0, unit)
  }

  lemma RawEdgeMomentsOf(p0: Point, p1: Point, x0: real, y0: real, x1: real, y1: real)
    requires p0.x == x0 && p0.y == y0 && p1.x == x1 && p1.y == y1
    ensures var crossProduct := x0 * y1 - x1 * y0;
            RawEdgeMoments(p0, p1) == Moments(crossProduct, (x0 + x1) * crossProduct, (y0 + y1) * crossProduct)
  {
  }

  lemma UnitSquareEdges(square: seq<Point>)
    requires IsUnitSquare(square)
    ensures RawEdgeMoments(square[0], square[1]) == Moments(0.0, 0.0, 0.0)
    ensures RawEdgeMoments(square[1], square[2]) == Moments(1.0, 2.0, 1.0)
    ensures RawEdgeMoments(square[2], square[3]) == Moments(1.0, 1.0, 2.0)
    ensures RawEdgeMoments(square[3], square[0]) == Moments(0.0, 0.0, 0.0)
  {
    RawEdgeMomentsOf(square[0], square[1], 0.0, 0.0, 1.0, 0.0);
    RawEdgeMomentsOf(square[1], square[2], 1.0, 0.0, 1.0, 1.0);
    RawEdgeMomentsOf(square[2], square[3], 1.0, 1.0, 0.0, 1.0);
    RawEdgeMomentsOf(square[3], square[0], 0.0, 1.0, 0.0, 0.0);
  }

  lemma UnitSquareRawMoments(square: seq<Point>)
    requires IsUnitSquare(square)
    ensures RawMomentsUpTo(square, |square|) == Moments(2.0, 3.0, 3.0)
  {
    UnitSquareEdges(square);
    assert RawMomentsUpTo(square, 1) == Moments(0.0, 0.0, 0.0);
    assert RawMomentsUpTo(square, 2) == Moments(1.0, 2.0, 1.0);
    assert RawMomentsUpTo(square, 3) == Moments(2.0, 3.0, 3.0);
    assert RawMomentsUpTo(square, 4) == Moments(2.0, 3.0, 3.0);
  }

  /** The unit square's centroid is its middle. */
  lemma UnitSquareCentroid(square: seq<Point>)
    requires IsUnitSquare(square)
    ensures AllFramed(square)
    ensures Centroid(square, Size(1.0, 1.0)) == Some(Point(0.5, 0.5, Size(1.0, 1.0)))
  {
    MomentsInOwnFrame(square, Size(1.0, 1.0), |square|);
    UnitSquareRawMoments(square);
  }
}
