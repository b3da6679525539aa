/** Points and rectangles in the three coordinate spaces of the annotator:
    viewport pixels (pointer events), unscaled page space (top-left origin,
    y growing downwards; every stored coordinate), and export space (the
    document's bottom-left origin, y growing upwards). */
module Geometry {

  datatype Point = Point(x: real, y: real)

  /** An axis-aligned rectangle given by its top-left corner and its size. */
  datatype Rect = Rect(x: real, y: real, width: real, height: real)

  /** The fixed thickness of an underline bar, in page units. */
  const UnderlineHeight: real := 2.0

  function Abs(v: real): (r: real)
    ensures r >= 0.0
    ensures r == v || r == -v
  {
    if v < 0.0 then -v else v
  }

  function Min(a: real, b: real): (r: real)
    ensures r <= a && r <= b
    ensures r == a || r == b
  {
    if a <= b then a else b
  }

  /** `q` lies in the closed rectangle `r` (of non-negative size). */
  predicate Contains(r: Rect, q: Point)
  {
    r.x <= q.x <= r.x + r.width && r.y <= q.y <= r.y + r.height
  }

  /** The closed area of `inner` lies inside that of `outer`. */
  predicate Within(inner: Rect, outer: Rect)
  {
    && outer.x <= inner.x && inner.x + inner.width <= outer.x + outer.width
    && outer.y <= inner.y && inner.y + inner.height <= outer.y + outer.height
  }

  // ---------------------------------------------------------------------
  // Viewport <-> page space

  /** A pointer position made relative to the page surface's top-left
      corner `origin`, then divided by the zoom factor. */
  function ToPageSpace(client: Point, origin: Point, scale: real): (p: Point)
    requires scale != 0.0
    ensures p.x * scale + origin.x == client.x
    ensures p.y * scale + origin.y == client.y
  {
    Point((client.x - origin.x) / scale, (client.y - origin.y) / scale)
  }

  /** Where a page-space point is drawn on screen at zoom `scale`. */
  function ToViewport(p: Point, origin: Point, scale: real): (c: Point)
    ensures scale != 0.0 ==> (c.x - origin.x) / scale == p.x
    ensures scale != 0.0 ==> (c.y - origin.y) / scale == p.y
  {
    Point(p.x * scale + origin.x, p.y * scale + origin.y)
  }

  /** The two transforms are mutually inverse for every non-zero scale. */
  lemma PageSpaceRoundTrip(client: Point, p: Point, origin: Point, scale: real)
    requires scale != 0.0
    ensures ToViewport(ToPageSpace(client, origin, scale), origin, scale) == client
    ensures ToPageSpace(ToViewport(p, origin, scale), origin, scale) == p
  {
  }

  // ---------------------------------------------------------------------
  // Page space -> export space

  /** The y-axis flip of a point on a page of height `pageHeight`. */
  function ExportPoint(p: Point, pageHeight: real): (e: Point)
    ensures e.x == p.x
    ensures e.y + p.y == pageHeight
  {
    Point(p.x, pageHeight - p.y)
  }

  /** The flip of a rectangle: its page-space top edge becomes its
      export-space top edge, so the lower-left corner sits `height` below. */
  function ExportRect(r: Rect, pageHeight: real): (e: Rect)
    ensures e.x == r.x && e.width == r.width && e.height == r.height
    ensures e.y + e.height == ExportPoint(Point(r.x, r.y), pageHeight).y
    ensures forall q :: Contains(r, q) <==> Contains(e, ExportPoint(q, pageHeight))
  {
    Rect(r.x, pageHeight - r.y - r.height, r.width, r.height)
  }

  /** Flipping twice gives back the original geometry. */
  lemma ExportInvolution(p: Point, r: Rect, pageHeight: real)
    ensures ExportPoint(ExportPoint(p, pageHeight), pageHeight) == p
    ensures ExportRect(ExportRect(r, pageHeight), pageHeight) == r
  {
  }

  // ---------------------------------------------------------------------
  // Rectangles built from pointer positions

  /** The rectangle of a highlight (or, with `underline`, an underline)
      dragged from `anchor` to `p`: it spans both x positions; a highlight
      spans both y positions too, an underline is a bar of fixed height
      whose top is the upper of the two y positions. */
  function DragRect(anchor: Point, p: Point, underline: bool): (r: Rect)
    ensures r.width >= 0.0 && r.height >= 0.0
    ensures r.x <= anchor.x <= r.x + r.width && r.x <= p.x <= r.x + r.width
    ensures r.x == anchor.x || r.x == p.x
    ensures r.x + r.width == anchor.x || r.x + r.width == p.x
    ensures r.y == anchor.y || r.y == p.y
    ensures r.y <= anchor.y && r.y <= p.y
    ensures underline ==> r.height == UnderlineHeight
    ensures !underline ==> Contains(r, anchor) && Contains(r, p)
    ensures !underline ==> (r.y + r.height == anchor.y || r.y + r.height == p.y)
    ensures r.width == 0.0 <==> anchor.x == p.x
    ensures !underline ==> (r.height == 0.0 <==> anchor.y == p.y)
  {
    Rect(Min(anchor.x, p.x), Min(anchor.y, p.y), Abs(p.x - anchor.x),
         if underline then UnderlineHeight else Abs(p.y - anchor.y))
  }

  /** Dragging is symmetric: a highlight's rectangle does not depend on
      which end the drag started from. */
  lemma DragRectSymmetric(a: Point, b: Point)
    ensures DragRect(a, b, false) == DragRect(b, a, false)
  {
  }

  /** The least value of a non-empty sequence. */
  function Lowest(xs: seq<real>): (m: real)
    requires |xs| > 0
    ensures m in xs
    ensures forall i :: 0 <= i < |xs| ==> m <= xs[i]
  {
    if |xs| == 1 then xs[0] else Min(xs[0], Lowest(xs[1..]))
  }

  /** The greatest value of a non-empty sequence. */
  function Highest(xs: seq<real>): (m: real)
    requires |xs| > 0
    ensures m in xs
    ensures forall i :: 0 <= i < |xs| ==> xs[i] <= m
  {
    if |xs| == 1 then xs[0] else (var h := Highest(xs[1..]); if xs[0] >= h then xs[0] else h)
  }

  function Xs(points: seq<Point>): (xs: seq<real>)
    ensures |xs| == |points|
    ensures forall i :: 0 <= i < |points| ==> xs[i] == points[i].x
  {
    seq(|points|, i requires 0 <= i < |points| => points[i].x)
  }

  function Ys(points: seq<Point>): (ys: seq<real>)
    ensures |ys| == |points|
    ensures forall i :: 0 <= i < |points| ==> ys[i] == points[i].y
  {
    seq(|points|, i requires 0 <= i < |points| => points[i].y)
  }

  /** The bounding box of a non-empty point sequence: it contains every
      point and each of its four edges touches one of them. */
  function BoundingBox(points: seq<Point>): (r: Rect)
    requires |points| > 0
    ensures r.width >= 0.0 && r.height >= 0.0
    ensures forall i :: 0 <= i < |points| ==> Contains(r, points[i])
    ensures exists i :: 0 <= i < |points| && r.x == points[i].x
    ensures exists i :: 0 <= i < |points| && r.y == points[i].y
    ensures exists i :: 0 <= i < |points| && r.x + r.width == points[i].x
    ensures exists i :: 0 <= i < |points| && r.y + r.height == points[i].y
  {
    var lx, hx := Lowest(Xs(points)), Highest(Xs(points));
    var ly, hy := Lowest(Ys(points)), Highest(Ys(points));
    Rect(lx, ly, hx - lx, hy - ly)
  }

  /** The bounding box is the smallest rectangle holding all the points. */
  lemma BoundingBoxIsSmallest(points: seq<Point>, o: Rect)
    requires |points| > 0
    requires forall i :: 0 <= i < |points| ==> Contains(o, points[i])
    ensures Within(BoundingBox(points), o)
  {
    var r := BoundingBox(points);
    var i0 :| 0 <= i0 < |points| && r.x == points[i0].x;
    var i1 :| 0 <= i1 < |points| && r.y == points[i1].y;
    var i2 :| 0 <= i2 < |points| && r.x + r.width == points[i2].x;
    var i3 :| 0 <= i3 < |points| && r.y + r.height == points[i3].y;
    assert Contains(o, points[i0]) && Contains(o, points[i1]);
    assert Contains(o, points[i2]) && Contains(o, points[i3]);
  }

  /** A highlight's drag rectangle is the bounding box of its two ends. */
  lemma HighlightRectIsBoundingBox(anchor: Point, p: Point)
    ensures DragRect(anchor, p, false) == BoundingBox([anchor, p])
  {
    var pts := [anchor, p];
    assert Xs(pts) == [anchor.x, p.x];
    assert Ys(pts) == [anchor.y, p.y];
    assert Xs(pts)[1..] == [p.x];
    assert Ys(pts)[1..] == [p.y];
  }
}
