/** The overlay drawn over the current page: one positioned box per record
    of that page, in store order. It is a pure function of the store, so it
    cannot change it. */
module Overlay {
  import opened Options
  import opened Geometry
  import opened Annotations
  import opened Store

  /** The style and contents of one overlay element, in page units (the
      whole layer is scaled by the zoom factor). */
  datatype Box = Box(
    id: string,
    kind: Kind,
    left: real,
    top: real,
    width: Option<real>,
    height: Option<real>,
    background: Option<string>, // fill colour; none for a signature
    selected: bool,             // presentation flag only
    bubble: Option<string>,     // the text bubble of a comment
    image: Option<string>       // the raster of a signature
  )

  /** The area a box covers, when it is sized. */
  function Area(b: Box): (r: Option<Rect>)
    ensures r.Some? <==> b.width.Some? && b.height.Some?
    ensures r.Some? ==> r.value.x == b.left && r.value.y == b.top
  {
    if b.width.Some? && b.height.Some? then Some(Rect(b.left, b.top, b.width.value, b.height.value)) else None
  }

  /** What every layout shares: size from the rectangle, colour except for
      signatures, comment bubble, signature image, selection flag. */
  function Decorate(a: Annotation, selectedId: Option<string>, left: real, top: real): (b: Box)
    ensures b.id == a.id && b.kind == a.kind && b.left == left && b.top == top
    ensures b.width.Some? <==> a.rect.Some?
    ensures b.height.Some? <==> a.rect.Some?
    ensures a.rect.Some? ==> b.width == Some(a.rect.value.width) && b.height == Some(a.rect.value.height)
    ensures a.kind == Signature ==> b.background.None?
    ensures a.kind != Signature ==> b.background == a.color
    ensures b.selected <==> selectedId == Some(a.id)
    ensures b.bubble.Some? <==> a.kind == Comment
    ensures a.kind == Comment ==> b.bubble == Some(a.content.GetOr(""))
    ensures b.image.Some? <==> a.kind == Signature && Truthy(a.signatureUrl)
    ensures b.image.Some? ==> b.image == a.signatureUrl
  {
    Box(a.id, a.kind, left, top,
        if a.rect.Some? then Some(a.rect.value.width) else None,
        if a.rect.Some? then Some(a.rect.value.height) else None,
        if a.kind != Signature then a.color else None,
        selectedId == Some(a.id),
        if a.kind == Comment then Some(a.content.GetOr("")) else None,
        if a.kind == Signature && Truthy(a.signatureUrl) then a.signatureUrl else None)
  }

  /** The layout as the overlay writes it: the box's corner is always the
      gesture's starting point, whatever the rectangle says. */
  function LayoutAsWritten(a: Annotation, selectedId: Option<string>): (b: Box)
    ensures b.left == a.position.x && b.top == a.position.y
    ensures a.rect.Some? ==> Area(b) == Some(Rect(a.position.x, a.position.y, a.rect.value.width, a.rect.value.height))
  {
    Decorate(a, selectedId, a.position.x, a.position.y)
  }

  /** The corrected layout: a record with a rectangle is drawn exactly over
      that rectangle; a point-only record at its position. */
  function Layout(a: Annotation, selectedId: Option<string>): (b: Box)
    ensures a.rect.Some? ==> Area(b) == a.rect
    ensures a.rect.None? ==> b.left == a.position.x && b.top == a.position.y && Area(b).None?
  {
    if a.rect.Some? then Decorate(a, selectedId, a.rect.value.x, a.rect.value.y)
    else Decorate(a, selectedId, a.position.x, a.position.y)
  }

  /** The two layouts agree whenever the rectangle starts at the gesture's
      starting point: signatures, and drags towards the lower right. */
  lemma LayoutsAgreeAtAnchor(a: Annotation, selectedId: Option<string>)
    requires a.rect.Some? ==> a.rect.value.x == a.position.x && a.rect.value.y == a.position.y
    ensures LayoutAsWritten(a, selectedId) == Layout(a, selectedId)
  {
  }

  /** The overlay layer is scaled by the zoom, so a box is drawn on screen
      at its corner's viewport image: for a record made by a press at
      `client`, that is the press point itself. */
  lemma BoxDrawnAtPress(a: Annotation, selectedId: Option<string>, client: Point, origin: Point, scale: real)
    requires scale != 0.0 && a.position == ToPageSpace(client, origin, scale)
    ensures var b := LayoutAsWritten(a, selectedId);
      ToViewport(Point(b.left, b.top), origin, scale) == client
  {
    PageSpaceRoundTrip(client, a.position, origin, scale);
  }

  /** The boxes of page `page`: one per record of the page, in store order,
      each placed as the overlay places it, at the record's position. */
  function Render(store: seq<Annotation>, page: int, selectedId: Option<string>): (boxes: seq<Box>)
    ensures |boxes| == |OnPage(store, page)|
    ensures forall i :: 0 <= i < |boxes| ==> boxes[i] == LayoutAsWritten(OnPage(store, page)[i], selectedId)
  {
    if store == [] then []
    else (if store[0].page == page then [LayoutAsWritten(store[0], selectedId)] else [])
         + Render(store[1..], page, selectedId)
  }

  /** A record added to the store shows up last on its own page and
      nowhere else; the boxes already shown stay as they were. */
  lemma RenderAfterAdd(store: seq<Annotation>, a: Annotation, page: int, selectedId: Option<string>)
    ensures var before, after := Render(store, page, selectedId), Render(Add(store, a), page, selectedId);
      && |after| == |before| + (if a.page == page then 1 else 0)
      && (forall i :: 0 <= i < |before| ==> after[i] == before[i])
      && (a.page == page ==> after[|before|] == LayoutAsWritten(a, selectedId))
  {
    var on := OnPage(store, page);
    var on' := OnPage(Add(store, a), page);
    OnPageAfterAdd(store, a, page);
    var before, after := Render(store, page, selectedId), Render(Add(store, a), page, selectedId);
    forall i | 0 <= i < |before| ensures after[i] == before[i] {
      assert on'[i] == on[i];
    }
  }

  /** Every record of the shown page has a box. */
  lemma RenderShowsEveryRecord(store: seq<Annotation>, page: int, selectedId: Option<string>, a: Annotation)
    requires a in store && a.page == page
    ensures LayoutAsWritten(a, selectedId) in Render(store, page, selectedId)
  {
    var on := OnPage(store, page);
    var i :| 0 <= i < |on| && on[i] == a;
    assert Render(store, page, selectedId)[i] == LayoutAsWritten(a, selectedId);
  }

  /** Boxes that carry the records' ids index by index carry exactly the
      records' ids. */
  lemma BoxIdsPointwise(boxes: seq<Box>, on: seq<Annotation>)
    requires |boxes| == |on|
    requires forall i :: 0 <= i < |on| ==> boxes[i].id == on[i].id
    ensures (set b | b in boxes :: b.id) == Ids(on)
  {
    var shown := set b | b in boxes :: b.id;
    assert Ids(on) <= shown by {
      forall x | x in Ids(on) ensures x in shown {
        var i :| 0 <= i < |on| && on[i].id == x;
        assert boxes[i] in boxes;
      }
    }
    assert shown <= Ids(on) by {
      forall x | x in shown ensures x in Ids(on) {
        var i :| 0 <= i < |boxes| && boxes[i].id == x;
        assert on[i] in on;
      }
    }
  }

  /** The boxes carry exactly the ids of the shown page's records. */
  lemma RenderIds(store: seq<Annotation>, page: int, selectedId: Option<string>)
    ensures (set b | b in Render(store, page, selectedId) :: b.id) == Ids(OnPage(store, page))
  {
    var boxes := Render(store, page, selectedId);
    var on := OnPage(store, page);
    forall i | 0 <= i < |on| ensures boxes[i].id == on[i].id {
      assert boxes[i] == LayoutAsWritten(on[i], selectedId);
    }
    BoxIdsPointwise(boxes, on);
  }

  /** When every record of the page has its rectangle starting at its
      position (signatures, lower-right drags), the rendered boxes are the
      corrected layout's boxes. */
  lemma RenderAgreesWhenAnchored(store: seq<Annotation>, page: int, selectedId: Option<string>)
    requires forall a :: a in store && a.page == page && a.rect.Some? ==>
               a.rect.value.x == a.position.x && a.rect.value.y == a.position.y
    ensures var boxes, on := Render(store, page, selectedId), OnPage(store, page);
      forall i :: 0 <= i < |boxes| ==> boxes[i] == Layout(on[i], selectedId)
  {
    var boxes, on := Render(store, page, selectedId), OnPage(store, page);
    forall i | 0 <= i < |boxes| ensures boxes[i] == Layout(on[i], selectedId) {
      assert on[i] in on;
      LayoutsAgreeAtAnchor(on[i], selectedId);
    }
  }

  // ---------------------------------------------------------------------
  // Finding: the overlay draws a rectangle at its anchor

  /** A highlight dragged up and to the left, from (150,90) to (50,50): the
      overlay as written draws its box from (150,90) to (250,130), which
      does not even cover the point where the drag ended, while the stored
      rectangle (and the export) is (50,50)-(150,90). */
  lemma LayoutAsWrittenMisplacesUpLeftDrag()
    ensures
      var anchor, end := Point(150.0, 90.0), Point(50.0, 50.0);
      var a := Annotation("h", Highlight, 1, anchor, None, Some("#2196f3"),
                          Some(DragRect(anchor, end, false)), None);
      && a.rect == Some(Rect(50.0, 50.0, 100.0, 40.0))
      && Area(LayoutAsWritten(a, None)) == Some(Rect(150.0, 90.0, 100.0, 40.0))
      && !Contains(Area(LayoutAsWritten(a, None)).value, end)
  {
  }

  /** The corrected layout covers both ends of every drag. */
  lemma LayoutCoversDrag(a: Annotation, end: Point, selectedId: Option<string>)
    requires IsDragTool(a.kind)
    requires a.rect == Some(DragRect(a.position, end, a.kind == Underline))
    ensures Area(Layout(a, selectedId)).Some?
    ensures var r := Area(Layout(a, selectedId)).value;
      r.x <= end.x <= r.x + r.width && r.x <= a.position.x <= r.x + r.width
    ensures a.kind == Highlight ==>
      Contains(Area(Layout(a, selectedId)).value, end) && Contains(Area(Layout(a, selectedId)).value, a.position)
  {
  }
}
