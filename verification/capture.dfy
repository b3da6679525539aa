/** The annotator's pointer-driven capture controller: the transitions run
    by mouse-down, mouse-move and mouse-up on the page surface, and by the
    signature pad's save and close callbacks. Each event handler becomes a
    pure function from the controller state (which also carries the page's
    store and selection, the state its callbacks write) to the next state. */
module Capture {
  import opened Options
  import opened Geometry
  import opened Annotations
  import opened Store

  /** What the page hands the annotator. */
  datatype Props = Props(pageNumber: int, scale: real, tool: Option<Kind>, color: string)

  /** The controller state together with the store it writes into. */
  datatype Annotator = Annotator(
    store: seq<Annotation>,
    selected: Option<string>,
    drawing: bool,              // a drag is in progress
    draft: Option<Annotation>,  // the rectangle being dragged, not yet stored
    path: seq<Point>,           // points visited by a signature drag
    padOpen: bool,              // the signature pad is shown
    pending: Option<Point>      // where the next signature will be placed
  )

  const SignatureWidth: real := 200.0
  const SignatureHeight: real := 100.0

  /** The text of a new comment: the prompt's reply, or "Comment" when the
      prompt was cancelled or left empty. */
  function CommentText(reply: Option<string>): (t: string)
    ensures t != []
    ensures Truthy(reply) ==> t == reply.value
    ensures !Truthy(reply) ==> t == "Comment"
  {
    if Truthy(reply) then reply.value else "Comment"
  }

  function NewComment(id: string, props: Props, p: Point, reply: Option<string>): Annotation
  {
    Annotation(id, Comment, props.pageNumber, p, Some(CommentText(reply)), Some(props.color), None, None)
  }

  /** A fresh drag draft: a zero-size rectangle at the press point. */
  function NewDraft(id: string, tool: Kind, props: Props, p: Point): Annotation
  {
    Annotation(id, tool, props.pageNumber, p, None, Some(props.color), Some(Rect(p.x, p.y, 0.0, 0.0)), None)
  }

  /** A signature of fixed size whose top-left corner is the pending point. */
  function NewSignature(id: string, props: Props, at: Point, data: string): Annotation
  {
    Annotation(id, Signature, props.pageNumber, at, None, Some(props.color),
               Some(Rect(at.x, at.y, SignatureWidth, SignatureHeight)), Some(data))
  }

  /** Mouse-down. Without a tool there is no listener, so nothing happens.
      A comment is stored and selected at once; a signature press records
      where the signature goes and opens the pad (unless it is already
      open); a highlight or underline press starts a drag with a zero-size
      draft. `id` is the id generated for a new record and `reply` the
      answer to the comment prompt. */
  function MouseDown(props: Props, st: Annotator, client: Point, origin: Point,
                     id: string, reply: Option<string>): (r: Annotator)
    requires props.scale != 0.0
    ensures props.tool.None? ==> r == st
    ensures props.tool == Some(Comment) ==>
      var p := ToPageSpace(client, origin, props.scale);
      && |r.store| == |st.store| + 1 && r.store[..|st.store|] == st.store
      && r.store[|st.store|].id == id && r.store[|st.store|].kind == Comment
      && r.store[|st.store|].page == props.pageNumber && r.store[|st.store|].position == p
      && r.store[|st.store|].content == Some(CommentText(reply)) && r.store[|st.store|].rect.None?
      && r.store[|st.store|].color == Some(props.color)
      && r.selected == Some(id)
      && r.(store := st.store, selected := st.selected) == st
    ensures props.tool == Some(Signature) ==>
      && r.store == st.store
      && (st.padOpen ==> r == st)
      && (!st.padOpen ==> r.padOpen && r.pending == Some(ToPageSpace(client, origin, props.scale)))
      && r.(padOpen := st.padOpen, pending := st.pending) == st
    ensures props.tool.Some? && IsDragTool(props.tool.value) ==>
      var p := ToPageSpace(client, origin, props.scale);
      && r.store == st.store && r.drawing && r.draft.Some?
      && r.draft.value.id == id && r.draft.value.kind == props.tool.value
      && r.draft.value.page == props.pageNumber && r.draft.value.position == p
      && r.draft.value.rect == Some(Rect(p.x, p.y, 0.0, 0.0))
      && r.draft.value.color == Some(props.color)
      && r.(drawing := st.drawing, draft := st.draft) == st
  {
    match props.tool
    case None => st
    case Some(tool) =>
      var p := ToPageSpace(client, origin, props.scale);
      if tool == Comment then
        st.(store := Add(st.store, NewComment(id, props, p, reply)), selected := Some(id))
      else if tool == Signature && !st.padOpen then
        st.(pending := Some(p), padOpen := true)
      else if tool == Underline || tool == Highlight then
        st.(draft := Some(NewDraft(id, tool, props, p)), drawing := true)
      else
        st
  }

  /** Mouse-move. Ignored without a tool, without a drag in progress or
      without a draft. For a highlight or underline the draft's rectangle
      is re-spanned between its anchor and the pointer (the store is not
      touched); with the signature tool the point joins the path, the
      draft's rectangle becomes the path's bounding box and the draft is
      written through the store's update. */
  function MouseMove(props: Props, st: Annotator, client: Point, origin: Point): (r: Annotator)
    requires props.scale != 0.0
    ensures props.tool.None? || !st.drawing || st.draft.None? || props.tool == Some(Comment) ==> r == st
    ensures props.tool.Some? && IsDragTool(props.tool.value) && st.drawing && st.draft.Some? ==>
      var p := ToPageSpace(client, origin, props.scale);
      var d := st.draft.value;
      && r.store == st.store
      && r.draft.Some?
      && r.draft.value.(rect := d.rect, color := d.color) == d
      && r.draft.value.rect == Some(DragRect(d.position, p, props.tool.value == Underline))
      && r.draft.value.color == Some(props.color)
      && r.(draft := st.draft) == st
    ensures props.tool == Some(Signature) && st.drawing && st.draft.Some? ==>
      var p := ToPageSpace(client, origin, props.scale);
      && r.path == st.path + [p]
      && r.draft.Some? && r.draft.value.(rect := st.draft.value.rect) == st.draft.value
      && r.draft.value.rect == Some(BoundingBox(r.path))
      && r.store == Update(st.store, r.draft.value)
  {
    if props.tool.None? || !st.drawing || st.draft.None? then st
    else
      var p := ToPageSpace(client, origin, props.scale);
      var d := st.draft.value;
      match props.tool.value
      case Signature =>
        var path := st.path + [p];
        var moved := d.(rect := Some(BoundingBox(path)));
        st.(path := path, draft := Some(moved), store := Update(st.store, moved))
      case Highlight =>
        st.(draft := Some(d.(rect := Some(DragRect(d.position, p, false)), color := Some(props.color))))
      case Underline =>
        st.(draft := Some(d.(rect := Some(DragRect(d.position, p, true)), color := Some(props.color))))
      case Comment => st
  }

  /** Mouse-up. Without a tool there is no listener. Otherwise a draft of
      a drag in progress is stored when its rectangle has non-zero width
      and height, and the drag state is cleared in every case. */
  function MouseUp(props: Props, st: Annotator): (r: Annotator)
    ensures props.tool.None? ==> r == st
    ensures props.tool.Some? ==> !r.drawing && r.draft.None? && r.path == []
    ensures props.tool.Some? && st.drawing && st.draft.Some? && HasArea(st.draft.value) ==>
      r.store == Add(st.store, st.draft.value)
    ensures props.tool.Some? && !(st.drawing && st.draft.Some? && HasArea(st.draft.value)) ==>
      r.store == st.store
    ensures r.selected == st.selected && r.padOpen == st.padOpen && r.pending == st.pending
  {
    if props.tool.None? then st
    else
      var commit := st.drawing && st.draft.Some? && HasArea(st.draft.value);
      st.(store := if commit then Add(st.store, st.draft.value) else st.store,
          drawing := false, draft := None, path := [])
  }

  /** The pad's save callback: with a pending point, stores one signature
      of fixed size there carrying the raster `data`, then hides the pad
      and forgets the point; without one it does nothing. */
  function SignatureSave(props: Props, st: Annotator, data: string, id: string): (r: Annotator)
    ensures st.pending.None? ==> r == st
    ensures st.pending.Some? ==>
      && |r.store| == |st.store| + 1 && r.store[..|st.store|] == st.store
      && r.store[|st.store|].id == id && r.store[|st.store|].kind == Signature
      && r.store[|st.store|].page == props.pageNumber
      && r.store[|st.store|].position == st.pending.value
      && r.store[|st.store|].rect == Some(Rect(st.pending.value.x, st.pending.value.y, SignatureWidth, SignatureHeight))
      && r.store[|st.store|].signatureUrl == Some(data)
      && !r.padOpen && r.pending.None?
      && r.(store := st.store, padOpen := st.padOpen, pending := st.pending) == st
  {
    if st.pending.None? then st
    else
      st.(store := Add(st.store, NewSignature(id, props, st.pending.value, data)),
          padOpen := false, pending := None)
  }

  /** The pad's close callback: hides the pad and forgets the pending
      point; the store is untouched. */
  function SignatureClose(st: Annotator): (r: Annotator)
    ensures !r.padOpen && r.pending.None?
    ensures r.(padOpen := st.padOpen, pending := st.pending) == st
  {
    st.(padOpen := false, pending := None)
  }

  /** A click on an overlay box selects its record; nothing else changes.
      The selection is the page's, so it survives page and tool changes. */
  function SelectBox(st: Annotator, id: string): (r: Annotator)
    ensures r.selected == Some(id)
    ensures r.(selected := st.selected) == st
  {
    st.(selected := Some(id))
  }

  // ---------------------------------------------------------------------
  // Gestures

  /** Closing after a save changes nothing more: the save has already
      hidden the pad. */
  lemma CloseAfterSaveIsSave(props: Props, st: Annotator, data: string, id: string)
    requires st.pending.Some?
    ensures SignatureClose(SignatureSave(props, st, data, id)) == SignatureSave(props, st, data, id)
  {
  }

  /** Only the last pointer position of a drag matters: two moves in a row
      leave the same state as the second alone. */
  lemma LastMoveWins(props: Props, st: Annotator, c1: Point, c2: Point, origin: Point)
    requires props.scale != 0.0
    requires props.tool.Some? && IsDragTool(props.tool.value)
    ensures MouseMove(props, MouseMove(props, st, c1, origin), c2, origin) == MouseMove(props, st, c2, origin)
  {
  }

  /** A press and release without any move never stores a highlight or an
      underline: the draft still has zero size. */
  lemma ClickWithoutDragAddsNothing(props: Props, st: Annotator, client: Point, origin: Point,
                                    id: string, reply: Option<string>)
    requires props.scale != 0.0
    requires props.tool.Some? && IsDragTool(props.tool.value)
    ensures MouseUp(props, MouseDown(props, st, client, origin, id, reply)).store == st.store
  {
  }

  /** A press at `c0`, a move to `c1` and a release: a highlight is stored
      exactly when the two page-space points differ in both coordinates,
      an underline exactly when they differ in x; what is stored is the
      draft spanning the two points. */
  lemma DragGesture(props: Props, st: Annotator, c0: Point, c1: Point, origin: Point,
                    id: string, reply: Option<string>)
    requires props.scale != 0.0
    requires props.tool.Some? && IsDragTool(props.tool.value)
    ensures
      var p0 := ToPageSpace(c0, origin, props.scale);
      var p1 := ToPageSpace(c1, origin, props.scale);
      var underline := props.tool.value == Underline;
      var done := MouseUp(props, MouseMove(props, MouseDown(props, st, c0, origin, id, reply), c1, origin));
      var stored := Annotation(id, props.tool.value, props.pageNumber, p0, None, Some(props.color),
                               Some(DragRect(p0, p1, underline)), None);
      && (p0.x != p1.x && (underline || p0.y != p1.y) ==> done.store == Add(st.store, stored))
      && (!(p0.x != p1.x && (underline || p0.y != p1.y)) ==> done.store == st.store)
      && !done.drawing && done.draft.None?
  {
  }

  /** The highlight drag from (50,50) to (150,90) at zoom 1 stores the
      rectangle (50,50,100,40). */
  lemma HighlightScenario(st: Annotator, id: string)
    ensures
      var props := Props(1, 1.0, Some(Highlight), "#2196f3");
      var o := Point(0.0, 0.0);
      var done := MouseUp(props, MouseMove(props, MouseDown(props, st, Point(50.0, 50.0), o, id, None), Point(150.0, 90.0), o));
      && |done.store| == |st.store| + 1
      && done.store[|st.store|].rect == Some(Rect(50.0, 50.0, 100.0, 40.0))
  {
    var props := Props(1, 1.0, Some(Highlight), "#2196f3");
    DragGesture(props, st, Point(50.0, 50.0), Point(150.0, 90.0), Point(0.0, 0.0), id, None);
  }

  /** A level underline drag from (50,50) to (150,50) is still stored: its
      height is the fixed bar thickness, not the zero vertical travel. */
  lemma UnderlineScenario(st: Annotator, id: string)
    ensures
      var props := Props(1, 1.0, Some(Underline), "#2196f3");
      var o := Point(0.0, 0.0);
      var done := MouseUp(props, MouseMove(props, MouseDown(props, st, Point(50.0, 50.0), o, id, None), Point(150.0, 50.0), o));
      && |done.store| == |st.store| + 1
      && done.store[|st.store|].rect == Some(Rect(50.0, 50.0, 100.0, UnderlineHeight))
  {
    var props := Props(1, 1.0, Some(Underline), "#2196f3");
    DragGesture(props, st, Point(50.0, 50.0), Point(150.0, 50.0), Point(0.0, 0.0), id, None);
  }
}
