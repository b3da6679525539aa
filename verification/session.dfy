/** The whole editing session: the page's viewer state and the annotator's
    controller, driven by one event at a time. Each event is one user
    action the page or the annotator handles; the signature pad's buttons
    run the callbacks the pad invokes, in order. */
module Session {
  import opened Options
  import opened Geometry
  import opened Annotations
  import opened Store
  import opened Viewer
  import opened Capture
  import opened SignaturePad
  import opened Overlay
  import opened Export

  datatype ViewerState = ViewerState(
    pageNumber: int,
    numPages: Option<nat>,  // known once the document has loaded
    scale: real,
    tool: Option<Kind>,
    color: string
  )

  datatype Session = Session(view: ViewerState, ann: Annotator)

  function PropsOf(v: ViewerState): Props
  {
    Props(v.pageNumber, v.scale, v.tool, v.color)
  }

  datatype Event =
    | PointerDown(client: Point, origin: Point, id: string, reply: Option<string>)
    | PointerMove(client: Point, origin: Point)
    | PointerUp
    | PadSave(pad: Pad, raster: Raster, id: string)
    | PadCancel
    | ClickBox(id: string)
    | PressTool(kind: Kind)
    | StepPage(pages: int)
    | StepZoom(zoom: real)

  /** The session right after a document is opened. */
  function Initial(numPages: Option<nat>): Session
  {
    Session(ViewerState(1, numPages, 1.0, None, InitialColor),
            Annotator([], None, false, None, [], false, None))
  }

  /** Runs one of the pad's callbacks against the annotator. */
  function RunCallback(props: Props, st: Annotator, call: Callback, id: string): Annotator
  {
    match call
    case OnSave(data) => SignatureSave(props, st, data, id)
    case OnClose => SignatureClose(st)
  }

  /** Runs the pad's callbacks, in order, against the annotator. */
  function RunCallbacks(props: Props, st: Annotator, calls: seq<Callback>, id: string): Annotator
    decreases |calls|
  {
    if calls == [] then st
    else RunCallbacks(props, RunCallback(props, st, calls[0], id), calls[1..], id)
  }

  /** The callbacks of a successful save: store, then close. */
  lemma RunSaveThenClose(props: Props, st: Annotator, data: string, id: string)
    ensures RunCallbacks(props, st, [OnSave(data), OnClose], id)
            == SignatureClose(SignatureSave(props, st, data, id))
  {
    var calls := [OnSave(data), OnClose];
    assert calls[1..] == [OnClose];
    assert [OnClose][1..] == [];
  }

  /** One event. The toolbar and the steppers change only the viewer; the
      pointer and the pad change only the annotator. */
  function Step(s: Session, e: Event): (r: Session)
    requires s.view.scale != 0.0
    ensures e.PressTool? || e.StepPage? || e.StepZoom? ==> r.ann == s.ann
    ensures !(e.PressTool? || e.StepPage? || e.StepZoom?) ==> r.view == s.view
  {
    var props := PropsOf(s.view);
    match e
    case PointerDown(client, origin, id, reply) => s.(ann := MouseDown(props, s.ann, client, origin, id, reply))
    case PointerMove(client, origin) => s.(ann := MouseMove(props, s.ann, client, origin))
    case PointerUp => s.(ann := MouseUp(props, s.ann))
    case PadSave(pad, raster, id) => s.(ann := RunCallbacks(props, s.ann, Save(pad, raster), id))
    case PadCancel => s.(ann := RunCallbacks(props, s.ann, Cancel(), ""))
    case ClickBox(id) => s.(ann := SelectBox(s.ann, id))
    case PressTool(kind) => s.(view := s.view.(tool := ToggleTool(s.view.tool, kind)))
    case StepPage(delta) => s.(view := s.view.(pageNumber := ChangePage(s.view.pageNumber, delta, s.view.numPages)))
    case StepZoom(delta) => s.(view := s.view.(scale := ChangeScale(s.view.scale, delta)))
  }

  // ---------------------------------------------------------------------
  // The session invariant

  predicate ScaleOk(s: Session)
  {
    MinScale <= s.view.scale <= MaxScale
  }

  /** Everything a session keeps true:
      - the zoom and the page stay within their steppers' bounds;
      - the pad is open exactly when a signature position is pending;
      - a drag is in progress exactly when there is a draft, which is a
        highlight or underline with a rectangle of non-negative size whose
        id is not yet in the store;
      - stored ids are unique, every stored record lies on a page of the
        document, and every stored rectangle has positive size. */
  predicate Inv(s: Session)
  {
    var limit := PageLimit(s.view.numPages);
    && ScaleOk(s)
    && 1 <= s.view.pageNumber <= limit
    && (s.ann.padOpen <==> s.ann.pending.Some?)
    && (s.ann.drawing <==> s.ann.draft.Some?)
    && (s.ann.draft.Some? ==> DraftOk(s.ann.draft.value, s.ann.store, limit))
    && UniqueIds(s.ann.store)
    && (forall a :: a in s.ann.store ==> StoredOk(a, limit))
  }

  predicate DraftOk(d: Annotation, store: seq<Annotation>, limit: int)
  {
    && IsDragTool(d.kind)
    && d.rect.Some? && d.rect.value.width >= 0.0 && d.rect.value.height >= 0.0
    && d.id !in Ids(store)
    && 1 <= d.page <= limit
  }

  predicate StoredOk(a: Annotation, limit: int)
  {
    && 1 <= a.page <= limit
    && (a.rect.Some? ==> a.rect.value.width > 0.0 && a.rect.value.height > 0.0)
  }

  /** The ids an event brings are new: not in the store and not the
      draft's. The app draws them at random and does not check. */
  predicate Fresh(s: Session, e: Event)
  {
    match e
    case PointerDown(_, _, id, _) => FreshId(s, id)
    case PadSave(_, _, id) => FreshId(s, id)
    case _ => true
  }

  predicate FreshId(s: Session, id: string)
  {
    id !in Ids(s.ann.store) && (s.ann.draft.Some? ==> id != s.ann.draft.value.id)
  }

  lemma InitialInv(numPages: Option<nat>)
    ensures Inv(Initial(numPages))
  {
  }

  /** Every event keeps the zoom within its bounds. */
  lemma StepKeepsScale(s: Session, e: Event)
    requires ScaleOk(s)
    ensures ScaleOk(Step(s, e))
  {
    match e
    case StepZoom(delta) => ChangeScaleStaysInRange(s.view.scale, delta);
    case PointerDown(_, _, _, _) =>
    case PointerMove(_, _) =>
    case PointerUp =>
    case PadSave(pad, raster, id) =>
    case PadCancel =>
    case ClickBox(_) =>
    case PressTool(_) =>
    case StepPage(_) =>
  }

  /** Storing a record with a fresh id on a valid page keeps the store
      part of the invariant. */
  lemma AddKeepsStore(s: Session, a: Annotation)
    requires Inv(s) && a.id !in Ids(s.ann.store)
    requires StoredOk(a, PageLimit(s.view.numPages))
    ensures UniqueIds(Add(s.ann.store, a))
    ensures forall x :: x in Add(s.ann.store, a) ==> StoredOk(x, PageLimit(s.view.numPages))
    ensures s.ann.draft.Some? && s.ann.draft.value.id != a.id ==>
      s.ann.draft.value.id !in Ids(Add(s.ann.store, a))
  {
    AddFreshKeepsUnique(s.ann.store, a);
  }

  lemma PointerDownKeepsInv(s: Session, client: Point, origin: Point, id: string, reply: Option<string>)
    requires Inv(s) && FreshId(s, id)
    ensures Inv(Step(s, PointerDown(client, origin, id, reply)))
  {
    var props := PropsOf(s.view);
    if props.tool == Some(Comment) {
      var p := ToPageSpace(client, origin, props.scale);
      AddKeepsStore(s, NewComment(id, props, p, reply));
    }
  }

  lemma PointerMoveKeepsInv(s: Session, client: Point, origin: Point)
    requires Inv(s)
    ensures Inv(Step(s, PointerMove(client, origin)))
  {
    var props := PropsOf(s.view);
    if props.tool == Some(Signature) && s.ann.drawing && s.ann.draft.Some? {
      var p := ToPageSpace(client, origin, props.scale);
      var moved := s.ann.draft.value.(rect := Some(BoundingBox(s.ann.path + [p])));
      UpdateAbsentIsIdentity(s.ann.store, moved);
    }
  }

  lemma PointerUpKeepsInv(s: Session)
    requires Inv(s)
    ensures Inv(Step(s, PointerUp))
  {
    var props := PropsOf(s.view);
    if props.tool.Some? && s.ann.drawing && s.ann.draft.Some? && HasArea(s.ann.draft.value) {
      AddKeepsStore(s, s.ann.draft.value);
    }
  }

  lemma PadSaveKeepsInv(s: Session, pad: Pad, raster: Raster, id: string)
    requires Inv(s) && FreshId(s, id)
    ensures Inv(Step(s, PadSave(pad, raster, id)))
  {
    var props := PropsOf(s.view);
    var calls := Save(pad, raster);
    if calls != [] && s.ann.pending.Some? {
      var sig := NewSignature(id, props, s.ann.pending.value, calls[0].data);
      AddKeepsStore(s, sig);
      RunSaveThenClose(props, s.ann, calls[0].data, id);
    } else if calls != [] {
      RunSaveThenClose(props, s.ann, calls[0].data, id);
    }
  }

  /** Every event, given fresh ids, keeps the session invariant. */
  lemma StepKeepsInv(s: Session, e: Event)
    requires Inv(s) && Fresh(s, e)
    ensures Inv(Step(s, e))
  {
    match e
    case PointerDown(client, origin, id, reply) => PointerDownKeepsInv(s, client, origin, id, reply);
    case PointerMove(client, origin) => PointerMoveKeepsInv(s, client, origin);
    case PointerUp => PointerUpKeepsInv(s);
    case PadSave(pad, raster, id) => PadSaveKeepsInv(s, pad, raster, id);
    case PadCancel =>
    case ClickBox(_) =>
    case PressTool(_) =>
    case StepPage(delta) => ChangePageStaysInRange(s.view.pageNumber, delta, s.view.numPages);
    case StepZoom(delta) => ChangeScaleStaysInRange(s.view.scale, delta);
  }

  /** The session after a sequence of events. */
  function Run(s: Session, events: seq<Event>): (r: Session)
    requires ScaleOk(s)
    ensures ScaleOk(r)
    decreases |events|
  {
    if events == [] then s
    else
      StepKeepsScale(s, events[0]);
      Run(Step(s, events[0]), events[1..])
  }

  /** Every event of the run brings fresh ids. */
  predicate FreshRun(s: Session, events: seq<Event>)
    requires ScaleOk(s)
    decreases |events|
  {
    events == [] ||
    (Fresh(s, events[0]) && (StepKeepsScale(s, events[0]); FreshRun(Step(s, events[0]), events[1..])))
  }

  /** Whatever the user does, given fresh ids, the invariant holds. */
  lemma {:induction false} RunKeepsInv(s: Session, events: seq<Event>)
    requires Inv(s) && FreshRun(s, events)
    ensures Inv(Run(s, events))
    decreases |events|
  {
    if events != [] {
      StepKeepsInv(s, events[0]);
      StepKeepsScale(s, events[0]);
      RunKeepsInv(Step(s, events[0]), events[1..]);
    }
  }

  // ---------------------------------------------------------------------
  // Consequences

  /** A document with at least the pages the viewer knows of always
      exports: no stored record refers to a missing page. */
  lemma ExportNeverAborts(s: Session, pageHeights: seq<real>, decodable: string -> bool)
    requires Inv(s)
    requires |pageHeights| >= PageLimit(s.view.numPages)
    ensures ExportDocument(Loaded(pageHeights, true), s.ann.store, decodable).Written?
  {
    forall a | a in s.ann.store ensures 1 <= a.page <= |pageHeights| {
      assert StoredOk(a, PageLimit(s.view.numPages));
    }
  }

  /** The tool does not change while the pointer is used, so a draft
      always belongs to the active tool. */
  predicate Steady(s: Session)
  {
    s.ann.draft.Some? ==> s.view.tool == Some(s.ann.draft.value.kind)
  }

  /** Every event other than a tool button keeps the draft tied to the
      active tool. */
  lemma StepKeepsSteady(s: Session, e: Event)
    requires Inv(s) && Steady(s) && !e.PressTool?
    ensures Steady(Step(s, e))
  {
    match e
    case PadSave(pad, raster, id) =>
      var calls := Save(pad, raster);
      if calls != [] {
        RunSaveThenClose(PropsOf(s.view), s.ann, calls[0].data, id);
      }
    case PadCancel =>
      assert Cancel()[1..] == [];
    case _ =>
  }

  /** The signature branch of mouse-move (path collection and a store
      update) never runs unless the tool was switched in mid-drag: with the
      signature tool active, no drag is ever in progress. */
  lemma SignatureMoveUnreachable(s: Session, client: Point, origin: Point)
    requires Inv(s) && Steady(s) && s.view.tool == Some(Signature)
    ensures Step(s, PointerMove(client, origin)) == s
  {
  }

  /** Saving a non-empty pad whose raster is a non-empty data URL stores
      exactly one signature of fixed size at the pending point, then closes
      the pad. */
  lemma PadSaveStoresSignature(s: Session, pad: Pad, data: string, id: string)
    requires Inv(s) && s.ann.padOpen
    requires !pad.IsEmpty() && data != []
    ensures
      var r := Step(s, PadSave(pad, Returned(Some(data)), id)).ann;
      var at := s.ann.pending.value;
      && r.store == Add(s.ann.store, NewSignature(id, PropsOf(s.view), at, data))
      && r.store[|s.ann.store|].rect == Some(Rect(at.x, at.y, SignatureWidth, SignatureHeight))
      && !r.padOpen && r.pending.None?
  {
    var props := PropsOf(s.view);
    RunSaveThenClose(props, s.ann, data, id);
    CloseAfterSaveIsSave(props, s.ann, data, id);
  }

  /** A blocked save (empty pad, missing or empty raster, or a raster that
      threw) changes nothing: the pad stays open and the point pending. */
  lemma PadSaveBlockedChangesNothing(s: Session, pad: Pad, raster: Raster, id: string)
    requires ScaleOk(s)
    requires pad.IsEmpty() || raster.Threw? || !Truthy(raster.data)
    ensures Step(s, PadSave(pad, raster, id)) == s
  {
  }

  /** Cancelling the pad stores nothing and forgets the pending point. */
  lemma PadCancelStoresNothing(s: Session)
    requires ScaleOk(s)
    ensures Step(s, PadCancel).ann.store == s.ann.store
    ensures !Step(s, PadCancel).ann.padOpen && Step(s, PadCancel).ann.pending.None?
  {
  }

  /** A comment click from a valid session adds exactly one comment with a
      fresh id, selects it, and keeps the invariant. */
  lemma CommentClick(s: Session, client: Point, origin: Point, id: string, reply: Option<string>)
    requires Inv(s) && FreshId(s, id) && s.view.tool == Some(Comment)
    ensures
      var r := Step(s, PointerDown(client, origin, id, reply));
      && Inv(r)
      && |r.ann.store| == |s.ann.store| + 1
      && r.ann.store[|s.ann.store|].content == Some(CommentText(reply))
      && r.ann.selected == Some(id)
      && Ids(r.ann.store) == Ids(s.ann.store) + {id}
  {
    PointerDownKeepsInv(s, client, origin, id, reply);
  }

  /** Clicking a box selects its record: on every page, the overlay then
      marks exactly the boxes with that id, and the store is untouched. */
  lemma ClickBoxMarksOnlyIt(s: Session, id: string, page: int)
    requires ScaleOk(s)
    ensures Step(s, ClickBox(id)).ann.store == s.ann.store
    ensures var r := Step(s, ClickBox(id));
      var boxes := Render(r.ann.store, page, r.ann.selected);
      forall i :: 0 <= i < |boxes| ==> (boxes[i].selected <==> boxes[i].id == id)
  {
    var r := Step(s, ClickBox(id));
    var boxes, on := Render(r.ann.store, page, r.ann.selected), OnPage(r.ann.store, page);
    forall i | 0 <= i < |boxes| ensures boxes[i].selected <==> boxes[i].id == id {
      assert boxes[i] == LayoutAsWritten(on[i], Some(id));
    }
  }
}
