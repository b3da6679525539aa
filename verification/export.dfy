/** The export encoder: walks the store in order and turns each record into
    at most one drawing operation on its page, re-projected into the
    document's bottom-left-origin space. The document writer is abstract:
    the document is its list of page heights, embedding a signature raster
    is an oracle that may fail, and the written file is the operation list. */
module Export {
  import opened Options
  import opened Geometry
  import opened Annotations
  import opened Overlay

  datatype DrawOp =
    | FillRect(pageIndex: int, box: Rect, opacity: real, fill: string)
    | PlaceText(pageIndex: int, text: string, at: Point, size: real, fill: string)
    | PlaceImage(pageIndex: int, image: string, box: Rect)

  const DefaultColor: string := "#2196f3"
  const HighlightOpacity: real := 0.3
  const UnderlineOpacity: real := 0.7
  const CommentSize: real := 10.0

  /** The fill colour: the record's colour, or the default blue when it
      has none or an empty one. */
  function Fill(color: Option<string>): (f: string)
    ensures f != []
    ensures Truthy(color) ==> f == color.value
    ensures !Truthy(color) ==> f == DefaultColor
  {
    if Truthy(color) then color.value else DefaultColor
  }

  /** Highlights are translucent; everything else drawn as a rectangle
      (underlines) is nearly opaque. */
  function Opacity(k: Kind): (o: real)
    ensures 0.0 < o < 1.0
    ensures k == Highlight ==> o == HighlightOpacity
    ensures k != Highlight ==> o == UnderlineOpacity
  {
    if k == Highlight then HighlightOpacity else UnderlineOpacity
  }

  /** Whether the encoder draws anything for `a`: a highlight or underline
      needs a rectangle, a comment non-empty text, and a signature a
      non-empty raster, a rectangle and a raster the writer can embed. */
  predicate Drawn(a: Annotation, decodable: string -> bool)
  {
    match a.kind
    case Highlight => a.rect.Some?
    case Underline => a.rect.Some?
    case Comment => Truthy(a.content)
    case Signature => Truthy(a.signatureUrl) && a.rect.Some? && decodable(a.signatureUrl.value)
  }

  /** The operations for one record on a page of height `pageHeight`. Each
      operation, flipped back, lands exactly on the record's page-space
      geometry. */
  function EncodeOne(a: Annotation, pageHeight: real, decodable: string -> bool): (ops: seq<DrawOp>)
    ensures |ops| <= 1
    ensures ops != [] <==> Drawn(a, decodable)
    ensures forall op :: op in ops ==> op.pageIndex == a.page - 1
    ensures ops != [] && IsDragTool(a.kind) ==>
      ops[0].FillRect? && ops[0].opacity == Opacity(a.kind) && ops[0].fill == Fill(a.color)
    ensures ops != [] && a.kind == Comment ==>
      && ops[0].PlaceText? && ops[0].text == a.content.value
      && ops[0].size == CommentSize && ops[0].fill == Fill(a.color)
    ensures ops != [] && a.kind == Signature ==>
      ops[0].PlaceImage? && ops[0].image == a.signatureUrl.value
  {
    var index := a.page - 1;
    match a.kind
    case Highlight =>
      if a.rect.Some? then [FillRect(index, ExportRect(a.rect.value, pageHeight), Opacity(a.kind), Fill(a.color))] else []
    case Underline =>
      if a.rect.Some? then [FillRect(index, ExportRect(a.rect.value, pageHeight), Opacity(a.kind), Fill(a.color))] else []
    case Comment =>
      if Truthy(a.content) then [PlaceText(index, a.content.value, ExportPoint(a.position, pageHeight), CommentSize, Fill(a.color))] else []
    case Signature =>
      if Truthy(a.signatureUrl) && a.rect.Some? && decodable(a.signatureUrl.value)
      then [PlaceImage(index, a.signatureUrl.value, ExportRect(a.rect.value, pageHeight))]
      else []
  }

  /** Each operation, flipped back into page space, lands exactly on the
      record's geometry: the rectangle of a highlight, underline or
      signature, the anchor of a comment. */
  lemma EncodeOneLandsOnRecord(a: Annotation, pageHeight: real, decodable: string -> bool)
    requires Drawn(a, decodable)
    ensures var op := EncodeOne(a, pageHeight, decodable)[0];
      && (op.FillRect? || op.PlaceImage? ==> ExportRect(op.box, pageHeight) == a.rect.value)
      && (op.PlaceText? ==> ExportPoint(op.at, pageHeight) == a.position)
  {
    var op := EncodeOne(a, pageHeight, decodable)[0];
    if op.FillRect? || op.PlaceImage? {
      ExportInvolution(a.position, a.rect.value, pageHeight);
    } else {
      ExportInvolution(a.position, Rect(0.0, 0.0, 0.0, 0.0), pageHeight);
    }
  }

  /** Every record's page exists in a document of `count` pages. */
  predicate PagesIn(store: seq<Annotation>, count: int)
  {
    forall a :: a in store ==> 1 <= a.page <= count
  }

  /** The operations for the whole store, in store order, or None when
      some record's page is missing from the document (looking up its size
      fails, which ends the whole export). */
  function Encode(store: seq<Annotation>, pageHeights: seq<real>, decodable: string -> bool): (r: Option<seq<DrawOp>>)
    ensures r.Some? <==> PagesIn(store, |pageHeights|)
    ensures r.Some? ==> |r.value| <= |store|
  {
    if store == [] then Some([])
    else
      var a := store[0];
      if !(1 <= a.page <= |pageHeights|) then None
      else match Encode(store[1..], pageHeights, decodable)
        case None => None
        case Some(rest) => Some(EncodeOne(a, pageHeights[a.page - 1], decodable) + rest)
  }

  /** Every operation of a successful encoding targets an existing page. */
  lemma {:induction false} EncodeTargetsExistingPages(store: seq<Annotation>, pageHeights: seq<real>, decodable: string -> bool)
    requires PagesIn(store, |pageHeights|)
    ensures forall op :: op in Encode(store, pageHeights, decodable).value ==> 0 <= op.pageIndex < |pageHeights|
  {
    if store != [] {
      assert PagesIn(store[1..], |pageHeights|) by {
        forall a | a in store[1..] ensures 1 <= a.page <= |pageHeights| {
          assert a in store;
        }
      }
      EncodeTargetsExistingPages(store[1..], pageHeights, decodable);
    }
  }

  /** Two partial encodings joined; a failure on either side fails. */
  function Join(x: Option<seq<DrawOp>>, y: Option<seq<DrawOp>>): (r: Option<seq<DrawOp>>)
    ensures r.Some? <==> x.Some? && y.Some?
    ensures r.Some? ==> |r.value| == |x.value| + |y.value|
    ensures r.Some? ==> r.value == x.value + y.value
  {
    if x.Some? && y.Some? then Some(x.value + y.value) else None
  }

  /** Joining is associative. */
  lemma JoinAssociative(x: Option<seq<DrawOp>>, y: Option<seq<DrawOp>>, z: Option<seq<DrawOp>>)
    ensures Join(Join(x, y), z) == Join(x, Join(y, z))
  {
    if x.Some? && y.Some? && z.Some? {
      assert (x.value + y.value) + z.value == x.value + (y.value + z.value);
    }
  }

  /** The encoder's recursion on a non-empty store, as a join. */
  lemma EncodeFirst(s: seq<Annotation>, pageHeights: seq<real>, decodable: string -> bool)
    requires s != []
    ensures !(1 <= s[0].page <= |pageHeights|) ==> Encode(s, pageHeights, decodable).None?
    ensures 1 <= s[0].page <= |pageHeights| ==>
      Encode(s, pageHeights, decodable)
        == Join(Some(EncodeOne(s[0], pageHeights[s[0].page - 1], decodable)), Encode(s[1..], pageHeights, decodable))
  {
  }

  /** One step of the encoder: the first record's operations joined with
      the rest, provided its page exists. */
  lemma EncodeCons(a: Annotation, rest: seq<Annotation>, pageHeights: seq<real>, decodable: string -> bool)
    ensures !(1 <= a.page <= |pageHeights|) ==> Encode([a] + rest, pageHeights, decodable).None?
    ensures 1 <= a.page <= |pageHeights| ==>
      Encode([a] + rest, pageHeights, decodable)
        == Join(Some(EncodeOne(a, pageHeights[a.page - 1], decodable)), Encode(rest, pageHeights, decodable))
  {
    var s := [a] + rest;
    assert s[0] == a && s[1..] == rest;
    EncodeFirst(s, pageHeights, decodable);
    if 1 <= a.page <= |pageHeights| {
      var head := Some(EncodeOne(a, pageHeights[a.page - 1], decodable));
      assert head == Some(EncodeOne(s[0], pageHeights[s[0].page - 1], decodable));
      assert Encode(s, pageHeights, decodable) == Join(head, Encode(rest, pageHeights, decodable));
    }
  }

  /** Joining with an empty store's encoding changes nothing. */
  lemma EncodeAppendEmpty(t: seq<Annotation>, pageHeights: seq<real>, decodable: string -> bool)
    ensures Encode([] + t, pageHeights, decodable) == Join(Encode([], pageHeights, decodable), Encode(t, pageHeights, decodable))
  {
    assert [] + t == t;
    var right := Encode(t, pageHeights, decodable);
    if right.Some? {
      assert [] + right.value == right.value;
    }
  }

  /** The inductive step of EncodeAppend: if it holds for the tail of `s`,
      it holds for `s`. */
  lemma EncodeAppendStep(a: Annotation, s: seq<Annotation>, t: seq<Annotation>, pageHeights: seq<real>, decodable: string -> bool)
    requires Encode(s + t, pageHeights, decodable)
             == Join(Encode(s, pageHeights, decodable), Encode(t, pageHeights, decodable))
    ensures Encode([a] + s + t, pageHeights, decodable)
            == Join(Encode([a] + s, pageHeights, decodable), Encode(t, pageHeights, decodable))
  {
    assert [a] + s + t == [a] + (s + t);
    EncodeCons(a, s, pageHeights, decodable);
    EncodeCons(a, s + t, pageHeights, decodable);
    if 1 <= a.page <= |pageHeights| {
      var head := Some(EncodeOne(a, pageHeights[a.page - 1], decodable));
      JoinAssociative(head, Encode(s, pageHeights, decodable), Encode(t, pageHeights, decodable));
    }
  }

  /** Records are encoded in store order: encoding a concatenation joins
      the two encodings. */
  lemma {:induction false} EncodeAppend(s: seq<Annotation>, t: seq<Annotation>, pageHeights: seq<real>, decodable: string -> bool)
    ensures Encode(s + t, pageHeights, decodable) == Join(Encode(s, pageHeights, decodable), Encode(t, pageHeights, decodable))
  {
    if s == [] {
      EncodeAppendEmpty(t, pageHeights, decodable);
    } else {
      EncodeAppend(s[1..], t, pageHeights, decodable);
      EncodeAppendStep(s[0], s[1..], t, pageHeights, decodable);
      assert s == [s[0]] + s[1..];
    }
  }

  /** The number of records the encoder draws. */
  function CountDrawn(store: seq<Annotation>, decodable: string -> bool): (n: nat)
    ensures n <= |store|
  {
    if store == [] then 0 else (if Drawn(store[0], decodable) then 1 else 0) + CountDrawn(store[1..], decodable)
  }

  /** One operation per drawn record, none for the others. */
  lemma {:induction false} EncodeCountsDrawn(store: seq<Annotation>, pageHeights: seq<real>, decodable: string -> bool)
    requires PagesIn(store, |pageHeights|)
    ensures |Encode(store, pageHeights, decodable).value| == CountDrawn(store, decodable)
  {
    if store != [] {
      assert PagesIn(store[1..], |pageHeights|) by {
        forall a | a in store[1..] ensures 1 <= a.page <= |pageHeights| {
          assert a in store;
        }
      }
      EncodeCountsDrawn(store[1..], pageHeights, decodable);
    }
  }

  /** A signature whose raster cannot be embedded is skipped on its own:
      the records around it are encoded exactly as if it were absent. */
  lemma EncodeSkipsUndecodable(s: seq<Annotation>, sig: Annotation, t: seq<Annotation>,
                               pageHeights: seq<real>, decodable: string -> bool)
    requires sig.kind == Signature && sig.signatureUrl.Some? && !decodable(sig.signatureUrl.value)
    requires 1 <= sig.page <= |pageHeights|
    ensures Encode(s + [sig] + t, pageHeights, decodable) == Encode(s + t, pageHeights, decodable)
  {
    var left, right := Encode(s, pageHeights, decodable), Encode(t, pageHeights, decodable);
    assert Encode([sig], pageHeights, decodable) == Some([]) by {
      assert [sig][1..] == [];
    }
    EncodeAppend(s, [sig], pageHeights, decodable);
    assert Encode(s + [sig], pageHeights, decodable) == left by {
      if left.Some? {
        assert left.value + [] == left.value;
      }
    }
    EncodeAppend(s + [sig], t, pageHeights, decodable);
    EncodeAppend(s, t, pageHeights, decodable);
  }

  /** Where the document comes from: no file chosen, a file the writer
      cannot load, or a loaded document (its page heights, and whether
      saving it succeeds). */
  datatype Source = NoFile | Unloadable | Loaded(pageHeights: seq<real>, saves: bool)

  /** The result of an export: nothing done, aborted (the error is logged
      and no file is offered), or the written document. */
  datatype Outcome = Skipped | Aborted | Written(ops: seq<DrawOp>)

  function ExportDocument(src: Source, store: seq<Annotation>, decodable: string -> bool): (o: Outcome)
    ensures o.Skipped? <==> src.NoFile?
    ensures src.Unloadable? ==> o.Aborted?
    ensures src.Loaded? ==> (o.Written? <==> src.saves && PagesIn(store, |src.pageHeights|))
    ensures o.Written? ==> src.Loaded? && Encode(store, src.pageHeights, decodable) == Some(o.ops)
    ensures o.Written? ==> |o.ops| == CountDrawn(store, decodable)
  {
    match src
    case NoFile => Skipped
    case Unloadable => Aborted
    case Loaded(heights, saves) =>
      match Encode(store, heights, decodable)
      case None => Aborted
      case Some(ops) =>
        EncodeCountsDrawn(store, heights, decodable);
        if saves then Written(ops) else Aborted
  }

  /** A page of height 800 with the comment "Review" placed at (100,50):
      the text is drawn at (100,750) on the first page, at size 10. */
  lemma CommentScenario(id: string)
    ensures
      var c := Annotation(id, Comment, 1, Point(100.0, 50.0), Some("Review"), Some("#2196f3"), None, None);
      ExportDocument(Loaded([800.0], true), [c], _ => true)
        == Written([PlaceText(0, "Review", Point(100.0, 750.0), CommentSize, "#2196f3")])
  {
    var c := Annotation(id, Comment, 1, Point(100.0, 50.0), Some("Review"), Some("#2196f3"), None, None);
    assert [c][1..] == [];
  }

  /** A highlight's rectangle, flipped back from the exported operation,
      is exactly the box the overlay draws for it. */
  lemma ExportMatchesOverlay(a: Annotation, pageHeight: real, decodable: string -> bool, selectedId: Option<string>)
    requires a.kind != Comment && Drawn(a, decodable)
    ensures ExportRect(EncodeOne(a, pageHeight, decodable)[0].box, pageHeight) == Area(Layout(a, selectedId)).value
  {
    EncodeOneLandsOnRecord(a, pageHeight, decodable);
  }
}
