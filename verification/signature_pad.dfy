/** The signature pad dialog: its Save, Cancel and Clear buttons. The pad's
    raster is an oracle: whether it is empty comes from its strokes, and
    what exporting it as a PNG data URL gave is passed in. The effect of a
    button is the sequence of callbacks it invokes, in order. */
module SignaturePad {
  import opened Options
  import opened Geometry

  /** The strokes drawn on the pad so far. */
  datatype Pad = Pad(strokes: seq<seq<Point>>) {
    predicate IsEmpty() { strokes == [] }
  }

  /** What asking the pad for its raster gave: a value that may be missing
      or empty, or an exception. */
  datatype Raster = Returned(data: Option<string>) | Threw

  /** The callbacks the dialog can invoke. */
  datatype Callback = OnSave(data: string) | OnClose

  /** Save: an empty pad blocks it; otherwise, when the raster is a
      non-empty string, the data is handed to `onSave` and then the dialog
      asks to be closed. A missing or empty raster, or an exception while
      producing it, invokes nothing. */
  function Save(pad: Pad, raster: Raster): (calls: seq<Callback>)
    ensures pad.IsEmpty() ==> calls == []
    ensures calls != [] <==> !pad.IsEmpty() && raster.Returned? && Truthy(raster.data)
    ensures calls != [] ==> calls == [OnSave(raster.data.value), OnClose]
  {
    if pad.IsEmpty() then []
    else match raster
      case Threw => []
      case Returned(data) => if Truthy(data) then [OnSave(data.value), OnClose] else []
  }

  /** Cancel invokes only the close callback. */
  function Cancel(): (calls: seq<Callback>)
    ensures forall c :: c in calls ==> c.OnClose?
    ensures |calls| == 1
  {
    [OnClose]
  }

  /** Clear wipes the strokes and invokes no callback. */
  function Clear(pad: Pad): (r: (Pad, seq<Callback>))
    ensures r.0.IsEmpty()
    ensures r.1 == []
  {
    (Pad([]), [])
  }

  /** Saving right after clearing is blocked, whatever the raster. */
  lemma SaveAfterClearIsBlocked(pad: Pad, raster: Raster)
    ensures Save(Clear(pad).0, raster) == []
  {
  }
}
