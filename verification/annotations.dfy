/** The annotation record shared by the store, the capture controller, the
    overlay and the export encoder. It keeps the app's shape: one record
    with optional per-kind fields, because the overlay and the encoder
    branch on whether a field is present rather than on the kind alone. */
module Annotations {
  import opened Options
  import opened Geometry

  /** The annotation kinds; the same four values name the tools. */
  datatype Kind = Highlight | Underline | Comment | Signature

  /** The tools that draw a rectangle by dragging. */
  predicate IsDragTool(k: Kind)
  {
    k == Highlight || k == Underline
  }

  datatype Annotation = Annotation(
    id: string,
    kind: Kind,
    page: int,                   // 1-based page number, fixed at creation
    position: Point,             // where the gesture began, page space
    content: Option<string>,     // comment text
    color: Option<string>,       // colour string as picked by the user
    rect: Option<Rect>,          // page-space bounds
    signatureUrl: Option<string> // raster payload of a signature
  )

  /** A draft whose rectangle has non-zero width and height; only such
      drafts are committed when the pointer is released. */
  predicate HasArea(a: Annotation)
  {
    a.rect.Some? && a.rect.value.width != 0.0 && a.rect.value.height != 0.0
  }
}
