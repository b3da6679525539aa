# PDF annotator: capture, store, overlay and export, in Dafny

This project models the logic of a small browser PDF annotator. A user picks a tool: highlight, underline, comment or signature. They then press, drag and release the pointer over a rendered page. The resulting annotations are shown over the page, and on request they are baked into a copy of the PDF. All coordinates are exact `real`s.

The modules follow the program's parts:

- `Geometry` (`geometry.dfy`) covers points and rectangles. It has the pointer-to-page transform, dividing by the zoom factor. It has the y-flip into the PDF's bottom-left-origin space. It also builds the rectangle of a drag and the bounding box of a signature path.
- `Annotations` (`annotations.dfy`) is the annotation record. It keeps the app's shape: one record with optional per-kind fields.
- `Store` (`store.dfy`) is the page's ordered list of records. It has append, replace-by-id and the per-page filter.
- `Viewer` (`viewer.dfy`) holds the bounded page and zoom steppers and the tool buttons.
- `Capture` (`capture.dfy`) is the annotator's mouse-down, mouse-move and mouse-up handlers as pure transitions. It also has the signature pad's save and close callbacks.
- `SignaturePad` (`signature_pad.dfy`) models the pad dialog's Save, Cancel and Clear buttons. Each button's effect is the list of callbacks it invokes.
- `Overlay` (`overlay.dfy`) is the read-only layout of the current page's records.
- `Export` (`export.dfy`) is the encoder. It turns the store into drawing operations on the PDF's pages.
- `Session` (`session.dfy`) combines everything into one event-driven state machine. It proves an invariant that every run with fresh ids keeps.

External collaborators are parameters:

- the page surface's screen origin;
- the comment prompt's reply;
- the generated ids;
- whether the pad's raster export returned data or threw;
- whether the PDF writer can embed a signature raster;
- the loaded document, given as its page heights.

### Behaviour worth noting

- While dragging a highlight or underline, mouse-move changes only the annotator's draft. The store is not written until release, when the draft is appended. Only the signature branch of mouse-move calls the store's update (`app/components/pdf-annotator.tsx:132-147`).
- An underline's top is the upper of the anchor's and the pointer's y positions (`app/components/pdf-annotator.tsx:137`).
- Pressing Save on an empty pad does nothing. The pad stays open and the pending position is kept (`app/components/signature-canvas.tsx:19-21`).
- The overlay places every box at the record's `position`, even when the rectangle starts elsewhere. `Overlay.Render` models this. See Findings.
- A record whose page is missing from the loaded PDF makes the page lookup throw. That ends the whole export, and no file is offered (`app/page.tsx:112-113`, `187-189`).

## Model

| member | source | states |
|---|---|---|
| Geometry.ToPageSpace | app/components/pdf-annotator.tsx:70-72 | the page point, scaled by the zoom and shifted by the surface origin, gives back the pointer position |
| Geometry.ToViewport | app/components/pdf-annotator.tsx:218 | a page point drawn at zoom `scale` maps back to that page point |
| Geometry.PageSpaceRoundTrip | app/components/pdf-annotator.tsx:106-108 | for any non-zero zoom, pointer-to-page and page-to-screen are mutually inverse |
| Geometry.ExportPoint | app/page.tsx:136-137 | the comment anchor is flipped: x is kept, and the old and new y add up to the page height |
| Geometry.ExportRect | app/page.tsx:119-125 | the flipped rectangle keeps x and size, and its top edge is the flipped top edge; a point lies in the page-space rectangle exactly when its flip lies in the export rectangle |
| Geometry.ExportInvolution | app/page.tsx:121-125 | flipping a point or rectangle twice gives it back |
| Geometry.DragRect | app/components/pdf-annotator.tsx:133-143 | the drag rectangle spans both x positions, with each side on one of them; a highlight also spans both y positions; an underline has height 2 with its top at the upper y; width is zero exactly when the x positions agree, and a highlight's height is zero exactly when the y positions agree |
| Geometry.DragRectSymmetric | app/components/pdf-annotator.tsx:136-142 | a highlight's rectangle does not depend on which end the drag began at |
| Geometry.Lowest | app/components/pdf-annotator.tsx:115 | the minimum is one of the values and lies below all of them |
| Geometry.Highest | app/components/pdf-annotator.tsx:116 | the maximum is one of the values and lies above all of them |
| Geometry.BoundingBox | app/components/pdf-annotator.tsx:114-127 | the signature path's box contains every point, and each edge touches a point |
| Geometry.BoundingBoxIsSmallest | app/components/pdf-annotator.tsx:114-127 | every rectangle holding all path points holds the bounding box |
| Geometry.HighlightRectIsBoundingBox | app/components/pdf-annotator.tsx:136-142 | a highlight's drag rectangle equals the bounding box of its two ends |
| Store.Add | app/page.tsx:90-92 | the store grows by one; earlier records keep their places, the new record is last, and its id joins the ids |
| Store.AddFreshKeepsUnique | app/page.tsx:90-92 | appending a record whose id is new keeps the ids unique |
| Store.Update | app/page.tsx:94-100 | length is kept; records with the updated id become the update, and every other record is unchanged at its index |
| Store.UpdateAbsentIsIdentity | app/page.tsx:94-100 | an update whose id is absent leaves the store unchanged |
| Store.UpdateIdempotent | app/page.tsx:94-100 | applying the same update twice equals applying it once |
| Store.UpdateKeepsIds | app/page.tsx:94-100 | an update neither adds nor removes ids |
| Store.UpdateAppend | app/page.tsx:94-100 | updating a concatenation updates each part on its own |
| Store.UpdateAfterAdd | app/page.tsx:90-100 | updating after an append equals appending the updated record after updating the rest |
| Store.OnPage | app/components/pdf-annotator.tsx:220-221 | the page view holds exactly the store's records of that page |
| Store.OnPageAppend | app/components/pdf-annotator.tsx:220-221 | the filter distributes over concatenation, so store order is kept |
| Store.OnPageAfterAdd | app/components/pdf-annotator.tsx:220-221 | an added record joins the end of its own page's view; every other page's view is unchanged |
| Store.OnPageKeepsMultiplicity | app/components/pdf-annotator.tsx:220-221 | each record of the page appears as often as in the store; records of other pages do not appear |
| Store.OnPageIdempotent | app/components/pdf-annotator.tsx:220-221 | filtering twice equals filtering once |
| Viewer.PageLimit | app/page.tsx:77 | the page limit is the page count, or 1 while the count is unknown or zero |
| Viewer.ChangePage | app/page.tsx:74-80 | the result is the old page or the target; the target is taken whenever it lies in `1..limit`; any move lands in range |
| Viewer.ChangePageStaysInRange | app/page.tsx:74-80 | from a valid page, every step ends on a valid page |
| Viewer.ChangePageUndo | app/page.tsx:349-365 | a Next that moved is undone by a Previous, and vice versa |
| Viewer.ChangeScale | app/page.tsx:82-88 | the result is the old zoom or the target; the target is taken whenever it lies in `[0.5, 2]`; any change lands in range |
| Viewer.ChangeScaleStaysInRange | app/page.tsx:82-88 | a zoom in range stays in range, so it is never zero |
| Viewer.ChangeScaleUndo | app/page.tsx:367-373 | a zoom step that was taken is undone exactly by the opposite step |
| Viewer.ToggleTool | app/page.tsx:249-251 | pressing tool `t` gives no tool exactly when `t` was active, and `t` otherwise |
| Viewer.ToggleTwice | app/page.tsx:245-304 | pressing a button twice restores that tool if it was active, and otherwise leaves no tool |
| Capture.CommentText | app/components/pdf-annotator.tsx:75 | the comment text is the prompt's non-empty reply, or "Comment" when the reply is empty or cancelled |
| Capture.MouseDown | app/components/pdf-annotator.tsx:67-101 | with no tool, nothing changes. A comment appends one record at the page point and selects it, changing nothing else. A signature records the pending point and opens the pad, unless the pad is already open; the store is untouched. Highlight and underline start a drag with a zero-size draft at the point, in the current page and colour, and the store is untouched. The new comment carries the current colour |
| Capture.MouseMove | app/components/pdf-annotator.tsx:103-148 | a move is ignored without a tool, a drag or a draft. A highlight or underline move sets only the draft's rectangle to the drag rectangle and its colour to the current colour; id, page and position are kept and the store is untouched. A signature move extends the path, sets the draft to the path's bounding box and writes it through the store's update |
| Capture.MouseUp | app/components/pdf-annotator.tsx:150-159 | the draft is appended exactly when a drag is in progress and its rectangle has non-zero width and height; the drag state is always cleared; selection and pad are untouched |
| Capture.SignatureSave | app/components/pdf-annotator.tsx:184-211 | with no pending point, nothing changes. Otherwise one signature record is appended at the pending point with a 200×100 rectangle and the raster data; the pad is hidden and the pending point cleared, and nothing else changes |
| Capture.SignatureClose | app/components/pdf-annotator.tsx:278-281 | the pad is hidden and the pending point cleared; nothing else changes |
| Capture.SelectBox | app/components/pdf-annotator.tsx:228 | a click on a box makes its id the selected one and changes nothing else |
| Capture.CloseAfterSaveIsSave | app/components/pdf-annotator.tsx:208-210 | the close that follows a successful save changes nothing more |
| Capture.LastMoveWins | app/components/pdf-annotator.tsx:132-147 | two moves in a drag leave the same state as the last move alone |
| Capture.ClickWithoutDragAddsNothing | app/components/pdf-annotator.tsx:150-159 | a press and release with no move never stores a highlight or underline |
| Capture.DragGesture | app/components/pdf-annotator.tsx:89-159 | press, move and release store a highlight exactly when the ends differ in both coordinates, and an underline exactly when they differ in x. What is stored is the draft spanning the ends; otherwise the store is unchanged |
| Capture.HighlightScenario | app/components/pdf-annotator.tsx:133-143 | a highlight dragged from (50,50) to (150,90) stores the rectangle (50,50,100,40) |
| Capture.UnderlineScenario | app/components/pdf-annotator.tsx:139-142 | a level underline from (50,50) to (150,50) is stored with height 2 |
| SignaturePad.Save | app/components/signature-canvas.tsx:18-31 | an empty pad invokes nothing. A callback runs exactly when the pad has strokes and the raster came back as a non-empty string; then it is `onSave(data)` followed by `onClose`, and a missing, empty or throwing raster invokes nothing |
| SignaturePad.Cancel | app/components/signature-canvas.tsx:61-63 | cancel invokes exactly one callback, and it is `onClose` |
| SignaturePad.Clear | app/components/signature-canvas.tsx:33-37 | clear empties the pad and invokes no callback |
| SignaturePad.SaveAfterClearIsBlocked | app/components/signature-canvas.tsx:18-21 | Save right after Clear invokes nothing |
| Overlay.Area | app/components/pdf-annotator.tsx:229-238 | a box covers an area exactly when it is sized, and the area starts at the box's corner |
| Overlay.Decorate | app/components/pdf-annotator.tsx:223-263 | a box gets the record's id and kind. It gets a width and a height exactly when the record has a rectangle, and they are that rectangle's; a comment without a rectangle gets neither. Its background is the record's colour, except none for signatures. It is selected exactly when its id is the selected one. Comments get a bubble showing their text, or nothing when there is none. Signatures with a raster get an image showing that raster |
| Overlay.LayoutAsWritten | app/components/pdf-annotator.tsx:229-238 | the box's corner is always the record's position, and its size is the rectangle's |
| Overlay.Layout | app/components/pdf-annotator.tsx:229-238 | corrected layout: a record with a rectangle covers exactly that rectangle; a point record sits at its position, unsized |
| Overlay.LayoutsAgreeAtAnchor | app/components/pdf-annotator.tsx:229-238 | both layouts agree whenever the rectangle starts at the position, as for signatures and lower-right drags |
| Overlay.BoxDrawnAtPress | app/components/pdf-annotator.tsx:218-232 | the zoomed layer draws a record's box corner on screen exactly where the press that made the record happened |
| Overlay.Render | app/components/pdf-annotator.tsx:220-265 | one box per record of the current page, in store order; each is placed as the overlay places it, at the record's position with the rectangle's size |
| Overlay.RenderAfterAdd | app/components/pdf-annotator.tsx:220-222 | after an append, the old boxes are unchanged, and the new record's box comes last exactly when it is on the shown page |
| Overlay.RenderShowsEveryRecord | app/components/pdf-annotator.tsx:220-222 | every record of the shown page has its box |
| Overlay.RenderIds | app/components/pdf-annotator.tsx:220-224 | the box ids are exactly the ids of the shown page's records |
| Overlay.RenderAgreesWhenAnchored | app/components/pdf-annotator.tsx:229-238 | when every rectangle on the page starts at its record's position, the rendered boxes equal the corrected layout's |
| Overlay.LayoutAsWrittenMisplacesUpLeftDrag | app/components/pdf-annotator.tsx:231-232 | a highlight dragged from (150,90) to (50,50) is stored as (50,50,100,40), but drawn over (150,90,100,40), which misses the drag's end point |
| Overlay.LayoutCoversDrag | app/components/pdf-annotator.tsx:229-238 | the corrected box covers both ends of every highlight drag, and both ends' x positions for an underline |
| Export.Fill | app/page.tsx:120 | the fill is the record's colour, or `#2196f3` when it is missing or empty |
| Export.Opacity | app/page.tsx:126 | highlights are drawn at opacity 0.3 and underlines at 0.7 |
| Export.EncodeOne | app/page.tsx:111-170 | at most one operation, drawn exactly when the record qualifies, and always on page index `page - 1`. A highlight or underline becomes a filled rectangle with opacity by kind and the record's fill. A comment becomes its text at size 10. A signature becomes its raster |
| Export.EncodeOneLandsOnRecord | app/page.tsx:118-164 | each operation, flipped back into page space, lands exactly on the record: the rectangle of a highlight, underline or signature, the anchor of a comment |
| Export.Encode | app/page.tsx:111-113 | encoding succeeds exactly when every record's page exists, with at most one operation per record |
| Export.EncodeTargetsExistingPages | app/page.tsx:111-113 | every operation of a successful encoding targets an existing page |
| Export.EncodeAppend | app/page.tsx:111 | encoding a concatenation joins the encodings, so records are drawn in store order |
| Export.CountDrawn | app/page.tsx:111-170 | the drawn count never exceeds the store size |
| Export.EncodeCountsDrawn | app/page.tsx:111-170 | one operation is emitted per qualifying record, and none for the others |
| Export.EncodeSkipsUndecodable | app/page.tsx:144-168 | a signature whose raster cannot be embedded is skipped alone; the records around it encode as if it were absent |
| Export.ExportDocument | app/page.tsx:102-190 | with no file, nothing happens; an unloadable file aborts. A loaded file is written exactly when it saves and every record's page exists, and the written operations are exactly the store's encoding, one per qualifying record |
| Export.CommentScenario | app/page.tsx:132-141 | the comment "Review" at (100,50) on an 800-high page is drawn at (100,750), size 10 |
| Export.ExportMatchesOverlay | app/page.tsx:118-164 | a drawn rectangle or signature, flipped back, is exactly the corrected overlay box |
| Session.RunSaveThenClose | app/components/signature-canvas.tsx:23-26 | the pad's successful save runs the annotator's save, then its close |
| Session.Step | app/page.tsx:74-100 | toolbar and stepper events change only the viewer; pointer, box-click and pad events change only the annotator |
| Session.InitialInv | app/page.tsx:28-40 | the freshly opened session satisfies the invariant |
| Session.StepKeepsScale | app/page.tsx:82-88 | no event takes the zoom outside `[0.5, 2]` |
| Session.AddKeepsStore | app/page.tsx:90-92 | appending a fresh-id record on a valid page with a positive rectangle keeps ids unique and every stored record valid |
| Session.PointerDownKeepsInv | app/components/pdf-annotator.tsx:67-101 | mouse-down with a fresh id keeps the invariant |
| Session.PointerMoveKeepsInv | app/components/pdf-annotator.tsx:103-148 | mouse-move keeps the invariant; the signature branch's store update is a no-op, since the draft's id is not stored |
| Session.PointerUpKeepsInv | app/components/pdf-annotator.tsx:150-159 | mouse-up keeps the invariant; only positive-size drafts are stored |
| Session.PadSaveKeepsInv | app/components/pdf-annotator.tsx:184-211 | a pad save with a fresh id keeps the invariant |
| Session.StepKeepsInv | app/components/pdf-annotator.tsx:64-182 | every event with fresh ids keeps the invariant. The pad is open exactly when a point is pending. A drag is in progress exactly when there is a draft. Stored ids are unique, stored pages are valid, and stored rectangles have positive size |
| Session.Run | app/page.tsx:82-88 | any run of events keeps the zoom in range |
| Session.RunKeepsInv | app/components/pdf-annotator.tsx:64-182 | every run of events with fresh ids keeps the invariant |
| Session.ExportNeverAborts | app/page.tsx:111-113 | with a document of at least the viewer's page count, no record's page lookup fails, so a saving document is written with the session's store encoded |
| Session.StepKeepsSteady | app/components/pdf-annotator.tsx:89-100 | every event except a tool button keeps the draft's kind equal to the active tool |
| Session.SignatureMoveUnreachable | app/components/pdf-annotator.tsx:110-131 | unless the tool changes mid-drag, a mouse-move with the signature tool changes nothing |
| Session.PadSaveStoresSignature | app/components/signature-canvas.tsx:18-31 | with the pad open, a save with strokes and non-empty data stores exactly one 200×100 signature at the pending point, closes the pad and clears the point |
| Session.PadSaveBlockedChangesNothing | app/components/signature-canvas.tsx:18-30 | if the pad is empty, or the raster is missing, empty or throws, the session is unchanged and the pad stays open |
| Session.PadCancelStoresNothing | app/components/pdf-annotator.tsx:278-281 | cancel keeps the store, hides the pad and clears the pending point |
| Session.CommentClick | app/components/pdf-annotator.tsx:74-85 | a comment click with a fresh id appends exactly one comment with the prompt's text, selects it, adds its id and keeps the invariant |
| Session.ClickBoxMarksOnlyIt | app/components/pdf-annotator.tsx:224-228 | after a box click the store is unchanged, and on every page exactly the boxes with the clicked id are marked selected |

## Left out

- React hooks, re-rendering and listener attach/detach are not modelled. A controller state with explicit transitions stands in for them. The listeners exist only while a tool is chosen, so every pointer event is a no-op without a tool. The `pageRef.current` null checks are taken as always passing.
- Math.random ids are taken as parameters. Uniqueness is a freshness precondition of the invariant lemmas, because the code does not guarantee it.
- The blocking `prompt` is replaced by its reply, passed in as an input.
- Capture.MouseDown, Capture.MouseMove: a zero zoom is excluded by precondition. JavaScript would produce Infinity there. The zoom stepper keeps the scale in `[0.5, 2]` (Session.StepKeepsScale).
- Colour conversion (`hexToRgb`, `rgb`, and dividing comment colours by 255) is left out. `app/lib/utils` is not part of this model. The encoder records the chosen colour string only.
- Export.Encode: the colour conversion and the draw calls for highlights, underlines and comments (`hexToRgb`, `rgb`, `page.drawRectangle`, `page.drawText`, `app/page.tsx:120-140`) are taken never to throw. In the app they sit outside the per-signature `try`, so a throw there (for example a comment text the default font cannot encode) reaches the outer catch at `app/page.tsx:187-189`, ends the whole export, and no file is offered. Session.ExportNeverAborts therefore promises only that no record's page lookup fails.
- Base64 decoding and PNG embedding are left out. They become the `decodable` oracle, and a failure skips that signature. pdf-lib's `load`, `getPages` and `save` become the `Source` value.
- Export.ExportDocument: the Blob, object URL and download link after a successful save are not modelled.
- File upload and drag-drop with MIME filtering are left out. So are the document-loaded event, the colour picker and its outside-click handler, the toaster and the sidebar list. The sidebar click that selects a record and jumps to its page is also out. The page count is fixed for a session, because no event reloads a document.
- pdf.js page rendering is not modelled. The overlay box's screen position is its page position scaled by the layer's zoom (Geometry.ToViewport, used by Overlay.BoxDrawnAtPress).
- The signature image's fixed on-screen 200×100 style is not modelled (`app/components/pdf-annotator.tsx:250-262`). Neither is pointer-events styling.
- Floating-point arithmetic is replaced by exact reals. Repeated ±0.1 zoom steps are exact here, and NaN is not modelled, so `rect.height || 0` is the height itself.
- The record's `text` field is omitted. No code reads or writes it.
- The concurrency of asynchronous exports is not modelled. Each export is one pure function.

## Findings

| source | as written | input that shows it | evidently intended | confidence | as-written member | corrected member |
|---|---|---|---|---|---|---|
| app/components/pdf-annotator.tsx:231-232 | the overlay box's corner is the record's `position`, which is where the drag began, with the rectangle's width and height | a highlight dragged from (150,90) to (50,50) is stored, and exported, as (50,50,100,40); the overlay draws it over (150,90)-(250,130), which misses the drag's end point | put the box at the rectangle's corner when there is one, so the overlay shows what export draws | medium; not executed | Overlay.LayoutAsWritten, Overlay.LayoutAsWrittenMisplacesUpLeftDrag | Overlay.Layout, Overlay.LayoutCoversDrag, Export.ExportMatchesOverlay |
