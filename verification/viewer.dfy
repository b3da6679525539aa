/** The viewer controls of the page: the page stepper, the zoom stepper and
    the four tool buttons. */
module Viewer {
  import opened Options
  import opened Annotations

  /** The colour picker's starting value. */
  const InitialColor: string := "#2196f3"

  /** The last page the stepper may reach: the document's page count, or 1
      while that count is unknown or zero (`numPages || 1`). */
  function PageLimit(numPages: Option<nat>): (n: nat)
    ensures n >= 1
    ensures numPages.Some? && numPages.value > 0 ==> n == numPages.value
    ensures numPages.None? || numPages.value == 0 ==> n == 1
  {
    match numPages
    case Some(k) => if k == 0 then 1 else k
    case None => 1
  }

  /** Moves `delta` pages from `prev`, keeping `prev` when the target lies
      outside `1 .. PageLimit(numPages)`. */
  function ChangePage(prev: int, delta: int, numPages: Option<nat>): (r: int)
    ensures r == prev || r == prev + delta
    ensures 1 <= prev + delta <= PageLimit(numPages) ==> r == prev + delta
    ensures r != prev ==> 1 <= r <= PageLimit(numPages)
  {
    var next := prev + delta;
    if next < 1 || next > PageLimit(numPages) then prev else next
  }

  /** A valid page stays valid whatever the step. */
  lemma ChangePageStaysInRange(prev: int, delta: int, numPages: Option<nat>)
    requires 1 <= prev <= PageLimit(numPages)
    ensures 1 <= ChangePage(prev, delta, numPages) <= PageLimit(numPages)
  {
  }

  /** A step that was taken is undone by the opposite step. */
  lemma ChangePageUndo(prev: int, delta: int, numPages: Option<nat>)
    requires 1 <= prev <= PageLimit(numPages)
    requires ChangePage(prev, delta, numPages) == prev + delta
    ensures ChangePage(ChangePage(prev, delta, numPages), -delta, numPages) == prev
  {
  }

  const MinScale: real := 0.5
  const MaxScale: real := 2.0

  /** Zooms by `delta`, keeping `prev` when the result would leave
      `[MinScale, MaxScale]`. */
  function ChangeScale(prev: real, delta: real): (r: real)
    ensures r == prev || r == prev + delta
    ensures MinScale <= prev + delta <= MaxScale ==> r == prev + delta
    ensures r != prev ==> MinScale <= r <= MaxScale
  {
    var next := prev + delta;
    if next < MinScale || next > MaxScale then prev else next
  }

  /** A scale in range stays in range, and so is never zero. */
  lemma ChangeScaleStaysInRange(prev: real, delta: real)
    requires MinScale <= prev <= MaxScale
    ensures MinScale <= ChangeScale(prev, delta) <= MaxScale
  {
  }

  /** Zooming in and back out returns exactly to the start (reals are
      exact; the app's floating-point steps are not). */
  lemma ChangeScaleUndo(prev: real, delta: real)
    requires MinScale <= prev <= MaxScale
    requires ChangeScale(prev, delta) == prev + delta
    ensures ChangeScale(ChangeScale(prev, delta), -delta) == prev
  {
  }

  /** Pressing the button of tool `pressed`: it switches that tool off
      when it is the active one, and makes it the active one otherwise. */
  function ToggleTool(current: Option<Kind>, pressed: Kind): (r: Option<Kind>)
    ensures r.None? <==> current == Some(pressed)
    ensures r.Some? ==> r.value == pressed
  {
    if current == Some(pressed) then None else Some(pressed)
  }

  /** Pressing the same button twice restores the active tool when it was
      that button's tool, and leaves no tool active otherwise. */
  lemma ToggleTwice(current: Option<Kind>, pressed: Kind)
    ensures ToggleTool(ToggleTool(current, pressed), pressed)
            == if current == Some(pressed) then current else None
  {
  }
}
