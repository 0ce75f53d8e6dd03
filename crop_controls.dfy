/**
 * The transform-state rules both crop dialogs share: zoom buttons that step by 0.1 and
 * stop at a bound, rotation in whole 15-degree steps, and drag-panning.
 */
module CropControls {
  import opened Transform

  const ZoomStep := 0.1
  const RotationStep := 15.0

  /** The zoom-out button: `Math.max(lo, scale - 0.1)`. */
  function ZoomOut(s: real, lo: real): (r: real)
    ensures r >= lo && r >= s - ZoomStep
    ensures r == lo || r == s - ZoomStep
  {
    if s - ZoomStep >= lo then s - ZoomStep else lo
  }

  /** The zoom-in button: `Math.min(hi, scale + 0.1)`. */
  function ZoomIn(s: real, hi: real): (r: real)
    ensures r <= hi && r <= s + ZoomStep
    ensures r == hi || r == s + ZoomStep
  {
    if s + ZoomStep <= hi then s + ZoomStep else hi
  }

  /** Both buttons keep a scale inside [lo, hi] inside it, and never move it the wrong way. */
  lemma ZoomButtonsKeepRange(s: real, lo: real, hi: real)
    requires lo <= s <= hi
    ensures lo <= ZoomOut(s, lo) <= s
    ensures s <= ZoomIn(s, hi) <= hi
  {
  }

  /** A rotation that is a whole number of 15-degree steps. */
  predicate WholeSteps(r: real)
  {
    (r / RotationStep).Floor as real == r / RotationStep
  }

  /** One press of a rotate button keeps the rotation on the 15-degree grid. */
  lemma RotateKeepsSteps(r: real, delta: real)
    requires WholeSteps(r) && (delta == RotationStep || delta == -RotationStep)
    ensures WholeSteps(r + delta)
  {
    var n := (r / RotationStep).Floor;
    var m := if delta == RotationStep then n + 1 else n - 1;
    assert (r + delta) / RotationStep == m as real;
    FloorOfWhole(m);
  }

  lemma FloorOfWhole(m: int)
    ensures (m as real).Floor == m
  {
  }

  /** Mouse-down remembers where the pointer is relative to the image position. */
  function DragAnchor(pointer: Point, position: Point): Point
  {
    Minus(pointer, position)
  }

  /** A drag move places the image at the pointer minus the anchor. */
  function DraggedPosition(pointer: Point, anchor: Point): Point
  {
    Minus(pointer, anchor)
  }

  /** Dragging moves the image by exactly the pointer's displacement since mouse-down. */
  lemma DragFollowsPointer(start: Point, down: Point, pointer: Point)
    ensures DraggedPosition(pointer, DragAnchor(down, start)) == Plus(start, Minus(pointer, down))
  {
  }

  /** A move back to the mouse-down point leaves the image where it was. */
  lemma DragBackRestores(start: Point, down: Point)
    ensures DraggedPosition(down, DragAnchor(down, start)) == start
  {
  }
}
