/** The arithmetic behind the note gestures and the viewport: the drag clamp to the
    5000 x 5000 workspace, the resize minimums, the multiplicative zoom steps with
    their [0.1, 5] clamp, and the scroll-based pan. Coordinates are exact reals. */
module Geometry {

  const WorkspaceSize: real := 5000.0
  const MinNoteWidth: real := 380.0
  const MinNoteHeight: real := 280.0
  const MinScale: real := 0.1
  const MaxScale: real := 5.0
  const ZoomInFactor: real := 1.1
  const ZoomOutFactor: real := 0.9

  /** `Math.min` and `Math.max` on two numbers. */
  function Min(a: real, b: real): real { if a <= b then a else b }
  function Max(a: real, b: real): real { if a >= b then a else b }

  // ---------------------------------------------------------------- drag

  /** `Math.max(0, Math.min(v, 5000 - size))`: keeps a note of extent `size` inside
      the workspace on one axis; an in-range value is kept, an out-of-range one goes
      to the nearer edge (to 0 when the note is wider than the workspace). */
  function ClampToWorkspace(v: real, size: real): (r: real)
    ensures 0.0 <= r
    ensures size <= WorkspaceSize ==> r <= WorkspaceSize - size
    ensures 0.0 <= v <= WorkspaceSize - size ==> r == v
    ensures v < 0.0 ==> r == 0.0
    ensures v > WorkspaceSize - size ==> r == Max(0.0, WorkspaceSize - size)
  {
    Max(0.0, Min(v, WorkspaceSize - size))
  }

  /** The workspace distance a mouse movement from `anchor` to `client` stands for
      at zoom `scale`: the screen distance divided by the scale. */
  function DragDelta(anchor: real, client: real, scale: real): (d: real)
    requires scale > 0.0
    ensures d * scale == client - anchor
    ensures client == anchor ==> d == 0.0
  {
    (client - anchor) / scale
  }

  /** One axis of a note being dragged: its position at gesture start plus the
      scale-divided mouse delta, clamped to the workspace. */
  function DragAxis(start: real, anchor: real, client: real, scale: real, size: real): (r: real)
    requires scale > 0.0
    ensures 0.0 <= r
    ensures size <= WorkspaceSize ==> r <= WorkspaceSize - size
    ensures 0.0 <= start + DragDelta(anchor, client, scale) <= WorkspaceSize - size
            ==> r == start + DragDelta(anchor, client, scale)
  {
    ClampToWorkspace(start + DragDelta(anchor, client, scale), size)
  }

  /** At zoom 2 a mouse delta of 100 screen pixels moves an unclamped note by 50. */
  lemma DragAtDoubleZoom(start: real, anchor: real, size: real)
    requires 0.0 <= start + 50.0 <= WorkspaceSize - size
    ensures DragAxis(start, anchor, anchor + 100.0, 2.0, size) == start + 50.0
  {
    assert DragDelta(anchor, anchor + 100.0, 2.0) == 50.0;
  }

  /** A drag whose mouse ends where it started leaves an in-bounds note where it was. */
  lemma DragWithoutMovement(start: real, anchor: real, scale: real, size: real)
    requires scale > 0.0 && 0.0 <= start <= WorkspaceSize - size
    ensures DragAxis(start, anchor, anchor, scale, size) == start
  {
  }

  // -------------------------------------------------------------- resize

  /** One dimension of a note being resized: its size at gesture start plus the raw
      (not scale-divided) mouse delta, floored at `minimum`; no maximum. */
  function ResizeAxis(startSize: real, anchor: real, client: real, minimum: real): (r: real)
    ensures r >= minimum && r >= startSize + (client - anchor)
    ensures r == minimum || r == startSize + (client - anchor)
  {
    Max(minimum, startSize + (client - anchor))
  }

  // ---------------------------------------------------------------- zoom

  /** Alt+wheel: scale by 0.9 when scrolling down (`deltaY > 0`), else by 1.1, then
      clamp to [0.1, 5]; whatever the current scale. */
  function WheelZoom(scale: real, deltaY: real): (r: real)
    ensures MinScale <= r <= MaxScale
    ensures var target := scale * (if deltaY > 0.0 then ZoomOutFactor else ZoomInFactor);
            && (MinScale <= target <= MaxScale ==> r == target)
            && (target > MaxScale ==> r == MaxScale)
            && (target < MinScale ==> r == MinScale)
    ensures deltaY > 0.0 && MinScale <= scale ==> r <= scale
    ensures deltaY <= 0.0 && 0.0 <= scale <= MaxScale ==> r >= scale
  {
    Min(Max(scale * (if deltaY > 0.0 then ZoomOutFactor else ZoomInFactor), MinScale), MaxScale)
  }

  /** The "+" button: scale by 1.1, capped at 5 (no lower clamp in the source). */
  function ZoomIn(scale: real): (r: real)
    ensures r <= MaxScale
    ensures MinScale <= scale ==> MinScale <= r
    ensures scale * ZoomInFactor <= MaxScale ==> r == scale * ZoomInFactor
    ensures scale * ZoomInFactor > MaxScale ==> r == MaxScale
    ensures 0.0 <= scale <= MaxScale ==> scale <= r
  {
    Min(scale * ZoomInFactor, MaxScale)
  }

  /** The "-" button: scale by 0.9, floored at 0.1 (no upper clamp in the source). */
  function ZoomOut(scale: real): (r: real)
    ensures MinScale <= r
    ensures scale <= MaxScale ==> r <= MaxScale
    ensures MinScale <= scale * ZoomOutFactor ==> r == scale * ZoomOutFactor
    ensures scale * ZoomOutFactor < MinScale ==> r == MinScale
    ensures MinScale <= scale ==> r <= scale
  {
    Max(scale * ZoomOutFactor, MinScale)
  }

  /** `k` presses of the "+" button, and of the "-" button. */
  function ZoomInTimes(scale: real, k: nat): real {
    if k == 0 then scale else ZoomIn(ZoomInTimes(scale, k - 1))
  }

  function ZoomOutTimes(scale: real, k: nat): real {
    if k == 0 then scale else ZoomOut(ZoomOutTimes(scale, k - 1))
  }

  /** Repeated zoom-in never leaves [0.1, 5] and never shrinks the view. */
  lemma {:induction false} RepeatedZoomInStaysInRange(scale: real, k: nat)
    requires MinScale <= scale <= MaxScale
    ensures scale <= ZoomInTimes(scale, k) <= MaxScale
  {
    if k > 0 {
      RepeatedZoomInStaysInRange(scale, k - 1);
    }
  }

  /** Repeated zoom-out never leaves [0.1, 5] and never enlarges the view. */
  lemma {:induction false} RepeatedZoomOutStaysInRange(scale: real, k: nat)
    requires MinScale <= scale <= MaxScale
    ensures MinScale <= ZoomOutTimes(scale, k) <= scale
  {
    if k > 0 {
      RepeatedZoomOutStaysInRange(scale, k - 1);
    }
  }

  /** Once at a bound, further steps in that direction stay there. */
  lemma ZoomSaturates(k: nat)
    ensures ZoomInTimes(MaxScale, k) == MaxScale
    ensures ZoomOutTimes(MinScale, k) == MinScale
  {
  }

  /** A zoom-out step followed by a zoom-in step is not the identity: 1 becomes 0.99,
      so the two buttons drift rather than undo each other. */
  lemma ZoomStepsDoNotCancel()
    ensures ZoomIn(ZoomOut(1.0)) == 0.99
  {
  }

  // ----------------------------------------------------------------- pan

  /** Pan gesture anchor: mouse position plus the container's scroll offset. */
  function PanAnchor(client: real, scroll: real): (anchor: real)
    ensures PanScroll(anchor, client) == scroll
  {
    client + scroll
  }

  /** Scroll offset while panning: anchor minus the current mouse position. */
  function PanScroll(anchor: real, client: real): (scroll: real)
    ensures scroll + client == anchor
  {
    anchor - client
  }

  /** Panning moves the content with the mouse: the scroll offset falls by exactly
      the mouse's displacement since the gesture started. */
  lemma PanFollowsMouse(scroll: real, down: real, now: real)
    ensures PanScroll(PanAnchor(down, scroll), now) == scroll - (now - down)
    ensures PanScroll(PanAnchor(down, scroll), down) == scroll
  {
  }
}
