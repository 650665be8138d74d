/** The workspace viewport: the zoom scale of the workspace transform and the
    scroll offset of its container, driven by Alt+wheel, the zoom buttons and the
    pan gesture on empty canvas. */
module PanZoom {
  import opened Geometry
  import opened AppState

  class Viewport {
    var scale: real
    /** The transform's translation; no handler changes it. */
    var panX: real
    var panY: real
    /** The container's `scrollLeft` and `scrollTop`. */
    var scrollLeft: real
    var scrollTop: real
    var isPanning: bool
    var panAnchorX: real
    var panAnchorY: real

    ghost predicate Valid()
      reads this
    {
      MinScale <= scale <= MaxScale
    }

    /** A fresh session: scale 1, no translation, not panning. */
    constructor (scrollLeft: real, scrollTop: real)
      ensures Valid() && scale == 1.0 && panX == 0.0 && panY == 0.0
      ensures this.scrollLeft == scrollLeft && this.scrollTop == scrollTop && !isPanning
    {
      scale, panX, panY := 1.0, 0.0, 0.0;
      this.scrollLeft, this.scrollTop := scrollLeft, scrollTop;
      isPanning := false;
      panAnchorX, panAnchorY := 0.0, 0.0;
    }

    /** Wheel over the workspace: in notes mode with Alt held, one zoom step (out
        for `deltaY > 0`, in otherwise) clamped to [0.1, 5]; otherwise nothing. */
    method Wheel(mode: Mode, altKey: bool, deltaY: real)
      modifies this`scale
      ensures mode == NotesMode && altKey ==> scale == WheelZoom(old(scale), deltaY)
      ensures !(mode == NotesMode && altKey) ==> scale == old(scale)
      ensures old(Valid()) ==> Valid()
    {
      if mode != NotesMode {
        return;
      }
      if altKey {
        scale := WheelZoom(scale, deltaY);
      }
    }

    /** The "+" button. */
    method ZoomInButton()
      requires Valid()
      modifies this`scale
      ensures Valid() && scale == ZoomIn(old(scale)) && scale >= old(scale)
    {
      scale := ZoomIn(scale);
    }

    /** The "-" button. */
    method ZoomOutButton()
      requires Valid()
      modifies this`scale
      ensures Valid() && scale == ZoomOut(old(scale)) && scale <= old(scale)
    {
      scale := ZoomOut(scale);
    }

    /** Mouse-down on empty canvas in notes mode starts panning, anchored at the
        mouse plus the current scroll offset; on a note card it does nothing. */
    method PanDown(mode: Mode, onNoteCard: bool, clientX: real, clientY: real)
      modifies this`isPanning, this`panAnchorX, this`panAnchorY
      ensures mode != NotesMode || onNoteCard ==>
                isPanning == old(isPanning) && panAnchorX == old(panAnchorX) && panAnchorY == old(panAnchorY)
      ensures mode == NotesMode && !onNoteCard ==>
                isPanning && panAnchorX == PanAnchor(clientX, scrollLeft)
                && panAnchorY == PanAnchor(clientY, scrollTop)
    {
      if mode != NotesMode || onNoteCard {
        return;
      }
      isPanning := true;
      panAnchorX := PanAnchor(clientX, scrollLeft);
      panAnchorY := PanAnchor(clientY, scrollTop);
    }

    /** A mouse move while panning sets the scroll offset to the anchor minus the
        mouse: the canvas follows the mouse. */
    method PanMove(clientX: real, clientY: real, containerMounted: bool)
      modifies this`scrollLeft, this`scrollTop
      ensures isPanning && containerMounted ==>
                scrollLeft == PanScroll(panAnchorX, clientX) && scrollTop == PanScroll(panAnchorY, clientY)
      ensures !(isPanning && containerMounted) ==>
                scrollLeft == old(scrollLeft) && scrollTop == old(scrollTop)
    {
      if !isPanning || !containerMounted {
        return;
      }
      scrollLeft := PanScroll(panAnchorX, clientX);
      scrollTop := PanScroll(panAnchorY, clientY);
    }

    /** Mouse-up or the mouse leaving the container ends panning. */
    method PanUp()
      modifies this`isPanning
      ensures !isPanning
    {
      isPanning := false;
    }
  }
}
