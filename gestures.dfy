/** A note card's own interaction state: the drag and resize gestures, their
    captured start snapshots, the card's visual position and size, and its
    edit/preview flag. Mouse moves change only the visual state; mouse-up commits
    it into the active notebook through the App's `ReplaceNote`. */
module Gestures {
  import opened Wrappers
  import opened JsText
  import opened Geometry
  import opened Keyed
  import opened NoteStore
  import opened AppState

  /** Mouse position and note position when a drag started. */
  datatype DragAnchor = DragAnchor(x: real, y: real, startX: real, startY: real)

  /** Mouse position and note size when a resize started. */
  datatype ResizeAnchor = ResizeAnchor(x: real, y: real, width: real, height: real)

  class NoteCard {
    var isDragging: bool
    var isResizing: bool
    var x: real
    var y: real
    var width: real
    var height: real
    var isEditing: bool
    var dragStart: DragAnchor
    var resizeStart: ResizeAnchor

    /** Mounting a card: its visual geometry starts from the note's, no gesture is
        active, and it edits exactly when the note is in edit mode. */
    constructor (note: Note)
      ensures x == note.x && y == note.y && width == note.width && height == note.height
      ensures !isDragging && !isResizing
      ensures isEditing == (note.viewMode == Edit)
    {
      x, y, width, height := note.x, note.y, note.width, note.height;
      isDragging, isResizing := false, false;
      isEditing := note.viewMode == Edit;
      dragStart := DragAnchor(0.0, 0.0, 0.0, 0.0);
      resizeStart := ResizeAnchor(0.0, 0.0, 0.0, 0.0);
    }

    /** Mouse-down on the card body starts a drag, capturing the mouse and the
        card's position; a press on the controls, the title or the editor does not. */
    method MouseDown(onControl: bool, clientX: real, clientY: real)
      modifies this`isDragging, this`dragStart
      ensures onControl ==> isDragging == old(isDragging) && dragStart == old(dragStart)
      ensures !onControl ==> isDragging && dragStart == DragAnchor(clientX, clientY, x, y)
    {
      if onControl {
        return;
      }
      isDragging := true;
      dragStart := DragAnchor(clientX, clientY, x, y);
    }

    /** Mouse-down on the resize handle starts a resize, capturing the mouse and
        the card's size. */
    method ResizeMouseDown(clientX: real, clientY: real)
      modifies this`isResizing, this`resizeStart
      ensures isResizing && resizeStart == ResizeAnchor(clientX, clientY, width, height)
    {
      isResizing := true;
      resizeStart := ResizeAnchor(clientX, clientY, width, height);
    }

    /** A mouse move at zoom `scale`. While dragging (with the workspace
        container mounted) the position becomes the start position plus the
        scale-divided mouse delta, clamped so that the card stays inside the
        workspace; while resizing the size becomes the start size plus the raw
        mouse delta, floored at 380 x 280. */
    method MouseMove(clientX: real, clientY: real, scale: real, containerMounted: bool)
      requires scale > 0.0
      modifies this`x, this`y, this`width, this`height
      ensures isDragging && containerMounted ==>
                && x == DragAxis(dragStart.startX, dragStart.x, clientX, scale, old(width))
                && y == DragAxis(dragStart.startY, dragStart.y, clientY, scale, old(height))
      ensures !(isDragging && containerMounted) ==> x == old(x) && y == old(y)
      ensures isResizing ==>
                && width == ResizeAxis(resizeStart.width, resizeStart.x, clientX, MinNoteWidth)
                && height == ResizeAxis(resizeStart.height, resizeStart.y, clientY, MinNoteHeight)
                && width >= MinNoteWidth && height >= MinNoteHeight
      ensures !isResizing ==> width == old(width) && height == old(height)
      ensures isDragging && containerMounted && !isResizing
              && width <= WorkspaceSize && height <= WorkspaceSize ==>
                0.0 <= x <= WorkspaceSize - width && 0.0 <= y <= WorkspaceSize - height
    {
      if isDragging && containerMounted {
        x := DragAxis(dragStart.startX, dragStart.x, clientX, scale, width);
        y := DragAxis(dragStart.startY, dragStart.y, clientY, scale, height);
      }
      if isResizing {
        width := ResizeAxis(resizeStart.width, resizeStart.x, clientX, MinNoteWidth);
        height := ResizeAxis(resizeStart.height, resizeStart.y, clientY, MinNoteHeight);
      }
    }

    /** Mouse-up ends both gestures. If one was active, the note at `index` of the
        active notebook is replaced by itself with the card's position and size:
        no other field of it and no other note changes. */
    method MouseUp(app: App, index: nat)
      requires app.Valid() && app.currentList in Keys(app.notes) && index < |app.CurrentNotes()|
      modifies this`isDragging, this`isResizing, app`notes
      ensures !isDragging && !isResizing
      ensures app.Valid() && Keys(app.notes) == Keys(old(app.notes))
      ensures old(isDragging || isResizing) ==>
                app.notes == SetBody(old(app.notes), app.currentList,
                                     Replace(old(app.CurrentNotes()), index,
                                             Commit(old(app.CurrentNotes())[index], x, y, width, height)))
      ensures !old(isDragging || isResizing) ==> app.notes == old(app.notes)
    {
      if isDragging || isResizing {
        var note := app.CurrentNotes()[index];
        app.ReplaceNote(index, Commit(note, x, y, width, height));
      }
      isDragging, isResizing := false, false;
    }

    /** The edit/preview button: flips the card's flag and writes the note with
        view mode preview if the card was editing, edit otherwise. */
    method ToggleView(app: App, index: nat)
      requires app.Valid() && app.currentList in Keys(app.notes) && index < |app.CurrentNotes()|
      modifies this`isEditing, app`notes
      ensures isEditing == !old(isEditing)
      ensures app.Valid()
      ensures app.notes == SetBody(old(app.notes), app.currentList,
                                   Replace(old(app.CurrentNotes()), index,
                                           old(app.CurrentNotes())[index].(viewMode := ToggledViewMode(old(isEditing)))))
    {
      var note := app.CurrentNotes()[index];
      var wasEditing := isEditing;
      isEditing := !isEditing;
      app.ReplaceNote(index, note.(viewMode := ToggledViewMode(wasEditing)));
    }

    /** Clicking the rendered preview switches the card to editing without
        writing the note. */
    method PreviewClick()
      modifies this`isEditing
      ensures isEditing
    {
      isEditing := true;
    }

    /** An image file read as a data URI: for an image MIME type, the note at
        `index` gets the image's markdown appended to its content; anything else
        (no file, another type) changes nothing. */
    method UploadImage(app: App, index: nat, hasFile: bool, mimeType: string, fileName: string, dataUri: string)
      requires app.Valid() && app.currentList in Keys(app.notes) && index < |app.CurrentNotes()|
      modifies app`notes
      ensures app.Valid()
      ensures hasFile && StartsWith(mimeType, "image/") ==>
                app.notes == SetBody(old(app.notes), app.currentList,
                                     Replace(old(app.CurrentNotes()), index,
                                             AppendImage(old(app.CurrentNotes())[index], fileName, dataUri)))
      ensures !(hasFile && StartsWith(mimeType, "image/")) ==> app.notes == old(app.notes)
    {
      if hasFile && StartsWith(mimeType, "image/") {
        var note := app.CurrentNotes()[index];
        app.ReplaceNote(index, AppendImage(note, fileName, dataUri));
      }
    }
  }

  // ------------------------------------------------------------ scenarios

  /** The first note of an empty notebook, created as "Test" in an 800 x 600
      container, shown on a fresh card. */
  method MountFirstNote() returns (app: App, card: NoteCard, note: Note)
    ensures fresh(app) && fresh(card)
    ensures app.Valid() && app.currentList in Keys(app.notes) && |app.CurrentNotes()| == 1
    ensures note == app.CurrentNotes()[0]
    ensures note.x == 200.0 && note.y == 150.0 && note.width == 400.0 && note.height == 300.0
    ensures note.zIndex == 1 && note.viewMode == Edit
    ensures card.x == note.x && card.y == note.y && card.width == note.width && card.height == note.height
    ensures !card.isDragging && !card.isResizing
  {
    app := new App();
    app.SwitchMode(NotesMode);
    assert Keys(app.notes) == ["default"];
    assert !IsBlank("Test") by { assert !IsWhitespace("Test"[0]); }
    app.CreateNote("Test", Some(Rect(800.0, 600.0)), 1);
    note := app.CurrentNotes()[0];
    card := new NoteCard(note);
  }

  /** At zoom 2, dragging the note with the mouse moved by (100, 0) commits it
      50 workspace units to the right and changes nothing else about it. */
  method DragAtDoubleZoomScenario() returns (before: Note, after: Note)
    ensures before.x == 200.0 && before.y == 150.0
    ensures after == before.(x := 250.0)
  {
    var app, card;
    app, card, before := MountFirstNote();
    card.MouseDown(false, 300.0, 300.0);
    card.MouseMove(400.0, 300.0, 2.0, true);
    card.MouseUp(app, 0);
    after := app.CurrentNotes()[0];
  }

  /** A drag whose mouse ends where it began commits the note unchanged. */
  method DragInPlaceScenario(clientX: real, clientY: real, scale: real) returns (before: Note, after: Note)
    requires scale > 0.0
    ensures after == before
  {
    var app, card;
    app, card, before := MountFirstNote();
    card.MouseDown(false, clientX, clientY);
    card.MouseMove(clientX, clientY, scale, true);
    card.MouseUp(app, 0);
    after := app.CurrentNotes()[0];
  }

  /** Resizing at zoom 2 applies the raw mouse delta: +100 px widens the note by
      100 (not 50), and shrinking by 1000 px stops at the 280 minimum height; the
      position is kept. */
  method ResizeIgnoresZoomScenario() returns (before: Note, after: Note)
    ensures before.width == 400.0 && before.height == 300.0
    ensures after == before.(width := 500.0, height := 280.0)
  {
    var app, card;
    app, card, before := MountFirstNote();
    card.ResizeMouseDown(600.0, 450.0);
    card.MouseMove(700.0, -550.0, 2.0, true);
    card.MouseUp(app, 0);
    after := app.CurrentNotes()[0];
  }

  /** A press and release with no move in between commits the note's own position,
      unclamped: a note lying beyond the workspace edge (x = 5000 for a 400-wide
      note, say) is written back where it was. */
  method PressWithoutMoveScenario(app: App, index: nat) returns (before: Note, after: Note)
    requires app.Valid() && app.currentList in Keys(app.notes) && index < |app.CurrentNotes()|
    modifies app`notes
    ensures before == old(app.CurrentNotes())[index]
    ensures app.Valid() && app.currentList in Keys(app.notes) && index < |app.CurrentNotes()|
    ensures after == app.CurrentNotes()[index] && after == before
  {
    before := app.CurrentNotes()[index];
    var card := new NoteCard(before);
    card.MouseDown(false, 0.0, 0.0);
    card.MouseUp(app, index);
    after := app.CurrentNotes()[index];
  }

  /** Creation does not clamp: the 121st note of a notebook shown in an 800 x 600
      container is placed at (5000, 4950), beyond the workspace edge for its size. */
  lemma CreatedNoteCanLeaveWorkspace(title: string, id: int)
    ensures var n := NewNote(120, title, Some(Rect(800.0, 600.0)), id);
            n.x == 5000.0 && n.y == 4950.0
            && n.x > WorkspaceSize - n.width && n.y > WorkspaceSize - n.height
  {
  }
}
