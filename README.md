# Ark Notes workspace, in Dafny

A model of the workspace logic in `src/App.jsx` of Ark Notes, an Electron and React
notes app with three modes: todo lists, a free-form notes canvas and kanban boards.
Its document is a JavaScript object holding one keyed collection per mode. A key
maps to a list record with a display name and the list's contents. The model covers
what happens to that document and to the canvas when the user acts:

- **Note cards** (`gestures.dfy`, class `Gestures.NoteCard`). A card is dragged
  across a 5000 x 5000 workspace. The mouse delta is divided by the zoom scale and
  the position is clamped to the workspace. A card is resized from its corner
  handle. There the delta is *not* divided by the scale, and the size is floored at
  380 x 280. Mouse-up commits position and size into the note store. The card also
  toggles between edit and preview and appends uploaded images as markdown.
- **Viewport** (`pan_zoom.dfy`, class `PanZoom.Viewport`). Alt+wheel zoom, clamped
  to [0.1, 5]. The "+" and "-" buttons, each with a single clamp. Panning by
  dragging empty canvas, which sets the container's scroll offsets.
- **Note store** (`note_store.dfy`). Note creation places a note centred in the
  container and cascades later notes by 40 px, with `zIndex` = count + 1. Whole-record
  replace at an index, delete by `splice`, the gesture commit, the image append and
  the view-mode value.
- **Lists, notebooks and boards** (`app_state.dfy`, class `AppState.App`). Add,
  rename and delete, over ordered keyed collections (`keyed.dfy`). Deleting the
  active list activates the first remaining key. Deleting is offered only while
  more than one list exists.
- **Reordering** (`splice.dfy`, `boards.dfy`). The todo drag-and-drop is two
  `splice` calls. The kanban card move splices a card out of its column and pushes
  it onto the target column. A board's columns are displayed sorted by a comparator
  that puts "todo", "doing" and "done" first.
- **Text** (`js_text.dfy`). `String.prototype.trim` with ECMAScript's whitespace
  set, which every name and title check uses, and `startsWith`.

The pure parts are functions with lemmas: geometry, zoom, splice, keyed
collections, note records, the card move and the comparator. The React state a
handler updates is a class whose methods change exactly the fields that handler
sets. Each method's `ensures` states the new state in terms of those functions, and
the functions' own contracts and lemmas carry the properties. End-to-end scenario
methods drive the classes through a whole gesture:

- `Gestures.DragAtDoubleZoomScenario`: create a note, drag it at zoom 2, commit.
- `Gestures.DragInPlaceScenario`: a drag whose mouse ends where it began.
- `Gestures.ResizeIgnoresZoomScenario`: a resize at zoom 2.
- `AppState.DeleteActiveNotebookScenario`: delete the active one of two notebooks.

Modelling decisions:

- Coordinates and scales are exact reals. IEEE rounding is not modelled.
- A JavaScript object used as a collection is a sequence of `Entry(id, name, body)`
  in key order. Assigning a new key appends it. Assigning an existing key keeps its
  position. Deleting a key keeps the others in order.
- The ids the app creates are `Date.now()` values, turned into strings for list and
  column keys. Here they are parameters. JavaScript enumerates keys that are
  canonical array indices (below 2^32 - 1) numerically, before the other keys.
  Timestamps are thirteen-digit numbers, far above that bound, so they are enumerated
  in insertion order, which is the order the model keeps.
- `currentList` is one id shared by all three modes, as in the source. Creating a
  note while it names no notebook of the notes collection throws in the source
  before anything is written, so the model leaves the document unchanged.
- The stacking order is `zIndex` = count + 1 at creation. It is unique and on top
  while the orders are 1..n, as they are before any deletion
  (`NoteStore.CreateStacksOnTop`). After a deletion a new note can tie with the top
  note (`NoteStore.CreateAfterDeleteTies`). The code does this, so the model does
  too. A tie still paints the newer card on top, because it comes later in the DOM.

## Model

| member | source | states |
|---|---|---|
| JsText.Trim | src/App.jsx:1527-1529 | `trim` yields the empty string exactly when the input is blank; otherwise the result starts and ends with a non-whitespace character and is no longer than the input |
| JsText.StartsWith | src/App.jsx:147 | `startsWith` holds exactly when the prefix fits and agrees with the string position by position; the string is then the prefix followed by the rest |
| JsText.TrimsToEmpty | src/App.jsx:507 | the `if (name.trim())` guard rejects exactly the blank inputs |
| JsText.TrimIsInfix | src/App.jsx:1529 | the trimmed name is an infix of the typed one, with only whitespace cut before and after it |
| JsText.TrimOfTrimmed | src/App.jsx:1529 | a name that neither starts nor ends with whitespace is stored unchanged by rename |
| JsText.TrimIdempotent | src/App.jsx:1529 | renaming to an already trimmed name stores that name: trim twice is trim once |
| Geometry.ClampToWorkspace | src/App.jsx:101-108 | the clamped coordinate is never negative, keeps a note that fits inside the 5000 workspace, keeps an in-range value, and sends an out-of-range one to the nearer edge |
| Geometry.DragDelta | src/App.jsx:96-97 | the workspace delta times the zoom scale is the screen delta; no mouse movement gives no delta |
| Geometry.DragAxis | src/App.jsx:94-108 | a dragged coordinate stays within [0, 5000 - size] and equals start plus the scale-divided delta whenever that is in range |
| Geometry.DragAtDoubleZoom | src/App.jsx:96-99 | at zoom 2 a mouse delta of 100 moves an unclamped note by 50 |
| Geometry.DragWithoutMovement | src/App.jsx:96-108 | a drag that ends where it started leaves an in-bounds note in place |
| Geometry.ResizeAxis | src/App.jsx:110-116 | a resized dimension is the start size plus the raw (unscaled) delta, or the minimum (380 or 280) when that is larger; it is never below the minimum |
| Geometry.WheelZoom | src/App.jsx:301-309 | the wheel scale is always in [0.1, 5], equals scale x 0.9 (deltaY > 0) or x 1.1 (otherwise) when that is in range, is exactly 5 above the range and exactly 0.1 below it, and never moves the wrong way |
| Geometry.ZoomIn | src/App.jsx:1612-1616 | the "+" step multiplies by 1.1, is exactly 5 when the product exceeds 5, never shrinks an in-range scale and keeps it at least 0.1 |
| Geometry.ZoomOut | src/App.jsx:1624-1628 | the "-" step multiplies by 0.9, is exactly 0.1 when the product is below 0.1, never grows the scale and keeps an in-range scale at most 5 |
| Geometry.RepeatedZoomInStaysInRange | src/App.jsx:1612-1616 | any number of "+" presses from a scale in [0.1, 5] stays in range and never decreases the scale |
| Geometry.RepeatedZoomOutStaysInRange | src/App.jsx:1624-1628 | any number of "-" presses from a scale in [0.1, 5] stays in range and never increases the scale |
| Geometry.ZoomSaturates | src/App.jsx:1612-1628 | at 5, "+" presses leave the scale at 5; at 0.1, "-" presses leave it at 0.1 |
| Geometry.ZoomStepsDoNotCancel | src/App.jsx:1612-1628 | "-" then "+" from 1 gives 0.99: the two buttons are not inverse to each other |
| Geometry.PanAnchor | src/App.jsx:417-418 | the pan anchor is mouse plus scroll, so a mouse that has not moved scrolls back to the scroll it started from |
| Geometry.PanScroll | src/App.jsx:425-426 | the scroll while panning is anchor minus mouse: scroll plus mouse gives back the anchor |
| Geometry.PanFollowsMouse | src/App.jsx:411-427 | while panning, the scroll offset is the scroll at mouse-down minus the mouse's displacement since then, and is unchanged when the mouse returns |
| Splice.RemoveAt | src/App.jsx:1763 | `splice(i, 1)` removes the element at i, shifts the later ones down, removes exactly that element from the multiset, and does nothing past the end |
| Splice.InsertAt | src/App.jsx:581 | `splice(j, 0, x)` puts x at j, shifts later elements up and adds exactly x to the multiset |
| Splice.RemoveInserted | src/App.jsx:579-581 | removing what was just inserted restores the list |
| Splice.InsertRemoved | src/App.jsx:579-581 | re-inserting a removed element where it was restores the list |
| Splice.MoveItem | src/App.jsx:578-582 | the todo drop keeps the length and the multiset of items, puts the dragged item at the drop index, and keeps the others in their relative order |
| Splice.MoveItemInPlace | src/App.jsx:576-582 | moving an item onto its own position changes nothing, so the early return loses nothing |
| Splice.MoveItemUndo | src/App.jsx:578-582 | dragging the item back to where it came from undoes the move |
| Keyed.Keys | src/App.jsx:1539 | `Object.keys` lists each entry's key, in entry order |
| Keyed.IndexOf | src/App.jsx:579 | the position of a present key holds that key, and no earlier entry does |
| Keyed.Lookup | src/App.jsx:579 | `obj[k]` is an entry of the collection carrying key k, and under distinct keys it is the only one |
| Keyed.Put | src/App.jsx:509-524 | assigning a key makes it present with the new record; a new key is appended after the others; an existing key keeps its position; other entries are untouched; keys stay distinct |
| Keyed.SetBody | src/App.jsx:582 | writing a present list's contents keeps keys, positions and names; only that entry's contents change |
| Keyed.Rename | src/App.jsx:1529 | renaming keeps the keys, sets only the named list's name, and touches no other entry |
| Keyed.RemoveKey | src/App.jsx:1546 | `delete` of a present key removes its entry by `RemoveAt`; a missing key changes nothing |
| Keyed.RemoveKeyProperties | src/App.jsx:1546-1549 | with distinct keys, delete leaves one entry fewer, removes exactly that key, keeps every other key and distinctness, and the new first key is the first key other than the deleted one |
| NoteStore.NewNote | src/App.jsx:461-476 | a new note is 400 x 300, centred in the container (at 100, 100 without one), shifted 40 px per existing note, with zIndex count + 1, edit mode and the `# title` content |
| NoteStore.Create | src/App.jsx:459-476 | a blank title changes nothing; otherwise exactly one note is appended after the unchanged existing notes |
| NoteStore.FirstNoteIsCentred | src/App.jsx:461-476 | "Test" in an empty notebook in an 800 x 600 container is a 400 x 300 note at (200, 150), zIndex 1, edit mode |
| NoteStore.ThreeNotesCascade | src/App.jsx:470-474 | three notes created in a row step by (40, 40) and stack as 1, 2, 3 |
| NoteStore.CreateStacksOnTop | src/App.jsx:474 | while stacking orders are 1..n, a new note is above every other and the orders become 1..n + 1 |
| NoteStore.CreateAfterDeleteTies | src/App.jsx:474 | after deleting the first of two notes, a created note gets the same zIndex as the remaining one |
| NoteStore.Replace | src/App.jsx:1758 | `items[index] = note` puts the note at that index and changes no other note |
| NoteStore.Commit | src/App.jsx:121-130 | the committed record has the gesture's position and size, and every other field is the note's own |
| NoteStore.ImageMarkdown | src/App.jsx:150 | the appended markdown is an image link on a line of its own, with the file name as alt text and the data URI as target |
| NoteStore.AppendImage | src/App.jsx:145-156 | the image markdown is appended after the unchanged old content, and no other field changes |
| NoteStore.ToggledViewMode | src/App.jsx:195-196 | the toggle writes edit exactly when the card was not editing |
| Boards.DefaultColumns | src/App.jsx:275-281 | a new board has the distinct, empty columns todo, doing and done, in that order |
| Boards.SetBodyCards | src/App.jsx:606-610 | replacing one column's cards swaps exactly those cards in the board's multiset of cards |
| Boards.MoveCard | src/App.jsx:599-614 | the kanban drop keeps the column keys and the multiset of all cards, leaves the source without the card and the target with it appended (or moved to the end of its own column), keeps the names of the source and target columns, and changes no other column |
| Boards.PutBoardValid | src/App.jsx:516-523 | adding a board keeps board keys and every board's column keys distinct |
| Boards.RenameBoardValid | src/App.jsx:1529 | renaming a board keeps the board invariant |
| Boards.RemoveBoardValid | src/App.jsx:1546 | deleting a board keeps the board invariant |
| Boards.SetBoardValid | src/App.jsx:606-611 | writing a board whose column keys are distinct keeps the board invariant |
| Boards.LexCompare | src/App.jsx:1786 | the fallback comparison returns -1, 0 or 1, and 0 exactly for equal ids |
| Boards.LexAntisymmetric | src/App.jsx:1786 | swapping the ids flips the fallback comparison's sign |
| Boards.LexTransitive | src/App.jsx:1786 | the fallback comparison is transitive |
| Boards.IndexIn | src/App.jsx:1784-1785 | `indexOf` is -1 exactly for an absent id, and otherwise the first position holding the id |
| Boards.CompareColumns | src/App.jsx:1782-1790 | a fixed column (todo, doing, done) sorts before any other; two fixed ones sort by their place in that list; two others fall back to `LexCompare` |
| Boards.CompareColumnsTiesOnlyEqual | src/App.jsx:1782-1790 | the column comparator returns 0 only for equal ids, so the displayed order does not depend on the sort algorithm |
| Boards.CompareColumnsAntisymmetric | src/App.jsx:1782-1790 | swapping the arguments of the column comparator flips its sign |
| Boards.CompareColumnsTransitive | src/App.jsx:1782-1790 | "sorts before" under the column comparator is transitive, so it is a consistent ordering |
| Boards.FixedColumnsFirst | src/App.jsx:1782-1790 | todo sorts before doing, doing before done, and all three before any other column |
| AppState.App.constructor | src/App.jsx:243-285 | the first-start document: one "default" list per mode, the three default columns, todo mode, nothing dragged |
| AppState.App.SwitchMode | src/App.jsx:1484-1498 | the mode buttons set the mode and keep the active list id |
| AppState.App.SelectList | src/App.jsx:1513 | clicking a list makes it active |
| AppState.App.AddList | src/App.jsx:501-531 | a blank name changes nothing; otherwise only the current mode's collection gets the new list (with default columns for a board), which becomes active; the invariant is kept |
| AppState.App.RenameList | src/App.jsx:1526-1533 | a blank name changes nothing; otherwise only the current mode's list gets the trimmed name; keys and the invariant are kept |
| AppState.App.DeleteList | src/App.jsx:1539-1551 | delete is offered only with more than one list; it removes just that key from the current mode; at least one list remains; deleting the active list activates the first remaining key; other modes are untouched |
| AppState.App.CreateNote | src/App.jsx:454-481 | the active notebook's notes become the note store's create; a missing notebook or blank title changes nothing; a valid title adds exactly one note |
| AppState.App.ReplaceNote | src/App.jsx:1756-1760 | a card's update replaces the note at its index in the active notebook and nothing else |
| AppState.App.DeleteNote | src/App.jsx:1761-1765 | a card's delete splices its note out of the active notebook, one note fewer |
| AppState.App.TodoDragStart | src/App.jsx:564-567 | drag start records the dragged index |
| AppState.App.TodoDrop | src/App.jsx:574-586 | with nothing dragged or a drop on itself nothing changes; otherwise the active list becomes the move, is a permutation, holds the dragged item at the drop index, and the drag ends |
| AppState.App.KanbanDragStart | src/App.jsx:589-592 | drag start records the card's column and index |
| AppState.App.KanbanDrop | src/App.jsx:599-614 | with nothing dragged, or a leftover drag whose column the active board lacks, nothing changes (the leftover stays recorded); otherwise the active board becomes the card move, keeps its number of cards and the invariant, and the drag ends |
| AppState.TwoNotebooks | src/App.jsx:501-531 | adding a notebook to a fresh document yields the default notebook then the new one, the new one active |
| AppState.DeleteActiveNotebookScenario | src/App.jsx:1539-1551 | deleting the active one of two notebooks leaves only "default", makes it active, and deleting it is then not offered |
| Gestures.NoteCard.constructor | src/App.jsx:58-63 | a mounted card shows the note's position and size, no gesture is active, and it edits exactly when the note is in edit mode |
| Gestures.NoteCard.MouseDown | src/App.jsx:67-80 | a press on the card body starts a drag anchored at the mouse and the card's position; a press on a control changes nothing |
| Gestures.NoteCard.ResizeMouseDown | src/App.jsx:82-91 | a press on the handle starts a resize anchored at the mouse and the card's size |
| Gestures.NoteCard.MouseMove | src/App.jsx:94-118 | a drag with the container mounted sets the position by `DragAxis` and keeps a fitting card inside the workspace; a resize sets the size by `ResizeAxis`, at least 380 x 280; nothing else moves |
| Gestures.NoteCard.MouseUp | src/App.jsx:121-133 | after an active gesture, the note at the card's index is replaced by its commit with the card's geometry; otherwise the store is untouched; both gestures end |
| Gestures.NoteCard.ToggleView | src/App.jsx:191-198 | the card's edit flag flips and the note is written with the toggled view mode, nothing else changed |
| Gestures.NoteCard.PreviewClick | src/App.jsx:227-232 | clicking the preview switches the card to editing without writing the note |
| Gestures.NoteCard.UploadImage | src/App.jsx:145-156 | an image file appends its markdown to the note; no file or a non-image type changes nothing |
| Gestures.MountFirstNote | src/App.jsx:454-481 | creating "Test" in a fresh notes workspace gives one note at (200, 150) and a card showing it at rest |
| Gestures.DragAtDoubleZoomScenario | src/App.jsx:94-130 | a drag at zoom 2 with mouse delta (100, 0) commits the note 50 units to the right, everything else unchanged |
| Gestures.DragInPlaceScenario | src/App.jsx:94-130 | a drag whose mouse ends where it started commits the note unchanged, at any zoom |
| Gestures.ResizeIgnoresZoomScenario | src/App.jsx:110-130 | a resize at zoom 2 adds the raw mouse delta (400 to 500 wide) and floors the height at 280, keeping the position |
| Gestures.PressWithoutMoveScenario | src/App.jsx:67-130 | a press and release with no move commits the note exactly as it was, unclamped even if it lies beyond the workspace edge |
| Gestures.CreatedNoteCanLeaveWorkspace | src/App.jsx:461-476 | creation does not clamp: the 121st note in an 800 x 600 container is placed at (5000, 4950), past the edge for a 400 x 300 note |
| PanZoom.Viewport.constructor | src/App.jsx:250-251 | a fresh viewport has scale 1, no translation and no pan in progress |
| PanZoom.Viewport.Wheel | src/App.jsx:301-309 | Alt+wheel in notes mode sets the scale to `WheelZoom`; otherwise nothing changes; the scale range is kept |
| PanZoom.Viewport.ZoomInButton | src/App.jsx:1610-1618 | "+" sets the scale to `ZoomIn`, never lower, and keeps it in [0.1, 5] |
| PanZoom.Viewport.ZoomOutButton | src/App.jsx:1622-1630 | "-" sets the scale to `ZoomOut`, never higher, and keeps it in [0.1, 5] |
| PanZoom.Viewport.PanDown | src/App.jsx:411-420 | mouse-down on empty canvas in notes mode starts a pan anchored at mouse plus scroll; on a card or in another mode nothing changes |
| PanZoom.Viewport.PanMove | src/App.jsx:422-427 | while panning with the container mounted, the scroll offsets become anchor minus mouse; otherwise they stay |
| PanZoom.Viewport.PanUp | src/App.jsx:429-431 | mouse-up ends the pan |

## Left out

- Persistence, export, import and rendering are outside the core: `useLocalStorage`,
  the JSON backup, the login and sync calls, `main.js`, markdown rendering with
  `marked`, and registering and removing DOM listeners.
- The other branches of "add item" and the other board edits are not modelled. This
  covers adding a todo item or a kanban column, deleting a column, editing or
  deleting todos and cards, and toggling a todo. They are plain keyed writes of the
  kinds modelled here.
- The title and content text fields of a card (`src/App.jsx:178`, `:220`) are
  `ReplaceNote` with one field changed, so they have no member of their own.
- `Array.prototype.sort` is not modelled; only its comparator is. The comparator's
  lemmas state what a sort needs of it.
- Boards.LexCompare: `localeCompare` uses the locale's collation, not code-point
  order. Collation puts "a" before "A" and before "B", where code points put both
  the other way, and it ignores control characters, so "a" and "a\u0001" compare
  equal. The model uses lexicographic order on code points. The two agree on the
  column ids the app itself creates: the three fixed ids, which never reach the
  fallback, and `Date.now()` digit strings of equal length.
- Boards.CompareColumnsTiesOnlyEqual holds of the model's comparator only.
  `localeCompare` can return 0 for distinct strings, for instance canonically
  equivalent ones or ones that differ only in ignorable characters.
- Gestures.NoteCard.UploadImage: the `FileReader` is asynchronous, and its callback
  writes the `note` captured when the read started. The model applies the append
  synchronously to the note in the store. An edit made while the file is being read
  would be overwritten in the source, and that race is not modelled.
- AppState.App.ReplaceNote requires the index of a rendered card, which is always
  in range. JavaScript would grow a sparse array for an index past the end.
- AppState.App.TodoDrop and AppState.App.KanbanDrop require the recorded drag to
  point at an existing item. The recorded drag is cleared only by a completed
  drop (`src/App.jsx:585`, `:613`). A drag that is cancelled, or dropped on
  itself, leaves it behind, across list switches and deletions. Anything else
  dropped on a todo item or a column then runs the handler with that stale
  record. For a todo index past the end, `splice` removes nothing and
  `undefined` is inserted at the drop index, which breaks the next render at
  `item.id` (`src/App.jsx:1657`). The model excludes this case. A stale kanban
  card whose column the active board lacks makes the handler throw before any
  write, leaving the drag recorded; the model does this as a no-op. A stale
  card index past the end of a present column pushes `undefined` onto the
  target column, and the model excludes that case. The drop target is always a
  column of the active board, because only those are rendered.
- Gestures.NoteCard.MouseMove requires a positive scale. Every handler keeps the
  scale in [0.1, 5], and the drag divides by it.
- Gestures.NoteCard.MouseMove: the workspace bound holds only for a position a
  drag move computes; the model, like the source, does not promise that every
  committed position is inside the workspace. Three ways out remain. A later
  resize has no maximum and can make the card extend past 5000. A press and
  release with no move in between commits the position from before the gesture,
  unclamped (`Gestures.PressWithoutMoveScenario`). Creation places notes without
  a clamp, so a long cascade runs past the edge
  (`Gestures.CreatedNoteCanLeaveWorkspace`).
- PanZoom.Viewport.PanMove: the browser clamps `scrollLeft` and `scrollTop` to the
  scrollable range. The model stores the value the handler assigns.
- PanZoom.Viewport.Wheel: the handler reads the scale captured at render time, so
  two wheel events before a re-render both start from the same scale. The model
  applies each event to the current scale.
- Dates, clocks and DOM geometry are parameters: `Date.now()` ids, the container's
  bounding box and whether it is mounted, the mouse's client coordinates, and the
  target of a mouse-down (on a control, on a card).
- Coordinates are exact reals. Floating-point rounding (for example 0.9 x 1.1 not
  being exactly 0.99) is not modelled.
