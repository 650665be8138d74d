/** Note records and the edits the note store applies to the active notebook's item
    list: create (centred, cascading placement), whole-record replace at an index,
    the gesture commit, the image append and the view-mode toggle. */
module NoteStore {
  import opened Wrappers
  import opened JsText
  import opened Splice

  datatype ViewMode = Edit | Preview

  datatype Note = Note(
    id: int,
    title: string,
    content: string,
    x: real,
    y: real,
    width: real,
    height: real,
    zIndex: int,
    viewMode: ViewMode)

  /** Size of the workspace container's bounding box, when it is mounted. */
  datatype Rect = Rect(width: real, height: real)

  const DefaultNoteWidth: real := 400.0
  const DefaultNoteHeight: real := 300.0
  const CascadeStep: real := 40.0
  const FallbackOrigin: real := 100.0

  /** The note created as the `count`-th of its notebook: default 400 x 300 size,
      centred in the container and pushed 40 px down-right per note already present
      (at 100, 100 plus the cascade when no container is mounted), stacked above
      them with `zIndex = count + 1`, in edit mode. */
  function NewNote(count: nat, title: string, container: Option<Rect>, id: int): (n: Note)
    ensures n.id == id && n.zIndex == count + 1 && n.viewMode == Edit
    ensures n.width == DefaultNoteWidth && n.height == DefaultNoteHeight
    ensures title != [] ==> n.title == title && n.content == "# " + title + "\n\nStart writing..."
    ensures container.Some? ==>
              n.x + n.width / 2.0 == container.value.width / 2.0 + CascadeStep * count as real
              && n.y + n.height / 2.0 == container.value.height / 2.0 + CascadeStep * count as real
    ensures container.None? ==>
              n.x == FallbackOrigin + CascadeStep * count as real
              && n.y == FallbackOrigin + CascadeStep * count as real
  {
    var centerX := if container.Some? then container.value.width / 2.0 - DefaultNoteWidth / 2.0 else FallbackOrigin;
    var centerY := if container.Some? then container.value.height / 2.0 - DefaultNoteHeight / 2.0 else FallbackOrigin;
    var shown := if title == [] then "Untitled" else title;
    Note(id, shown, "# " + shown + "\n\nStart writing...",
         centerX + count as real * CascadeStep, centerY + count as real * CascadeStep,
         DefaultNoteWidth, DefaultNoteHeight, count + 1, Edit)
  }

  /** The notes branch of "add item": a title that trims to nothing changes nothing;
      otherwise exactly one new note is appended after the existing ones. */
  function Create(items: seq<Note>, title: string, container: Option<Rect>, id: int): (r: seq<Note>)
    ensures IsBlank(title) ==> r == items
    ensures !IsBlank(title) ==>
              |r| == |items| + 1 && r[..|items|] == items
              && r[|items|] == NewNote(|items|, title, container, id)
              && r[|items|].title == title
  {
    if Trim(title) == [] then items else items + [NewNote(|items|, title, container, id)]
  }

  /** Creating "Test" in an empty notebook shown in an 800 x 600 container gives one
      400 x 300 note at (200, 150), with zIndex 1, in edit mode. */
  lemma FirstNoteIsCentred(id: int)
    ensures var r := Create([], "Test", Some(Rect(800.0, 600.0)), id);
            |r| == 1 && r[0].title == "Test" && r[0].x == 200.0 && r[0].y == 150.0
            && r[0].width == 400.0 && r[0].height == 300.0 && r[0].zIndex == 1 && r[0].viewMode == Edit
  {
    assert !IsBlank("Test") by { assert !IsWhitespace("Test"[0]); }
  }

  /** Three notes created in a row cascade by (40, 40) and stack as 1, 2, 3. */
  lemma ThreeNotesCascade(t1: string, t2: string, t3: string, c: Option<Rect>, id1: int, id2: int, id3: int)
    requires !IsBlank(t1) && !IsBlank(t2) && !IsBlank(t3)
    ensures var s := Create(Create(Create([], t1, c, id1), t2, c, id2), t3, c, id3);
            |s| == 3
            && s[1].x == s[0].x + CascadeStep && s[2].x == s[1].x + CascadeStep
            && s[1].y == s[0].y + CascadeStep && s[2].y == s[1].y + CascadeStep
            && s[0].zIndex == 1 && s[1].zIndex == 2 && s[2].zIndex == 3
  {
    var s1 := Create([], t1, c, id1);
    var s2 := Create(s1, t2, c, id2);
    var s3 := Create(s2, t3, c, id3);
    assert s3[0] == s1[0] && s3[1] == s2[1];
  }

  /** The stacking orders of a notebook nobody has deleted from are 1, 2, ..., n. */
  ghost predicate StackedInOrder(items: seq<Note>) {
    forall j :: 0 <= j < |items| ==> items[j].zIndex == j + 1
  }

  /** While stacking orders are 1..n, a created note gets n + 1: above every other
      note, and the orders stay 1..n + 1. */
  lemma CreateStacksOnTop(items: seq<Note>, title: string, c: Option<Rect>, id: int)
    requires StackedInOrder(items) && !IsBlank(title)
    ensures var r := Create(items, title, c, id);
            && StackedInOrder(r)
            && forall j :: 0 <= j < |items| ==> r[j].zIndex < r[|items|].zIndex
  {
    var r := Create(items, title, c, id);
    assert forall j :: 0 <= j < |items| ==> r[j] == r[..|items|][j] == items[j];
  }

  /** After a deletion the count no longer exceeds every stacking order: deleting the
      first of two notes and creating one gives the new note the same zIndex, 2, as
      the note left on top. */
  lemma CreateAfterDeleteTies(a: Note, b: Note, title: string, c: Option<Rect>, id: int)
    requires a.zIndex == 1 && b.zIndex == 2 && !IsBlank(title)
    ensures var r := Create(RemoveAt([a, b], 0), title, c, id);
            |r| == 2 && r[0] == b && r[1].zIndex == r[0].zIndex == 2
  {
    assert RemoveAt([a, b], 0) == [b];
  }

  /** `items[index] = note`: the note at `index` is replaced and nothing else changes. */
  function Replace(items: seq<Note>, index: nat, note: Note): (r: seq<Note>)
    requires index < |items|
    ensures |r| == |items| && r[index] == note
    ensures forall j :: 0 <= j < |r| && j != index ==> r[j] == items[j]
  {
    items[index := note]
  }

  /** The record written back on mouse-up: the note with the gesture's position and
      size; every other field is the note's own. */
  function Commit(n: Note, x: real, y: real, width: real, height: real): (r: Note)
    ensures r.x == x && r.y == y && r.width == width && r.height == height
    ensures r.(x := n.x, y := n.y, width := n.width, height := n.height) == n
  {
    n.(x := x, y := y, width := width, height := height)
  }

  /** The markdown appended for an uploaded image, embedding it as a data URI: an
      image link on a line of its own, with the file name as its alt text and the
      data URI as its target. */
  function ImageMarkdown(fileName: string, dataUri: string): (r: string)
    ensures |r| == |fileName| + |dataUri| + 7
    ensures r[0] == '\n' && r[|r| - 1] == '\n'
    ensures r[1..3] == "![" && r[3..3 + |fileName|] == fileName
    ensures r[3 + |fileName|..5 + |fileName|] == "](" && r[5 + |fileName|..|r| - 2] == dataUri
    ensures r[|r| - 2] == ')'
  {
    "\n![" + fileName + "](" + dataUri + ")\n"
  }

  /** The note with an uploaded image's markdown appended: the old content is kept
      as a prefix, and no other field changes. */
  function AppendImage(n: Note, fileName: string, dataUri: string): (r: Note)
    ensures n.content <= r.content
    ensures r.content[|n.content|..] == ImageMarkdown(fileName, dataUri)
    ensures r.(content := n.content) == n
  {
    n.(content := n.content + ImageMarkdown(fileName, dataUri))
  }

  /** The view mode the toggle button writes: preview when the card was editing,
      edit otherwise. */
  function ToggledViewMode(wasEditing: bool): (m: ViewMode)
    ensures m == Edit <==> !wasEditing
  {
    if wasEditing then Preview else Edit
  }
}
