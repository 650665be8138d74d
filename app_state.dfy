/** The application document and the handlers of the App component that edit it:
    the lists of each mode (todo lists, notebooks, kanban boards), the active list,
    the note store of the active notebook, and the todo and kanban drag-and-drop
    state. Handlers that replace `data` with an edited shallow copy become methods
    that reassign the corresponding field. */
module AppState {
  import opened Wrappers
  import opened JsText
  import opened Splice
  import opened Keyed
  import opened NoteStore
  import opened Boards

  datatype Mode = TodoMode | NotesMode | KanbanMode

  /** The kanban card being dragged: its column and its position there. */
  datatype CardRef = CardRef(columnId: string, cardIndex: nat)

  class App {
    var mode: Mode
    var currentList: string
    var todo: seq<Entry<seq<Todo>>>
    var notes: seq<Entry<seq<Note>>>
    var kanban: seq<Entry<seq<Column>>>
    var draggedTodo: Option<nat>
    var draggedCard: Option<CardRef>

    /** Object keys are distinct, in every collection and in every board's columns. */
    ghost predicate Valid()
      reads this
    {
      UniqueKeys(todo) && UniqueKeys(notes) && BoardsValid(kanban)
    }

    /** The keys of the lists the current mode shows in the sidebar. */
    function ListKeys(): seq<string>
      reads this
    {
      match mode
      case TodoMode => Keys(todo)
      case NotesMode => Keys(notes)
      case KanbanMode => Keys(kanban)
    }

    /** The notes of the active notebook. */
    function CurrentNotes(): seq<Note>
      reads this
      requires currentList in Keys(notes)
    {
      Lookup(notes, currentList).body
    }

    function CurrentTodos(): seq<Todo>
      reads this
      requires currentList in Keys(todo)
    {
      Lookup(todo, currentList).body
    }

    function CurrentColumns(): seq<Column>
      reads this
      requires currentList in Keys(kanban)
    {
      Lookup(kanban, currentList).body
    }

    /** The document a first start shows: one list named "default" per mode, the
        board with its three default columns, todo mode, nothing dragged. */
    constructor ()
      ensures Valid()
      ensures mode == TodoMode && currentList == "default"
      ensures todo == [Entry("default", "My ToDo List", [])]
      ensures notes == [Entry("default", "My Notes", [])]
      ensures kanban == [Entry("default", "My Project", DefaultColumns())]
      ensures draggedTodo == None && draggedCard == None
    {
      mode := TodoMode;
      currentList := "default";
      todo := [Entry("default", "My ToDo List", [])];
      notes := [Entry("default", "My Notes", [])];
      kanban := [Entry("default", "My Project", DefaultColumns())];
      draggedTodo := None;
      draggedCard := None;
    }

    /** The sidebar's mode buttons; the active list id is kept as it is. */
    method SwitchMode(m: Mode)
      modifies this`mode
      ensures mode == m
    {
      mode := m;
    }

    /** Clicking a list in the sidebar makes it active. */
    method SelectList(id: string)
      modifies this`currentList
      ensures currentList == id
    {
      currentList := id;
    }

    // ------------------------------------------------------------- lists

    /** "Add new": a name that trims to nothing changes nothing; otherwise the
        current mode's collection gets an empty list (a board with the three
        default columns) under the fresh id `id`, with the name as typed, and it
        becomes the active list. */
    method AddList(name: string, id: string)
      requires Valid()
      modifies this`todo, this`notes, this`kanban, this`currentList
      ensures Valid()
      ensures IsBlank(name) ==>
                todo == old(todo) && notes == old(notes) && kanban == old(kanban)
                && currentList == old(currentList)
      ensures !IsBlank(name) ==> currentList == id && id in ListKeys()
      ensures mode != TodoMode ==> todo == old(todo)
      ensures mode != NotesMode ==> notes == old(notes)
      ensures mode != KanbanMode ==> kanban == old(kanban)
      ensures !IsBlank(name) && mode == TodoMode ==> todo == Put(old(todo), id, name, [])
      ensures !IsBlank(name) && mode == NotesMode ==> notes == Put(old(notes), id, name, [])
      ensures !IsBlank(name) && mode == KanbanMode ==> kanban == Put(old(kanban), id, name, DefaultColumns())
    {
      var blank := TrimsToEmpty(name);
      if blank {
        return;
      }
      match mode {
        case TodoMode =>
          todo := Put(todo, id, name, []);
        case NotesMode =>
          notes := Put(notes, id, name, []);
        case KanbanMode =>
          PutBoardValid(kanban, id, name);
          kanban := Put(kanban, id, name, DefaultColumns());
      }
      currentList := id;
    }

    /** The rename dialog: the list `id` of the current mode takes the trimmed new
        name, unless that is empty; keys, order and contents stay. */
    method RenameList(id: string, newName: string)
      requires Valid()
      modifies this`todo, this`notes, this`kanban
      ensures Valid() && ListKeys() == old(ListKeys())
      ensures IsBlank(newName) ==> todo == old(todo) && notes == old(notes) && kanban == old(kanban)
      ensures mode != TodoMode ==> todo == old(todo)
      ensures mode != NotesMode ==> notes == old(notes)
      ensures mode != KanbanMode ==> kanban == old(kanban)
      ensures !IsBlank(newName) && mode == TodoMode ==> todo == Rename(old(todo), id, Trim(newName))
      ensures !IsBlank(newName) && mode == NotesMode ==> notes == Rename(old(notes), id, Trim(newName))
      ensures !IsBlank(newName) && mode == KanbanMode ==> kanban == Rename(old(kanban), id, Trim(newName))
    {
      var trimmed := Trim(newName);
      if trimmed == [] {
        assert IsBlank(newName);
        return;
      }
      assert !IsBlank(newName);
      match mode {
        case TodoMode =>
          todo := Rename(todo, id, trimmed);
          assert ListKeys() == Keys(todo);
        case NotesMode =>
          notes := Rename(notes, id, trimmed);
          assert ListKeys() == Keys(notes);
        case KanbanMode =>
          RenameBoardValid(kanban, id, trimmed);
          kanban := Rename(kanban, id, trimmed);
          assert ListKeys() == Keys(kanban);
      }
    }

    /** The delete icon, offered only while the current mode has more than one
        list: removes list `id`; when it was the active list, the first remaining
        key becomes active. At least one list always remains, and when the active
        list was the one deleted, the new active id is one of those that remain. */
    method DeleteList(id: string) returns (offered: bool)
      requires Valid()
      modifies this`todo, this`notes, this`kanban, this`currentList
      ensures Valid()
      ensures offered == (|old(ListKeys())| > 1)
      ensures !offered ==>
                todo == old(todo) && notes == old(notes) && kanban == old(kanban)
                && currentList == old(currentList)
      ensures mode != TodoMode ==> todo == old(todo)
      ensures mode != NotesMode ==> notes == old(notes)
      ensures mode != KanbanMode ==> kanban == old(kanban)
      ensures offered && mode == TodoMode ==> todo == RemoveKey(old(todo), id)
      ensures offered && mode == NotesMode ==> notes == RemoveKey(old(notes), id)
      ensures offered && mode == KanbanMode ==> kanban == RemoveKey(old(kanban), id)
      ensures offered ==> |ListKeys()| >= 1 && id !in ListKeys()
      ensures offered && id == old(currentList) ==> currentList == ListKeys()[0]
      ensures id != old(currentList) ==> currentList == old(currentList)
    {
      offered := |ListKeys()| > 1;
      if !offered {
        return;
      }
      match mode {
        case TodoMode =>
          if id in Keys(todo) { RemoveKeyProperties(todo, id); }
          todo := RemoveKey(todo, id);
        case NotesMode =>
          if id in Keys(notes) { RemoveKeyProperties(notes, id); }
          notes := RemoveKey(notes, id);
        case KanbanMode =>
          if id in Keys(kanban) { RemoveKeyProperties(kanban, id); }
          RemoveBoardValid(kanban, id);
          kanban := RemoveKey(kanban, id);
      }
      if id == currentList {
        currentList := ListKeys()[0];
      }
    }

    // --------------------------------------------------------- note store

    /** The notes branch of "add item": with the active notebook present, the note
        store's create on its notes; when the active id names no notebook the
        source fails before writing, so nothing changes. */
    method CreateNote(title: string, container: Option<Rect>, id: int)
      requires Valid() && mode == NotesMode
      modifies this`notes
      ensures Valid() && Keys(notes) == Keys(old(notes))
      ensures currentList !in Keys(old(notes)) ==> notes == old(notes)
      ensures currentList in Keys(old(notes)) ==>
                notes == SetBody(old(notes), currentList, Create(old(CurrentNotes()), title, container, id))
      ensures currentList in Keys(old(notes)) && !IsBlank(title) ==>
                |CurrentNotes()| == |old(CurrentNotes())| + 1
    {
      if Trim(title) != [] && currentList in Keys(notes) {
        notes := SetBody(notes, currentList, Create(CurrentNotes(), title, container, id));
      }
    }

    /** A note card's `onUpdate`: the whole record at `index` is replaced. */
    method ReplaceNote(index: nat, note: Note)
      requires Valid() && currentList in Keys(notes) && index < |CurrentNotes()|
      modifies this`notes
      ensures Valid() && Keys(notes) == Keys(old(notes))
      ensures notes == SetBody(old(notes), currentList, Replace(old(CurrentNotes()), index, note))
    {
      notes := SetBody(notes, currentList, Replace(CurrentNotes(), index, note));
    }

    /** A note card's `onDelete`: `splice(index, 1)` on the active notebook. */
    method DeleteNote(index: nat)
      requires Valid() && currentList in Keys(notes)
      modifies this`notes
      ensures Valid() && Keys(notes) == Keys(old(notes))
      ensures notes == SetBody(old(notes), currentList, RemoveAt(old(CurrentNotes()), index))
      ensures index < |old(CurrentNotes())| ==> |CurrentNotes()| == |old(CurrentNotes())| - 1
    {
      notes := SetBody(notes, currentList, RemoveAt(CurrentNotes(), index));
    }

    // ------------------------------------------------- todo drag and drop

    method TodoDragStart(index: nat)
      modifies this`draggedTodo
      ensures draggedTodo == Some(index)
    {
      draggedTodo := Some(index);
    }

    /** Dropping on the todo item at `dropIndex`: nothing happens when no item is
        dragged or it is dropped on itself (the drag state is then kept);
        otherwise the dragged item moves to `dropIndex` and the drag ends. */
    method TodoDrop(dropIndex: nat)
      requires Valid() && currentList in Keys(todo)
      requires dropIndex < |CurrentTodos()|
      requires draggedTodo.Some? ==> draggedTodo.value < |CurrentTodos()|
      modifies this`todo, this`draggedTodo
      ensures Valid()
      ensures old(draggedTodo) == None || old(draggedTodo) == Some(dropIndex) ==>
                todo == old(todo) && draggedTodo == old(draggedTodo)
      ensures old(draggedTodo).Some? && old(draggedTodo) != Some(dropIndex) ==>
                && todo == SetBody(old(todo), currentList,
                                   MoveItem(old(CurrentTodos()), old(draggedTodo).value, dropIndex))
                && draggedTodo == None
                && multiset(CurrentTodos()) == multiset(old(CurrentTodos()))
                && CurrentTodos()[dropIndex] == old(CurrentTodos())[old(draggedTodo).value]
    {
      if draggedTodo == None || draggedTodo == Some(dropIndex) {
        return;
      }
      todo := SetBody(todo, currentList, MoveItem(CurrentTodos(), draggedTodo.value, dropIndex));
      draggedTodo := None;
    }

    // ----------------------------------------------- kanban drag and drop

    method KanbanDragStart(columnId: string, cardIndex: nat)
      modifies this`draggedCard
      ensures draggedCard == Some(CardRef(columnId, cardIndex))
    {
      draggedCard := Some(CardRef(columnId, cardIndex));
    }

    /** Dropping on column `target` of the active board: the dragged card leaves its
        column and is pushed onto `target`, the board keeps all its cards, and the
        drag ends; with nothing dragged nothing happens. A drag left over from
        another board, whose column the active board lacks, makes the source throw
        before any write: nothing changes and the drag stays recorded. */
    method KanbanDrop(target: string)
      requires Valid() && currentList in Keys(kanban)
      requires target in Keys(CurrentColumns())
      requires draggedCard.Some? && draggedCard.value.columnId in Keys(CurrentColumns()) ==>
                 draggedCard.value.cardIndex < |Lookup(CurrentColumns(), draggedCard.value.columnId).body|
      modifies this`kanban, this`draggedCard
      ensures Valid()
      ensures old(draggedCard) == None ==> kanban == old(kanban) && draggedCard == None
      ensures old(draggedCard).Some? && old(draggedCard).value.columnId !in Keys(old(CurrentColumns())) ==>
                kanban == old(kanban) && draggedCard == old(draggedCard)
      ensures old(draggedCard).Some? && old(draggedCard).value.columnId in Keys(old(CurrentColumns())) ==>
                && kanban == SetBody(old(kanban), currentList,
                                     MoveCard(old(CurrentColumns()), old(draggedCard).value.columnId,
                                              old(draggedCard).value.cardIndex, target))
                && draggedCard == None
                && |AllCards(CurrentColumns())| == |AllCards(old(CurrentColumns()))|
    {
      if draggedCard == None {
        return;
      }
      var CardRef(source, cardIndex) := draggedCard.value;
      if source !in Keys(CurrentColumns()) {
        return;
      }
      var board := MoveCard(CurrentColumns(), source, cardIndex, target);
      SetBoardValid(kanban, currentList, board);
      kanban := SetBody(kanban, currentList, board);
      draggedCard := None;
    }
  }

  /** A fresh workspace in notes mode after adding notebook `id`: two notebooks, the
      added one active. */
  method TwoNotebooks(name: string, id: string) returns (app: App)
    requires !IsBlank(name) && id != "default"
    ensures fresh(app) && app.Valid() && app.mode == NotesMode && app.currentList == id
    ensures app.notes == [Entry("default", "My Notes", []), Entry(id, name, [])]
  {
    app := new App();
    app.SwitchMode(NotesMode);
    app.AddList(name, id);
  }

  /** Two notebooks, the added one active: deleting it makes "default" active
      again, leaves exactly one notebook, and deleting that last one is not
      offered. */
  method DeleteActiveNotebookScenario(name: string, id: string)
    returns (activeBefore: string, activeAfter: string, remaining: seq<string>, lastOffered: bool)
    requires !IsBlank(name) && id != "default"
    ensures activeBefore == id
    ensures activeAfter == "default" && remaining == ["default"]
    ensures !lastOffered
  {
    var app := TwoNotebooks(name, id);
    activeBefore := app.currentList;
    assert Keys(app.notes) == ["default", id];
    assert IndexOf(app.notes, id) == 1;
    var offered := app.DeleteList(id);
    assert app.notes == [Entry("default", "My Notes", [])];
    activeAfter := app.currentList;
    remaining := Keys(app.notes);
    lastOffered := app.DeleteList(activeAfter);
  }
}
