/** The todo and kanban reorderings: moving a todo item by drag and drop, moving a
    kanban card to another column, and the order in which a board's columns are
    displayed. */
module Boards {
  import opened Splice
  import opened Keyed

  datatype Todo = Todo(id: int, text: string, completed: bool)
  datatype Card = Card(id: int, text: string)

  /** A kanban column: its key, its display name and its cards. */
  type Column = Entry<seq<Card>>

  /** The columns every new board starts with, in this key order. */
  function DefaultColumns(): (r: seq<Column>)
    ensures Keys(r) == ["todo", "doing", "done"] && UniqueKeys(r)
    ensures forall i :: 0 <= i < |r| ==> r[i].body == []
  {
    [Entry("todo", "To Do", []), Entry("doing", "In Progress", []), Entry("done", "Done", [])]
  }

  // --------------------------------------------------------- kanban drop

  /** Every card of the board, column after column. */
  function AllCards(cols: seq<Column>): seq<Card> {
    if cols == [] then [] else cols[0].body + AllCards(cols[1..])
  }

  /** The cards of two runs of columns are the cards of the first, then the second. */
  lemma {:induction false} AllCardsAppend(a: seq<Column>, b: seq<Column>)
    ensures AllCards(a + b) == AllCards(a) + AllCards(b)
  {
    if a != [] {
      assert (a + b)[1..] == a[1..] + b;
      AllCardsAppend(a[1..], b);
    } else {
      assert a + b == b;
    }
  }

  /** The cards of a board split around one column. */
  lemma AllCardsAround(pre: seq<Column>, col: Column, post: seq<Column>)
    ensures multiset(AllCards(pre + [col] + post))
            == multiset(AllCards(pre)) + multiset(col.body) + multiset(AllCards(post))
  {
    AllCardsAppend(pre + [col], post);
    AllCardsAppend(pre, [col]);
    assert AllCards([col]) == col.body + AllCards([]);
  }

  /** Replacing one column's cards swaps that column's cards for the new ones in the
      board's multiset of cards. */
  lemma SetBodyCards(cols: seq<Column>, k: string, cards: seq<Card>)
    requires k in Keys(cols)
    ensures multiset(AllCards(SetBody(cols, k, cards))) + multiset(Lookup(cols, k).body)
            == multiset(AllCards(cols)) + multiset(cards)
  {
    var i := IndexOf(cols, k);
    SetBodySplit(cols, k, cards);
    AllCardsAround(cols[..i], cols[i], cols[i + 1..]);
    AllCardsAround(cols[..i], cols[i].(body := cards), cols[i + 1..]);
  }

  /** Equal multisets stay equal after taking the same multiset out of both. */
  lemma MultisetCancel<T>(a: multiset<T>, b: multiset<T>, c: multiset<T>)
    requires a + c == b + c
    ensures a == b
  {
    assert forall x :: a[x] == (a + c)[x] - c[x] && b[x] == (b + c)[x] - c[x];
  }

  /** The kanban drop: the card at `cardIndex` of column `source` is spliced out and
      pushed onto the end of column `target` (dropping onto its own column moves it
      to the end). The board keeps its columns and its cards, the card is now last in
      `target`, and every other column is untouched. */
  function MoveCard(cols: seq<Column>, source: string, cardIndex: nat, target: string): (r: seq<Column>)
    requires UniqueKeys(cols)
    requires source in Keys(cols) && target in Keys(cols)
    requires cardIndex < |Lookup(cols, source).body|
    ensures Keys(r) == Keys(cols) && UniqueKeys(r)
    ensures multiset(AllCards(r)) == multiset(AllCards(cols))
    ensures |AllCards(r)| == |AllCards(cols)|
    ensures var card := Lookup(cols, source).body[cardIndex];
            var rest := RemoveAt(Lookup(cols, source).body, cardIndex);
            if source == target then Lookup(r, target).body == rest + [card]
            else Lookup(r, source).body == rest && Lookup(r, target).body == Lookup(cols, target).body + [card]
    ensures Lookup(r, source).name == Lookup(cols, source).name
    ensures Lookup(r, target).name == Lookup(cols, target).name
    ensures forall j :: 0 <= j < |cols| && cols[j].id != source && cols[j].id != target ==> r[j] == cols[j]
  {
    var items := Lookup(cols, source).body;
    var card := items[cardIndex];
    var removed := SetBody(cols, source, RemoveAt(items, cardIndex));
    var r := SetBody(removed, target, Lookup(removed, target).body + [card]);
    var into := Lookup(removed, target).body;
    SetBodyCards(cols, source, RemoveAt(items, cardIndex));
    assert multiset(RemoveAt(items, cardIndex)) + multiset{card} == multiset(items);
    MultisetCancel(multiset(AllCards(removed)) + multiset{card}, multiset(AllCards(cols)),
                   multiset(RemoveAt(items, cardIndex)));
    SetBodyCards(removed, target, into + [card]);
    assert multiset(into + [card]) == multiset(into) + multiset{card};
    MultisetCancel(multiset(AllCards(r)), multiset(AllCards(removed)) + multiset{card}, multiset(into));
    SameKeysSameIndex(cols, removed, target);
    SameKeysSameIndex(cols, removed, source);
    SameKeysSameIndex(removed, r, source);
    SameKeysSameIndex(removed, r, target);
    forall j | 0 <= j < |cols| && cols[j].id != source && cols[j].id != target
      ensures r[j] == cols[j]
    {
      assert j != IndexOf(cols, source) && j != IndexOf(removed, target);
    }
    r
  }

  // ------------------------------------------------------ board invariant

  /** Board keys are distinct, and so are the column keys of every board. */
  ghost predicate BoardsValid(boards: seq<Entry<seq<Column>>>) {
    UniqueKeys(boards) && forall i :: 0 <= i < |boards| ==> UniqueKeys(boards[i].body)
  }

  /** Adding a board with the default columns keeps the invariant. */
  lemma PutBoardValid(boards: seq<Entry<seq<Column>>>, id: string, name: string)
    requires BoardsValid(boards)
    ensures BoardsValid(Put(boards, id, name, DefaultColumns()))
  {
    var r := Put(boards, id, name, DefaultColumns());
    forall i | 0 <= i < |r|
      ensures UniqueKeys(r[i].body)
    {
      if i < |boards| && boards[i].id != id {
        assert r[i] == boards[i];
      } else {
        LookupAt(r, i);
      }
    }
  }

  /** Renaming a board keeps the invariant. */
  lemma RenameBoardValid(boards: seq<Entry<seq<Column>>>, id: string, name: string)
    requires BoardsValid(boards)
    ensures BoardsValid(Rename(boards, id, name))
  {
    var r := Rename(boards, id, name);
    forall i | 0 <= i < |r|
      ensures UniqueKeys(r[i].body)
    {
      if boards[i].id == id {
        LookupAt(boards, i);
        assert r[i].body == boards[i].body;
      }
    }
  }

  /** Deleting a board keeps the invariant. */
  lemma RemoveBoardValid(boards: seq<Entry<seq<Column>>>, id: string)
    requires BoardsValid(boards)
    ensures BoardsValid(RemoveKey(boards, id))
  {
    if id in Keys(boards) {
      RemoveKeyProperties(boards, id);
    }
  }

  /** Replacing one board's columns by columns with distinct keys keeps the
      invariant. */
  lemma SetBoardValid(boards: seq<Entry<seq<Column>>>, id: string, cols: seq<Column>)
    requires BoardsValid(boards) && id in Keys(boards) && UniqueKeys(cols)
    ensures BoardsValid(SetBody(boards, id, cols))
  {
  }

  // --------------------------------------------------- column comparator

  /** Code-point lexicographic comparison: negative, zero or positive. */
  function LexCompare(a: string, b: string): (r: int)
    ensures -1 <= r <= 1
    ensures r == 0 <==> a == b
  {
    if a == [] && b == [] then 0
    else if a == [] then -1
    else if b == [] then 1
    else if a[0] < b[0] then -1
    else if a[0] > b[0] then 1
    else
      var r := LexCompare(a[1..], b[1..]);
      assert a == [a[0]] + a[1..] && b == [b[0]] + b[1..];
      r
  }

  lemma {:induction false} LexAntisymmetric(a: string, b: string)
    ensures LexCompare(a, b) == -LexCompare(b, a)
  {
    if a != [] && b != [] && a[0] == b[0] {
      LexAntisymmetric(a[1..], b[1..]);
    }
  }

  lemma {:induction false} LexTransitive(a: string, b: string, c: string)
    requires LexCompare(a, b) < 0 && LexCompare(b, c) < 0
    ensures LexCompare(a, c) < 0
  {
    if a != [] && b != [] && c != [] && a[0] == b[0] && b[0] == c[0] {
      LexTransitive(a[1..], b[1..], c[1..]);
    }
  }

  /** The columns a board shows first, in this order. */
  const FixedColumnOrder: seq<string> := ["todo", "doing", "done"]

  /** `order.indexOf(id)`: the first position of `id`, or -1. */
  function IndexIn(order: seq<string>, id: string): (r: int)
    ensures -1 <= r < |order|
    ensures r == -1 <==> id !in order
    ensures r >= 0 ==> order[r] == id && id !in order[..r]
  {
    if order == [] then -1
    else if order[0] == id then 0
    else
      var r := IndexIn(order[1..], id);
      if r == -1 then -1 else r + 1
  }

  /** The comparator the board sorts its columns with: "todo", "doing", "done" in
      that order, then every other column id, in lexicographic order. */
  function CompareColumns(a: string, b: string): (r: int)
    ensures a in FixedColumnOrder && b !in FixedColumnOrder ==> r < 0
    ensures a !in FixedColumnOrder && b in FixedColumnOrder ==> r > 0
    ensures a in FixedColumnOrder && b in FixedColumnOrder ==>
              (r < 0 <==> IndexIn(FixedColumnOrder, a) < IndexIn(FixedColumnOrder, b))
    ensures a !in FixedColumnOrder && b !in FixedColumnOrder ==> r == LexCompare(a, b)
  {
    var ai := IndexIn(FixedColumnOrder, a);
    var bi := IndexIn(FixedColumnOrder, b);
    if ai == -1 && bi == -1 then LexCompare(a, b)
    else if ai == -1 then 1
    else if bi == -1 then -1
    else ai - bi
  }

  /** The comparator ties only equal ids, so the displayed order of distinct
      columns does not depend on the sort algorithm. */
  lemma CompareColumnsTiesOnlyEqual(a: string, b: string)
    ensures CompareColumns(a, b) == 0 <==> a == b
  {
  }

  /** Swapping the arguments flips the sign. */
  lemma CompareColumnsAntisymmetric(a: string, b: string)
    ensures CompareColumns(a, b) == -CompareColumns(b, a)
  {
    LexAntisymmetric(a, b);
  }

  /** "Sorts before" is transitive. */
  lemma CompareColumnsTransitive(a: string, b: string, c: string)
    requires CompareColumns(a, b) < 0 && CompareColumns(b, c) < 0
    ensures CompareColumns(a, c) < 0
  {
    var ai, bi, ci := IndexIn(FixedColumnOrder, a), IndexIn(FixedColumnOrder, b), IndexIn(FixedColumnOrder, c);
    if ai == -1 && bi == -1 && ci == -1 {
      LexTransitive(a, b, c);
    }
  }

  /** The three default columns come first, as todo, doing, done, before any
      column added later. */
  lemma FixedColumnsFirst(other: string)
    requires other !in FixedColumnOrder
    ensures CompareColumns("todo", "doing") < 0 && CompareColumns("doing", "done") < 0
    ensures CompareColumns("done", other) < 0
    ensures forall f :: f in FixedColumnOrder ==> CompareColumns(f, other) < 0
  {
  }
}
