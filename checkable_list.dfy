/**
 * The data side of `CheckableList` (src/components/CheckableList.ts): the items keyed by
 * `key` and the rows rendered for them, each row's checked flag and `"[x] "`/`"[ ] "`
 * content, and the cursor `selectedIndex`. Both maps of the source keep insertion order,
 * so each is a sequence here whose entries have distinct keys.
 */
module CheckableLists {
  import opened Wrappers
  import opened Utils

  /** `CheckableItem`; an omitted `checked` is `false`. */
  datatype CheckableItem = CheckableItem(value: string, key: string, checked: bool)

  /** A rendered row: the key it was rendered for, its text, `data.selected`, and `position.top`. */
  datatype Row = Row(key: string, content: string, selected: bool, top: int)

  /** The check box a row's content starts with. */
  function Prefix(checked: bool): string
  {
    if checked then "[x] " else "[ ] "
  }

  /** `content.substr(4)`: the text after the check box. */
  function AfterPrefix(content: string): string
  {
    if |content| >= 4 then content[4..] else ""
  }

  /** The position of the item with `key`, if any (`Map.has` / `Map.set` on an existing key). */
  function IndexOfKey(items: seq<CheckableItem>, key: string): (r: Option<nat>)
    ensures r.Some? ==> r.value < |items| && items[r.value].key == key
    ensures r.None? ==> forall i :: 0 <= i < |items| ==> items[i].key != key
  {
    if items == [] then None
    else if items[0].key == key then Some(0)
    else match IndexOfKey(items[1..], key)
      case None => None
      case Some(i) => Some(i + 1)
  }

  /** No two items share a key. */
  predicate DistinctItemKeys(items: seq<CheckableItem>)
  {
    forall i, j :: 0 <= i < j < |items| ==> items[i].key != items[j].key
  }

  /** `_items.set(item.key, item)`: an existing key keeps its place and takes the new item; a new key is appended. */
  function SetItem(items: seq<CheckableItem>, item: CheckableItem): (r: seq<CheckableItem>)
    ensures DistinctItemKeys(items) ==> DistinctItemKeys(r)
    ensures item in r
    ensures forall x :: x in items && x.key != item.key ==> x in r
    ensures forall x :: x in r ==> x == item || x in items
    ensures |r| <= |items| + 1
    ensures (forall x :: x in items ==> x.key != item.key) ==> r == items + [item]
  {
    match IndexOfKey(items, item.key)
    case Some(i) =>
      var r := items[i := item];
      assert r[i] == item;
      assert forall j :: 0 <= j < |items| && j != i ==> r[j] == items[j];
      r
    case None => items + [item]
  }

  /** `_items.delete(key)`. */
  function DeleteItem(items: seq<CheckableItem>, key: string): (r: seq<CheckableItem>)
    ensures forall x :: x in r <==> x in items && x.key != key
    ensures DistinctItemKeys(items) ==> DistinctItemKeys(r)
  {
    if items == [] then []
    else
      var rest := DeleteItem(items[1..], key);
      assert forall x :: x in items <==> x == items[0] || x in items[1..];
      if items[0].key == key then rest else [items[0]] + rest
  }

  /** `_rows.has(key)`. */
  predicate HasRow(rows: seq<Row>, key: string)
  {
    exists i :: 0 <= i < |rows| && rows[i].key == key
  }

  /** Distinct keys, and each row's `top` is its position (the row count when it was added). */
  predicate RowsValid(rows: seq<Row>)
  {
    (forall i :: 0 <= i < |rows| ==> rows[i].top == i)
    && (forall i, j :: 0 <= i < j < |rows| ==> rows[i].key != rows[j].key)
  }

  /** Every item has a row. */
  predicate Covered(rows: seq<Row>, items: seq<CheckableItem>)
  {
    forall i :: 0 <= i < |items| ==> HasRow(rows, items[i].key)
  }

  /** The row rendered for a new item when `top` rows exist already. */
  function NewRow(item: CheckableItem, top: int): Row
  {
    Row(item.key, Prefix(item.checked) + item.value, item.checked, top)
  }

  /** One pass of the loop in `renderItems`: an item that has a row is skipped. */
  function RenderRow(rows: seq<Row>, item: CheckableItem): (r: seq<Row>)
    ensures RowsValid(rows) ==> RowsValid(r)
    ensures HasRow(r, item.key)
    ensures |rows| <= |r| && r[..|rows|] == rows
    ensures forall k :: HasRow(rows, k) ==> HasRow(r, k)
    ensures HasRow(rows, item.key) ==> r == rows
    ensures !HasRow(rows, item.key) ==> r == rows + [NewRow(item, |rows|)]
  {
    if HasRow(rows, item.key) then rows
    else
      var r := rows + [NewRow(item, |rows|)];
      assert r[|rows|].key == item.key;
      assert forall i :: 0 <= i < |rows| ==> r[i] == rows[i];
      r
  }

  /** Each row from position `|rows|` up to `m` is the new row of one of the items. */
  predicate RowsAddedUpTo(rows: seq<Row>, items: seq<CheckableItem>, r: seq<Row>, m: int)
  {
    forall i :: |rows| <= i < m && i < |r| ==> AddedAt(items, r, i)
  }

  /** Row `i` of `r` is the new row of one of the items, placed at position `i`. */
  predicate AddedAt(items: seq<CheckableItem>, r: seq<Row>, i: int)
  {
    0 <= i < |r| && exists j :: 0 <= j < |items| && r[i] == NewRow(items[j], i)
  }

  /**
   * Every row past the first `|rows|` is the new row of one of the items (with the distinct
   * row keys `RowsValid` keeps, of an item that had no row among `rows`).
   */
  predicate RowsAddedFor(rows: seq<Row>, items: seq<CheckableItem>, r: seq<Row>)
  {
    RowsAddedUpTo(rows, items, r, |r|)
  }

  /** What holds of the rows rendered for a prefix of the items holds for all of them. */
  lemma RowsAddedWiden(rows: seq<Row>, items: seq<CheckableItem>, n: nat, r: seq<Row>, grown: seq<Row>)
    requires n <= |items| && RowsAddedFor(rows, items[..n], r)
    requires |r| <= |grown| && grown[..|r|] == r
    ensures RowsAddedUpTo(rows, items, grown, |r|)
  {
    forall i | |rows| <= i < |r| && i < |grown|
      ensures AddedAt(items, grown, i)
    {
      assert AddedAt(items[..n], r, i);
      var j :| 0 <= j < |items[..n]| && r[i] == NewRow(items[..n][j], i);
      assert items[..n][j] == items[j];
      assert grown[..|r|][i] == r[i];
      assert grown[i] == NewRow(items[j], i);
    }
  }

  /** Rendering one more item only ever adds that item's new row. */
  lemma RowsAddedStep(rows: seq<Row>, before: seq<Row>, items: seq<CheckableItem>)
    requires items != [] && |rows| <= |before| && before[..|rows|] == rows
    requires RowsAddedFor(rows, items[..|items| - 1], before)
    ensures RowsAddedFor(rows, items, RenderRow(before, items[|items| - 1]))
  {
    var n := |items| - 1;
    var last := items[n];
    var r := RenderRow(before, last);
    RowsAddedWiden(rows, items, n, before, r);
    if !HasRow(before, last.key) {
      assert r[|before|] == NewRow(items[n], |before|);
      assert AddedAt(items, r, |before|);
    }
  }

  /**
   * `renderItems()`: a new row, after the existing ones, for each item without one, in item
   * order; rows that exist stay as they are, and rows of removed items are not dropped.
   */
  function RenderRows(rows: seq<Row>, items: seq<CheckableItem>): (r: seq<Row>)
    ensures |rows| <= |r| && r[..|rows|] == rows
    ensures RowsValid(rows) ==> RowsValid(r)
    ensures Covered(r, items)
    ensures Covered(rows, items) ==> r == rows
    ensures RowsAddedFor(rows, items, r)
    decreases |items|
  {
    if items == [] then rows
    else
      var before := RenderRows(rows, items[..|items| - 1]);
      var r := RenderRow(before, items[|items| - 1]);
      assert forall i :: 0 <= i < |items| - 1 ==> items[..|items| - 1][i] == items[i];
      assert forall k :: HasRow(before, k) ==> HasRow(r, k);
      assert Covered(rows, items) ==> Covered(rows, items[..|items| - 1]);
      RowsAddedStep(rows, before, items);
      r
  }

  /** One new row per item, in item order, the first at `top`. */
  function FreshRows(items: seq<CheckableItem>, top: int): (r: seq<Row>)
    ensures |r| == |items|
    ensures forall i :: 0 <= i < |items| ==> r[i] == NewRow(items[i], top + i)
    decreases |items|
  {
    if items == [] then []
    else
      var before := FreshRows(items[..|items| - 1], top);
      assert forall i :: 0 <= i < |items| - 1 ==> items[..|items| - 1][i] == items[i];
      before + [NewRow(items[|items| - 1], top + |items| - 1)]
  }

  /** The rows `rows` followed by one new row per item of `items`, in item order. */
  predicate RowsThenNew(rows: seq<Row>, items: seq<CheckableItem>, r: seq<Row>)
  {
    |r| == |rows| + |items| && r[..|rows|] == rows
    && forall i :: 0 <= i < |items| ==> r[|rows| + i] == NewRow(items[i], |rows| + i)
  }

  /** `RowsThenNew` spelled out as a sequence. */
  lemma RowsThenNewIsFresh(rows: seq<Row>, items: seq<CheckableItem>, r: seq<Row>)
    requires RowsThenNew(rows, items, r)
    ensures r == rows + FreshRows(items, |rows|)
  {
    var f := FreshRows(items, |rows|);
    forall i | 0 <= i < |r|
      ensures r[i] == (rows + f)[i]
    {
      if i < |rows| {
        assert r[..|rows|][i] == rows[i];
      } else {
        assert r[|rows| + (i - |rows|)] == NewRow(items[i - |rows|], |rows| + (i - |rows|));
      }
    }
  }

  /** Appending a fresh item's new row to `RowsThenNew` extends it by that item. */
  lemma {:induction false} RowsThenNewStep(rows: seq<Row>, items: seq<CheckableItem>, before: seq<Row>)
    requires items != [] && DistinctItemKeys(items)
    requires !HasRow(rows, items[|items| - 1].key)
    requires RowsThenNew(rows, items[..|items| - 1], before)
    ensures !HasRow(before, items[|items| - 1].key)
    ensures RowsThenNew(rows, items, before + [NewRow(items[|items| - 1], |before|)])
  {
    var n := |items| - 1;
    var last := items[n];
    forall i | 0 <= i < |before|
      ensures before[i].key != last.key
    {
      if i < |rows| {
        assert before[..|rows|][i] == rows[i];
      } else {
        assert items[..n][i - |rows|] == items[i - |rows|];
      }
    }
    var r := before + [NewRow(last, |before|)];
    assert r[..|rows|] == before[..|rows|];
    forall i | 0 <= i < |items|
      ensures r[|rows| + i] == NewRow(items[i], |rows| + i)
    {
      if i < n {
        assert items[..n][i] == items[i];
      }
    }
  }

  /** Items none of which has a row, with distinct keys, get one new row each, in item order. */
  lemma {:induction false} RenderFresh(rows: seq<Row>, items: seq<CheckableItem>)
    requires DistinctItemKeys(items)
    requires forall x :: x in items ==> !HasRow(rows, x.key)
    ensures RowsThenNew(rows, items, RenderRows(rows, items))
    decreases |items|
  {
    if items == [] {
      assert RenderRows(rows, items) == rows;
    } else {
      var n := |items| - 1;
      var last := items[n];
      LastKeyIsNew(items);
      assert forall x :: x in items[..n] ==> x in items;
      RenderFresh(rows, items[..n]);
      var before := RenderRows(rows, items[..n]);
      assert RenderRows(rows, items) == RenderRow(before, last);
      assert last in items;
      RowsThenNewStep(rows, items, before);
    }
  }

  /** The rows the constructor renders for items with distinct keys: one per item, in item order. */
  lemma InitialRows(initial: seq<CheckableItem>)
    requires DistinctItemKeys(initial)
    ensures RenderRows([], SetAll([], initial)) == FreshRows(initial, 0)
  {
    SetAllDistinct(initial);
    RenderFresh([], initial);
    RowsThenNewIsFresh([], initial, RenderRows([], initial));
    assert [] + FreshRows(initial, 0) == FreshRows(initial, 0);
  }

  /**
   * `add(item)` of a key that has no row: the item is appended, and so is exactly one row,
   * at `top` equal to the previous row count, checked and prefixed as the item says.
   */
  lemma AddNewKey(items: seq<CheckableItem>, rows: seq<Row>, item: CheckableItem)
    requires Covered(rows, items) && !HasRow(rows, item.key)
    ensures SetItem(items, item) == items + [item]
    ensures RenderRows(rows, SetItem(items, item)) == rows + [NewRow(item, |rows|)]
    ensures NewRow(item, |rows|).content == (if item.checked then "[x] " else "[ ] ") + item.value
  {
    assert IndexOfKey(items, item.key).None?;
    var next := items + [item];
    assert next[..|next| - 1] == items;
  }

  /** `add(item)` of a key that already has a row updates the item and leaves every row as it was. */
  lemma AddExistingKey(items: seq<CheckableItem>, rows: seq<Row>, item: CheckableItem)
    requires Covered(rows, items) && HasRow(rows, item.key)
    ensures RenderRows(rows, SetItem(items, item)) == rows
  {
    var next := SetItem(items, item);
    forall i | 0 <= i < |next|
      ensures HasRow(rows, next[i].key)
    {
      if next[i] != item {
        var j :| 0 <= j < |items| && items[j] == next[i];
      }
    }
  }

  /** `remove(key)` drops the item but no row: the rows, and so the keys `selected` reports, stay. */
  lemma RemoveKeepsRows(items: seq<CheckableItem>, rows: seq<Row>, key: string)
    requires Covered(rows, items)
    ensures RenderRows(rows, DeleteItem(items, key)) == rows
    ensures Selected(RenderRows(rows, DeleteItem(items, key))) == Selected(rows)
  {
    var next := DeleteItem(items, key);
    forall i | 0 <= i < |next|
      ensures HasRow(rows, next[i].key)
    {
      var j :| 0 <= j < |items| && items[j] == next[i];
    }
  }

  /** The items after `_items.set(item.key, item)` for each item of `batch` in turn. */
  function SetAll(items: seq<CheckableItem>, batch: seq<CheckableItem>): (r: seq<CheckableItem>)
    ensures DistinctItemKeys(items) ==> DistinctItemKeys(r)
    ensures |r| <= |items| + |batch|
    decreases |batch|
  {
    if batch == [] then items
    else SetItem(SetAll(items, batch[..|batch| - 1]), batch[|batch| - 1])
  }

  /** Every key of the batch ends up among the items. */
  lemma {:induction false} SetAllCovers(items: seq<CheckableItem>, batch: seq<CheckableItem>)
    ensures forall x :: x in batch ==> exists y :: y in SetAll(items, batch) && y.key == x.key
    decreases |batch|
  {
    if batch != [] {
      var n := |batch| - 1;
      var before := SetAll(items, batch[..n]);
      var after := SetItem(before, batch[n]);
      assert SetAll(items, batch) == after;
      SetAllCovers(items, batch[..n]);
      PrefixAndLast(batch);
      forall x | x in batch
        ensures exists y :: y in after && y.key == x.key
      {
        if x == batch[n] {
          assert batch[n] in after;
        } else {
          assert x in batch[..n];
          var y :| y in before && y.key == x.key;
          if y.key != batch[n].key {
            assert y in after;
          } else {
            assert batch[n] in after;
          }
        }
      }
    }
  }

  /** With distinct keys, the items before the last have distinct keys, none of them the last one's. */
  lemma LastKeyIsNew(batch: seq<CheckableItem>)
    requires DistinctItemKeys(batch) && batch != []
    ensures DistinctItemKeys(batch[..|batch| - 1])
    ensures forall x :: x in batch[..|batch| - 1] ==> x.key != batch[|batch| - 1].key
  {
    var n := |batch| - 1;
    var prefix := batch[..n];
    assert forall i :: 0 <= i < n ==> prefix[i] == batch[i];
    forall x | x in prefix
      ensures x.key != batch[n].key
    {
      var j :| 0 <= j < n && prefix[j] == x;
    }
  }

  /** Items with distinct keys are set in their own order, each one appended. */
  lemma {:induction false} SetAllDistinct(batch: seq<CheckableItem>)
    requires DistinctItemKeys(batch)
    ensures SetAll([], batch) == batch
    decreases |batch|
  {
    if batch != [] {
      var n := |batch| - 1;
      var prefix := batch[..n];
      var last := batch[n];
      assert SetAll([], batch) == SetItem(SetAll([], prefix), last);
      SetAllDistinct(prefix) by {
        LastKeyIsNew(batch);
      }
      assert SetItem(prefix, last) == prefix + [last] by {
        LastKeyIsNew(batch);
      }
      PrefixAndLast(batch);
    }
  }

  /** What the constructor's items are: distinct, covering the initial keys, the initial items when those are distinct. */
  lemma InitialItems(initial: seq<CheckableItem>)
    ensures DistinctItemKeys(SetAll([], initial))
    ensures forall x :: x in initial ==> exists y :: y in SetAll([], initial) && y.key == x.key
    ensures |SetAll([], initial)| <= |initial|
    ensures DistinctItemKeys(initial) ==> SetAll([], initial) == initial
  {
    SetAllCovers([], initial);
    if DistinctItemKeys(initial) {
      SetAllDistinct(initial);
    }
    assert DistinctItemKeys([]);
  }

  /** The items and rows after `add(item)`. */
  function AddStep(items: seq<CheckableItem>, rows: seq<Row>, item: CheckableItem)
    : (r: (seq<CheckableItem>, seq<Row>))
  {
    var next := SetItem(items, item);
    (next, RenderRows(rows, next))
  }

  /**
   * The items and rows after `add` of each item in turn: the rows only grow, they stay
   * valid and cover the items, and every row added is the new row of an item of the batch.
   */
  function AddAll(items: seq<CheckableItem>, rows: seq<Row>, batch: seq<CheckableItem>)
    : (r: (seq<CheckableItem>, seq<Row>))
    ensures |rows| <= |r.1| && r.1[..|rows|] == rows
    ensures DistinctItemKeys(items) ==> DistinctItemKeys(r.0)
    ensures RowsValid(rows) ==> RowsValid(r.1)
    ensures Covered(rows, items) ==> Covered(r.1, r.0) && RowsAddedFor(rows, batch, r.1)
    decreases |batch|
  {
    if batch == [] then (items, rows)
    else
      var prev := AddAll(items, rows, batch[..|batch| - 1]);
      var r := AddStep(prev.0, prev.1, batch[|batch| - 1]);
      assert r.1[..|rows|] == rows by {
        assert r.1[..|prev.1|] == prev.1;
      }
      if Covered(rows, items) then
        AddAllAddedStep(rows, batch, prev.0, prev.1);
        r
      else r
  }

  /** One more `add` of the batch only adds the new row of the item it adds. */
  lemma AddAllAddedStep(rows: seq<Row>, batch: seq<CheckableItem>, items: seq<CheckableItem>, before: seq<Row>)
    requires batch != [] && |rows| <= |before| && before[..|rows|] == rows
    requires Covered(before, items) && RowsAddedFor(rows, batch[..|batch| - 1], before)
    ensures RowsAddedFor(rows, batch, AddStep(items, before, batch[|batch| - 1]).1)
  {
    var n := |batch| - 1;
    var last := batch[n];
    var next := SetItem(items, last);
    var r := RenderRows(before, next);
    RowsAddedWiden(rows, batch, n, before, r);
    forall i | |before| <= i < |r|
      ensures AddedAt(batch, r, i)
    {
      assert AddedAt(next, r, i);
      var j :| 0 <= j < |next| && r[i] == NewRow(next[j], i);
      NewKeyIsAdded(items, before, last, next[j], i, r);
      assert r[i] == NewRow(batch[n], i);
    }
  }

  /**
   * A row added after `before` when rendering `SetItem(items, last)`, every item having a
   * row in `before`, is the new row of `last`.
   */
  lemma NewKeyIsAdded(items: seq<CheckableItem>, before: seq<Row>, last: CheckableItem, x: CheckableItem,
                      i: nat, r: seq<Row>)
    requires Covered(before, items) && x in SetItem(items, last)
    requires r == RenderRows(before, SetItem(items, last)) && |before| <= i < |r| && r[i] == NewRow(x, i)
    ensures x == last
  {
  }

  /** Adding items with distinct keys to an empty list gives those items and one new row each, in order. */
  lemma {:induction false} AddAllFresh(batch: seq<CheckableItem>)
    requires DistinctItemKeys(batch)
    ensures AddAll([], [], batch) == (batch, FreshRows(batch, 0))
    decreases |batch|
  {
    if batch != [] {
      var n := |batch| - 1;
      var prefix := batch[..n];
      var last := batch[n];
      LastKeyIsNew(batch);
      AddAllFresh(prefix);
      var rows := FreshRows(prefix, 0);
      assert AddAll([], [], batch) == AddStep(prefix, rows, last);
      assert Covered(rows, prefix) by {
        forall i | 0 <= i < |prefix|
          ensures HasRow(rows, prefix[i].key)
        {
          assert rows[i].key == prefix[i].key;
        }
      }
      assert !HasRow(rows, last.key) by {
        forall i | 0 <= i < |rows|
          ensures rows[i].key != last.key
        {
          assert prefix[i] in prefix;
        }
      }
      AddNewKey(prefix, rows, last);
      PrefixAndLast(batch);
    }
  }

  /** Adding one more item of the batch is one more `add`. */
  lemma AddAllStep(items: seq<CheckableItem>, rows: seq<Row>, batch: seq<CheckableItem>, i: nat)
    requires i < |batch|
    ensures AddAll(items, rows, batch[..i + 1])
      == AddStep(AddAll(items, rows, batch[..i]).0, AddAll(items, rows, batch[..i]).1, batch[i])
  {
    assert batch[..i + 1][..i] == batch[..i];
  }

  /** The getter `selected`: the keys of checked rows, in row order. */
  function Selected(rows: seq<Row>): (r: seq<string>)
    ensures forall k :: k in r <==> exists i :: 0 <= i < |rows| && rows[i].key == k && rows[i].selected
    ensures |r| <= |rows|
    decreases |rows|
  {
    if rows == [] then []
    else
      var before := rows[..|rows| - 1];
      var last := rows[|rows| - 1];
      assert forall i :: 0 <= i < |before| ==> before[i] == rows[i];
      Selected(before) + (if last.selected then [last.key] else [])
  }

  /** New rows of unchecked items select nothing. */
  lemma NothingCheckedNothingSelected(items: seq<CheckableItem>, top: int)
    requires forall i :: 0 <= i < |items| ==> !items[i].checked
    ensures Selected(FreshRows(items, top)) == []
  {
  }

  /** The keys `selected` lists keep row order: selecting from two runs of rows concatenates. */
  lemma {:induction false} SelectedAppend(a: seq<Row>, b: seq<Row>)
    ensures Selected(a + b) == Selected(a) + Selected(b)
    decreases |b|
  {
    if b != [] {
      var b' := b[..|b| - 1];
      assert (a + b)[..|a + b| - 1] == a + b';
      SelectedAppend(a, b');
    } else {
      assert a + b == a;
    }
  }

  /** `toggleItem()` on one row: the flag flips and the check box is rewritten. */
  function Toggled(row: Row): (r: Row)
    ensures r.key == row.key && r.top == row.top && r.selected == !row.selected
    ensures |r.content| >= 4 && r.content[..4] == Prefix(r.selected)
    ensures r.content[4..] == AfterPrefix(row.content)
  {
    Row(row.key, Prefix(!row.selected) + AfterPrefix(row.content), !row.selected, row.top)
  }

  /** Toggling a row twice gives back a row whose content begins with its check box. */
  lemma ToggleTwice(row: Row, value: string)
    requires row.content == Prefix(row.selected) + value
    ensures Toggled(Toggled(row)) == row
  {
    assert AfterPrefix(row.content) == value;
    assert AfterPrefix(Prefix(!row.selected) + value) == value;
  }

  /** `toggleItem()`: only the row at `selectedIndex` changes; with no row there, nothing does. */
  function ToggleAt(rows: seq<Row>, index: int): (r: seq<Row>)
    ensures |r| == |rows|
    ensures !(0 <= index < |rows|) ==> r == rows
    ensures 0 <= index < |rows| ==> r[index] == Toggled(rows[index])
    ensures forall j :: 0 <= j < |rows| && j != index ==> r[j] == rows[j]
    ensures RowsValid(rows) ==> RowsValid(r)
  {
    if 0 <= index < |rows| then rows[index := Toggled(rows[index])] else rows
  }

  /** `selectItem(index)`: no change on an empty list, otherwise the index clamped into the rows. */
  function SelectIndex(rowCount: nat, selectedIndex: int, index: int): (r: int)
    ensures rowCount == 0 ==> r == selectedIndex
    ensures rowCount > 0 ==> 0 <= r < rowCount
    ensures rowCount > 0 && 0 <= index < rowCount ==> r == index
    ensures rowCount > 0 && index < 0 ==> r == 0
    ensures rowCount > 0 && index >= rowCount ==> r == rowCount - 1
  {
    if rowCount == 0 then selectedIndex else Contain(index, 0, rowCount - 1)
  }

  /** Moving the cursor never leaves the list: up from the first row stays there, down from the last too. */
  lemma CursorStaysInList(rowCount: nat, selectedIndex: int)
    requires 0 <= selectedIndex < rowCount
    ensures selectedIndex == 0 ==> SelectIndex(rowCount, selectedIndex, selectedIndex - 1) == 0
    ensures selectedIndex == rowCount - 1 ==>
      SelectIndex(rowCount, selectedIndex, selectedIndex + 1) == rowCount - 1
    ensures selectedIndex > 0 ==> SelectIndex(rowCount, selectedIndex, selectedIndex - 1) == selectedIndex - 1
    ensures selectedIndex < rowCount - 1 ==>
      SelectIndex(rowCount, selectedIndex, selectedIndex + 1) == selectedIndex + 1
  {
  }

  class CheckableList {
    var items: seq<CheckableItem>
    var rows: seq<Row>
    var selectedIndex: int

    /** Items have distinct keys, rows have distinct keys and `top` equal to their position, and every item has a row. */
    ghost predicate Valid()
      reads this
    {
      DistinctItemKeys(items) && RowsValid(rows) && Covered(rows, items)
    }

    /** The constructor: the given items are set in order, then rendered; no row is selected. */
    constructor(initial: seq<CheckableItem>)
      ensures Valid()
      ensures rows == RenderRows([], items) && selectedIndex == -1
      ensures forall x :: x in initial ==> exists y :: y in items && y.key == x.key
      ensures |items| <= |initial|
      ensures DistinctItemKeys(initial) ==> items == initial
    {
      var setItems := SetInitialItems(initial);
      InitialItems(initial);
      items := setItems;
      rows := [];
      selectedIndex := -1;
      new;
      assert RowsValid(rows);
      RenderItems();
      assert items == setItems;
    }

    /** The constructor's loop: `this._items.set(item.key, item)` for each initial item. */
    static method SetInitialItems(initial: seq<CheckableItem>) returns (setItems: seq<CheckableItem>)
      ensures setItems == SetAll([], initial)
    {
      setItems := [];
      var i := 0;
      while i < |initial|
        invariant 0 <= i <= |initial|
        invariant setItems == SetAll([], initial[..i])
      {
        assert initial[..i + 1][..i] == initial[..i];
        setItems := SetItem(setItems, initial[i]);
        i := i + 1;
      }
      assert initial[..|initial|] == initial;
    }

    /** `renderItems()`. */
    method RenderItems()
      modifies this
      ensures rows == RenderRows(old(rows), items)
      ensures items == old(items) && selectedIndex == old(selectedIndex)
    {
      var i := 0;
      while i < |items|
        invariant 0 <= i <= |items|
        invariant rows == RenderRows(old(rows), items[..i])
        invariant items == old(items) && selectedIndex == old(selectedIndex)
      {
        assert items[..i + 1][..i] == items[..i];
        var item := items[i];
        if !HasRow(rows, item.key) {
          rows := rows + [NewRow(item, |rows|)];
        }
        i := i + 1;
      }
      assert items[..|items|] == items;
    }

    /** `add(item)`. */
    method Add(item: CheckableItem)
      requires Valid()
      modifies this
      ensures Valid()
      ensures items == SetItem(old(items), item)
      ensures rows == RenderRows(old(rows), items) && selectedIndex == old(selectedIndex)
    {
      items := SetItem(items, item);
      RenderItems();
    }

    /** `add` of each item in turn. */
    method AddItems(batch: seq<CheckableItem>)
      requires Valid()
      modifies this
      ensures Valid()
      ensures (items, rows) == AddAll(old(items), old(rows), batch)
      ensures selectedIndex == old(selectedIndex)
    {
      var i := 0;
      while i < |batch|
        invariant 0 <= i <= |batch|
        invariant Valid()
        invariant (items, rows) == AddAll(old(items), old(rows), batch[..i])
        invariant selectedIndex == old(selectedIndex)
      {
        AddAllStep(old(items), old(rows), batch, i);
        Add(batch[i]);
        i := i + 1;
      }
      assert batch[..|batch|] == batch;
    }

    /** `remove(key)`. */
    method Remove(key: string)
      requires Valid()
      modifies this
      ensures Valid()
      ensures items == DeleteItem(old(items), key)
      ensures rows == old(rows) && selectedIndex == old(selectedIndex)
    {
      items := DeleteItem(items, key);
      RemoveKeepsRows(old(items), rows, key);
      RenderItems();
    }

    /** `toggleItem()`, bound to the space key through `onSelect`. */
    method ToggleItem()
      requires Valid()
      modifies this
      ensures Valid()
      ensures rows == ToggleAt(old(rows), selectedIndex)
      ensures items == old(items) && selectedIndex == old(selectedIndex)
    {
      if 0 <= selectedIndex < |rows| {
        rows := rows[selectedIndex := Toggled(rows[selectedIndex])];
        assert forall i :: 0 <= i < |old(rows)| ==> rows[i].key == old(rows)[i].key;
      }
    }

    /** `selectItem(index)`. */
    method SelectItem(index: int)
      modifies this
      ensures selectedIndex == SelectIndex(|rows|, old(selectedIndex), index)
      ensures rows == old(rows) && items == old(items)
    {
      if |rows| == 0 {
        return;
      }
      selectedIndex := Contain(index, 0, |rows| - 1);
    }

    /** `onUp()`. */
    method OnUp()
      modifies this
      ensures selectedIndex == SelectIndex(|rows|, old(selectedIndex), old(selectedIndex) - 1)
      ensures rows == old(rows) && items == old(items)
    {
      SelectItem(selectedIndex - 1);
    }

    /** `onDown()`. */
    method OnDown()
      modifies this
      ensures selectedIndex == SelectIndex(|rows|, old(selectedIndex), old(selectedIndex) + 1)
      ensures rows == old(rows) && items == old(items)
    {
      SelectItem(selectedIndex + 1);
    }

    /** `render()`: selects the current row, or the first one while none is selected. */
    method Render()
      modifies this
      ensures selectedIndex == SelectIndex(|rows|, old(selectedIndex), if old(selectedIndex) > 0 then old(selectedIndex) else 0)
      ensures rows == old(rows) && items == old(items)
    {
      SelectItem(if selectedIndex > 0 then selectedIndex else 0);
    }

    /** `clear()`: no items and no rows; the cursor is left where it was. */
    method Clear()
      modifies this
      ensures Valid()
      ensures items == [] && rows == [] && selectedIndex == old(selectedIndex)
    {
      items := [];
      rows := [];
    }

    /** The getter `selected`. */
    function SelectedKeys(): seq<string>
      reads this
    {
      Selected(rows)
    }
  }
}
