/**
 * The data side of `EventList` (src/components/EventList.ts): the row definitions, the
 * rendered rows with their `$.selected` flag and `top` offset, and the cursor `selected`.
 */
module EventLists {
  import opened Wrappers
  import opened Utils

  /** `RowDef`: the texts a row shows; `None` is an omitted optional field. */
  datatype RowDef = RowDef(title: string, time: Option<string>, location: Option<string>,
                           calendarName: Option<string>)

  /** A rendered row: its `top` offset, its `$.selected` flag, and the definition it shows. */
  datatype EventRow = EventRow(top: int, flagged: bool, def: RowDef)

  /** The error `render()` meets: `appendRow` is passed without its receiver. */
  const UnboundReceiver: string := "TypeError: Cannot read properties of undefined (reading 'rows')"

  /** `appendRow(props)`: one unflagged row, three lines below the previous one. */
  function AppendRow(rows: seq<EventRow>, def: RowDef): (r: seq<EventRow>)
    ensures |r| == |rows| + 1 && r[..|rows|] == rows
    ensures r[|rows|] == EventRow(3 * |rows|, false, def)
  {
    rows + [EventRow(3 * |rows|, false, def)]
  }

  /** Each row's `top` is three times its position. */
  predicate Stacked(rows: seq<EventRow>)
  {
    forall i :: 0 <= i < |rows| ==> rows[i].top == 3 * i
  }

  /** No two rows carry the selected flag. */
  predicate AtMostOneFlagged(rows: seq<EventRow>)
  {
    forall i, j :: 0 <= i < |rows| && 0 <= j < |rows| && rows[i].flagged && rows[j].flagged ==> i == j
  }

  /** `this.rows.find((r) => r.$.selected)`: the first flagged row, if any. */
  function FirstFlagged(rows: seq<EventRow>): (r: Option<nat>)
    ensures r.Some? ==> r.value < |rows| && rows[r.value].flagged
    ensures r.Some? ==> forall j :: 0 <= j < r.value ==> !rows[j].flagged
    ensures r.None? ==> forall j :: 0 <= j < |rows| ==> !rows[j].flagged
  {
    if rows == [] then None
    else if rows[0].flagged then Some(0)
    else match FirstFlagged(rows[1..])
      case None => None
      case Some(i) => Some(i + 1)
  }

  /** `select(index)` on the rows: the first flagged row is cleared, then the target row is flagged. */
  function SelectRows(rows: seq<EventRow>, index: int): (r: seq<EventRow>)
    ensures |r| == |rows|
    ensures forall j :: 0 <= j < |rows| ==> r[j].top == rows[j].top && r[j].def == rows[j].def
  {
    if |rows| == 0 then rows
    else
      var i := Contain(index, 0, |rows| - 1);
      var cleared := match FirstFlagged(rows)
        case None => rows
        case Some(p) => rows[p := rows[p].(flagged := false)];
      cleared[i := cleared[i].(flagged := true)]
  }

  /** The cursor after `select(index)`: unchanged on an empty list, otherwise the clamped index. */
  function SelectCursor(rowCount: nat, selected: int, index: int): (r: int)
    ensures rowCount == 0 ==> r == selected
    ensures rowCount > 0 ==> 0 <= r < rowCount && r == Contain(index, 0, rowCount - 1)
  {
    if rowCount == 0 then selected else Contain(index, 0, rowCount - 1)
  }

  /**
   * With at most one row flagged before, `select(index)` on a non-empty list leaves exactly
   * one row flagged: the one at the clamped index, which becomes the cursor.
   */
  lemma SelectFlagsOneRow(rows: seq<EventRow>, selected: int, index: int)
    requires AtMostOneFlagged(rows) && |rows| > 0
    ensures var r := SelectRows(rows, index);
      var i := SelectCursor(|rows|, selected, index);
      (forall j :: 0 <= j < |r| ==> (r[j].flagged <==> j == i)) && AtMostOneFlagged(r)
  {
  }

  /** `select` on an empty list changes nothing. */
  lemma SelectEmptyNoOp(selected: int, index: int)
    ensures SelectRows([], index) == [] && SelectCursor(0, selected, index) == selected
  {
  }

  /** `onUp` at the first row stays there, `onDown` at the last row stays there. */
  lemma CursorAtEdges(rowCount: nat, selected: int)
    requires 0 <= selected < rowCount
    ensures selected == 0 ==> SelectCursor(rowCount, selected, selected - 1) == 0
    ensures selected == rowCount - 1 ==> SelectCursor(rowCount, selected, selected + 1) == rowCount - 1
  {
  }

  /** The rows after `appendRow` of each definition in turn. */
  function AppendAll(rows: seq<EventRow>, defs: seq<RowDef>): (r: seq<EventRow>)
    ensures |r| == |rows| + |defs| && r[..|rows|] == rows
    ensures forall k :: 0 <= k < |defs| ==> r[|rows| + k] == EventRow(3 * (|rows| + k), false, defs[k])
    decreases |defs|
  {
    if defs == [] then rows
    else
      var before := AppendAll(rows, defs[..|defs| - 1]);
      assert forall k :: 0 <= k < |defs| - 1 ==> defs[..|defs| - 1][k] == defs[k];
      AppendRow(before, defs[|defs| - 1])
  }

  /** Appending rows keeps the offsets stacked and adds no flag. */
  lemma AppendAllKeepsValid(rows: seq<EventRow>, defs: seq<RowDef>)
    requires Stacked(rows) && AtMostOneFlagged(rows)
    ensures Stacked(AppendAll(rows, defs)) && AtMostOneFlagged(AppendAll(rows, defs))
  {
    var r := AppendAll(rows, defs);
    forall i | 0 <= i < |r|
      ensures r[i].top == 3 * i
      ensures i >= |rows| ==> !r[i].flagged
    {
      if i < |rows| {
        assert r[i] == r[..|rows|][i];
      } else {
        var k := i - |rows|;
        assert r[|rows| + k] == EventRow(3 * (|rows| + k), false, defs[k]);
      }
    }
    forall i | 0 <= i < |rows|
      ensures r[i] == rows[i]
    {
      assert r[i] == r[..|rows|][i];
    }
  }

  /**
   * `addRows` on a list with nothing selected (`selected == -1`) ends with the first row
   * flagged and the cursor on it, as long as there is any row.
   */
  lemma AddRowsSelectsFirst(rows: seq<EventRow>, defs: seq<RowDef>)
    requires Stacked(rows) && AtMostOneFlagged(rows)
    requires |rows| + |defs| > 0
    ensures var r := SelectRows(AppendAll(rows, defs), -1);
      SelectCursor(|rows| + |defs|, -1, -1) == 0
      && r[0].flagged && forall j :: 0 < j < |r| ==> !r[j].flagged
  {
    AppendAllKeepsValid(rows, defs);
    SelectFlagsOneRow(AppendAll(rows, defs), -1, -1);
  }

  class EventList {
    var items: seq<RowDef>
    var rows: seq<EventRow>
    var selected: int

    /** Row offsets are stacked three lines apart and at most one row is flagged. */
    ghost predicate Valid()
      reads this
    {
      Stacked(rows) && AtMostOneFlagged(rows)
    }

    /** The constructor keeps the given definitions; no row exists until the list is rendered. */
    constructor(defs: seq<RowDef>)
      ensures Valid()
      ensures items == defs && rows == [] && selected == -1
    {
      items := defs;
      rows := [];
      selected := -1;
    }

    /** `appendRow(props)`. */
    method AppendRowTo(def: RowDef)
      requires Valid()
      modifies this
      ensures Valid()
      ensures rows == AppendRow(old(rows), def)
      ensures items == old(items) && selected == old(selected)
    {
      rows := rows + [EventRow(3 * |rows|, false, def)];
      AppendAllKeepsValid(old(rows), [def]);
      assert AppendAll(old(rows), [def]) == rows;
    }

    /** `select(index)`. */
    method Select(index: int)
      requires Valid()
      modifies this
      ensures Valid()
      ensures rows == SelectRows(old(rows), index)
      ensures selected == SelectCursor(|old(rows)|, old(selected), index)
      ensures items == old(items)
    {
      if |rows| == 0 {
        return;
      }
      var i := Contain(index, 0, |rows| - 1);
      var prev := FirstFlagged(rows);
      if prev.Some? {
        rows := rows[prev.value := rows[prev.value].(flagged := false)];
      }
      rows := rows[i := rows[i].(flagged := true)];
      selected := i;
      SelectFlagsOneRow(old(rows), old(selected), index);
    }

    /** `addRows(defs)`: each definition is kept and rendered, then a list with no selection selects. */
    method AddRows(defs: seq<RowDef>)
      requires Valid()
      modifies this
      ensures Valid()
      ensures items == old(items) + defs
      ensures old(selected) == -1 ==>
        rows == SelectRows(AppendAll(old(rows), defs), -1)
        && selected == SelectCursor(|old(rows)| + |defs|, -1, -1)
      ensures old(selected) != -1 ==> rows == AppendAll(old(rows), defs) && selected == old(selected)
    {
      var k := 0;
      while k < |defs|
        invariant 0 <= k <= |defs|
        invariant Valid()
        invariant items == old(items) + defs[..k]
        invariant rows == AppendAll(old(rows), defs[..k])
        invariant selected == old(selected)
      {
        assert defs[..k + 1][..k] == defs[..k];
        items := items + [defs[k]];
        AppendRowTo(defs[k]);
        k := k + 1;
      }
      assert defs[..|defs|] == defs;
      if selected == -1 {
        Select(selected);
      }
    }

    /**
     * `render()`: the rows are dropped; rebuilding them fails on the first definition, since
     * `appendRow` runs without its receiver. With no definitions the empty list is selected,
     * which changes nothing.
     */
    method Render() returns (error: Option<string>)
      requires Valid()
      modifies this
      ensures Valid()
      ensures rows == [] && items == old(items) && selected == old(selected)
      ensures error.Some? <==> items != []
    {
      rows := [];
      if items != [] {
        return Some(UnboundReceiver);
      }
      Select(selected);
      error := None;
    }

    /** `onUp()`. */
    method OnUp()
      requires Valid()
      modifies this
      ensures Valid()
      ensures rows == SelectRows(old(rows), old(selected) - 1)
      ensures selected == SelectCursor(|old(rows)|, old(selected), old(selected) - 1)
      ensures items == old(items)
    {
      Select(selected - 1);
    }

    /** `onDown()`. */
    method OnDown()
      requires Valid()
      modifies this
      ensures Valid()
      ensures rows == SelectRows(old(rows), old(selected) + 1)
      ensures selected == SelectCursor(|old(rows)|, old(selected), old(selected) + 1)
      ensures items == old(items)
    {
      Select(selected + 1);
    }
  }
}
