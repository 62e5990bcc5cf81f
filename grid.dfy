/** The availability grids tenjin and gflow read: one row per time slot, its
    first cell naming the slot and each further cell standing for one date
    column. Reading a grid gives a table from date key to the slot labels
    available on that date, built by the loop both scrapers share:
    `for (let i = 1; i < cells.length && i - 1 < dates.length; i++)`, with the
    slot appended to the column's date only when it is not there yet. The
    sites differ in how a row's slot is read and when a cell counts as
    available; both are parameters here. */
module Grid {
  import opened Wrappers
  import opened Snapshot

  type Table = map<string, Slots>

  /** A table as the loop builds it: a date is only present once it received
      a slot, and no slot is listed twice. */
  ghost predicate WellFormed(data: Table) {
    forall k :: k in data ==> data[k] != [] && NoDuplicates(data[k])
  }

  /** `if (!data[k]) data[k] = []; if (!data[k].includes(t)) data[k].push(t)` */
  function AddSlot(data: Table, k: string, t: string): (r: Table)
    ensures r.Keys == data.Keys + {k}
    ensures forall k', t' :: k' in r && t' in r[k'] <==> (k' in data && t' in data[k']) || (k' == k && t' == t)
    ensures WellFormed(data) ==> WellFormed(r)
  {
    data[k := PushNew(if k in data then data[k] else [], t)]
  }

  /** How many leading cells the column loop visits: it stops at the end of
      the row or after the last date. */
  function Columns(cells: nat, dates: nat): nat {
    if cells < dates + 1 then cells else dates + 1
  }

  /** Column `i` of the row is an available cell of date `k`. */
  predicate ColumnAt<C>(cells: seq<C>, available: C -> bool, dates: seq<string>, i: int, k: string) {
    1 <= i < |cells| && i - 1 < |dates| && available(cells[i]) && k == dates[i - 1]
  }

  /** The column loop over the first `n` cells of a row with slot `slot`. */
  function RowInto<C>(data: Table, cells: seq<C>, available: C -> bool, slot: string, dates: seq<string>, n: nat): Table
    requires n <= Columns(|cells|, |dates|)
  {
    if n <= 1 then data
    else
      var d := RowInto(data, cells, available, slot, dates, n - 1);
      if available(cells[n - 1]) then AddSlot(d, dates[n - 2], slot) else d
  }

  /** The column loop adds the row's slot to exactly the dates of its
      available cells, keeps what was there, and never duplicates a slot. */
  lemma {:induction false} RowIntoSpec<C>(data: Table, cells: seq<C>, available: C -> bool, slot: string, dates: seq<string>, n: nat)
    requires n <= Columns(|cells|, |dates|)
    ensures var r := RowInto(data, cells, available, slot, dates, n);
      (WellFormed(data) ==> WellFormed(r))
      && (forall k :: k in r <==> k in data || exists i :: i < n && ColumnAt(cells, available, dates, i, k))
      && forall k, t :: k in r && t in r[k] <==>
        (k in data && t in data[k]) || (t == slot && exists i :: i < n && ColumnAt(cells, available, dates, i, k))
  {
    if n > 1 {
      RowIntoSpec(data, cells, available, slot, dates, n - 1);
      var d := RowInto(data, cells, available, slot, dates, n - 1);
      var r := RowInto(data, cells, available, slot, dates, n);
      forall k ensures k in r <==> k in data || exists i :: i < n && ColumnAt(cells, available, dates, i, k) {
        if k in r && k !in data && available(cells[n - 1]) && k == dates[n - 2] {
          assert ColumnAt(cells, available, dates, n - 1, k);
        }
      }
      forall k, t ensures k in r && t in r[k] <==>
        (k in data && t in data[k]) || (t == slot && exists i :: i < n && ColumnAt(cells, available, dates, i, k))
      {
        if k in r && t in r[k] && available(cells[n - 1]) && k == dates[n - 2] && t == slot {
          assert ColumnAt(cells, available, dates, n - 1, k);
        }
      }
    }
  }

  /** One row: rows with fewer than two cells, or whose first cell yields no
      slot, add nothing. */
  function RowSlots<C>(data: Table, cells: seq<C>, labelOf: C -> Option<string>, available: C -> bool, dates: seq<string>): Table {
    if |cells| < 2 then data
    else match labelOf(cells[0])
      case None => data
      case Some(slot) => RowInto(data, cells, available, slot, dates, Columns(|cells|, |dates|))
  }

  /** The table of a whole grid, rows in order. */
  function TableOf<C>(rows: seq<seq<C>>, labelOf: C -> Option<string>, available: C -> bool, dates: seq<string>): Table {
    if rows == [] then map[]
    else RowSlots(TableOf(rows[..|rows| - 1], labelOf, available, dates), rows[|rows| - 1], labelOf, available, dates)
  }

  /** Row `cells` offers slot `t` on date `k`, in column `i`. */
  predicate SlotAt<C>(cells: seq<C>, labelOf: C -> Option<string>, available: C -> bool, dates: seq<string>, i: int, k: string, t: string) {
    2 <= |cells| && labelOf(cells[0]) == Some(t) && ColumnAt(cells, available, dates, i, k)
  }

  /** Slot `t` is in the list of date `k`. */
  predicate Listed(data: Table, k: string, t: string) {
    k in data && t in data[k]
  }

  /** What reading a grid gives: a date is present exactly when some row
      offers a slot on it, its list holds exactly the labels of the rows that
      offer a slot on it, and no slot is listed twice. */
  lemma TableOfSpec<C>(rows: seq<seq<C>>, labelOf: C -> Option<string>, available: C -> bool, dates: seq<string>)
    ensures var data := TableOf(rows, labelOf, available, dates);
      WellFormed(data)
      && (forall k :: k in data <==> exists r, i, t :: 0 <= r < |rows| && SlotAt(rows[r], labelOf, available, dates, i, k, t))
      && forall k, t :: Listed(data, k, t) <==>
        exists r, i :: 0 <= r < |rows| && SlotAt(rows[r], labelOf, available, dates, i, k, t)
  {
    var data := TableOf(rows, labelOf, available, dates);
    TableOfMembers(rows, labelOf, available, dates);
    forall k ensures k in data <==> exists r, i, t :: 0 <= r < |rows| && SlotAt(rows[r], labelOf, available, dates, i, k, t) {
      if k in data {
        var t := data[k][0];
        assert Listed(data, k, t);
      }
      if exists r, i, t :: 0 <= r < |rows| && SlotAt(rows[r], labelOf, available, dates, i, k, t) {
        var r, i, t :| 0 <= r < |rows| && SlotAt(rows[r], labelOf, available, dates, i, k, t);
        assert Listed(data, k, t);
      }
    }
  }

  /** The lists of a grid's table, row by row. */
  /** One row's contribution: a slot is listed after the row exactly when it
      was listed before or the row offers it on that date. */
  lemma RowSlotsMembers<C>(d: Table, cells: seq<C>, labelOf: C -> Option<string>, available: C -> bool, dates: seq<string>, k: string, t: string)
    ensures var data := RowSlots(d, cells, labelOf, available, dates);
      (WellFormed(d) ==> WellFormed(data))
      && (Listed(data, k, t) <==> Listed(d, k, t) || exists i :: SlotAt(cells, labelOf, available, dates, i, k, t))
  {
    if |cells| >= 2 && labelOf(cells[0]).Some? {
      var n := Columns(|cells|, |dates|);
      var slot := labelOf(cells[0]).value;
      RowIntoSpec(d, cells, available, slot, dates, n);
      var data := RowInto(d, cells, available, slot, dates, n);
      if Listed(data, k, t) && !Listed(d, k, t) {
        assert t == slot && exists i :: i < n && ColumnAt(cells, available, dates, i, k);
        var i :| i < n && ColumnAt(cells, available, dates, i, k);
        assert SlotAt(cells, labelOf, available, dates, i, k, t);
      }
      if exists i :: SlotAt(cells, labelOf, available, dates, i, k, t) {
        var i :| SlotAt(cells, labelOf, available, dates, i, k, t);
        assert i < n && ColumnAt(cells, available, dates, i, k);
      }
    }
  }

  lemma {:induction false} TableOfMembers<C>(rows: seq<seq<C>>, labelOf: C -> Option<string>, available: C -> bool, dates: seq<string>)
    ensures var data := TableOf(rows, labelOf, available, dates);
      WellFormed(data)
      && forall k, t :: Listed(data, k, t) <==>
        exists r, i :: 0 <= r < |rows| && SlotAt(rows[r], labelOf, available, dates, i, k, t)
  {
    if rows != [] {
      var init := rows[..|rows| - 1];
      var cells := rows[|rows| - 1];
      TableOfMembers(init, labelOf, available, dates);
      var d := TableOf(init, labelOf, available, dates);
      var data := TableOf(rows, labelOf, available, dates);
      RowSlotsMembers(d, cells, labelOf, available, dates, "", "");
      forall k, t ensures Listed(data, k, t) <==>
        exists r, i :: 0 <= r < |rows| && SlotAt(rows[r], labelOf, available, dates, i, k, t)
      {
        RowSlotsMembers(d, cells, labelOf, available, dates, k, t);
        if Listed(data, k, t) {
          if Listed(d, k, t) {
            var r, i :| 0 <= r < |init| && SlotAt(init[r], labelOf, available, dates, i, k, t);
            assert rows[r] == init[r];
          } else {
            var i :| SlotAt(cells, labelOf, available, dates, i, k, t);
            assert SlotAt(rows[|rows| - 1], labelOf, available, dates, i, k, t);
          }
        }
        if exists r, i :: 0 <= r < |rows| && SlotAt(rows[r], labelOf, available, dates, i, k, t) {
          var r, i :| 0 <= r < |rows| && SlotAt(rows[r], labelOf, available, dates, i, k, t);
          if r < |init| {
            assert SlotAt(init[r], labelOf, available, dates, i, k, t);
          } else {
            assert SlotAt(cells, labelOf, available, dates, i, k, t);
          }
        }
      }
    }
  }

  /** The column loop of one row, in place. */
  method RecordRow<C>(data: Table, cells: seq<C>, available: C -> bool, slot: string, dates: seq<string>) returns (r: Table)
    ensures r == RowInto(data, cells, available, slot, dates, Columns(|cells|, |dates|))
  {
    r := data;
    var i := 1;
    while i < |cells| && i - 1 < |dates|
      invariant 1 <= i && (i <= Columns(|cells|, |dates|) || (|cells| == 0 && i == 1))
      invariant r == RowInto(data, cells, available, slot, dates, if |cells| == 0 then 0 else i)
    {
      ghost var before := r;
      if available(cells[i]) {
        var k := dates[i - 1];
        var list := if k in r then r[k] else [];
        if slot !in list {
          r := r[k := list + [slot]];
        }
        assert r == AddSlot(before, k, slot);
      }
      assert r == RowInto(data, cells, available, slot, dates, i + 1);
      i := i + 1;
    }
  }

  /** The row loop of a whole grid, in place. */
  method ReadGrid<C>(rows: seq<seq<C>>, labelOf: C -> Option<string>, available: C -> bool, dates: seq<string>) returns (data: Table)
    ensures data == TableOf(rows, labelOf, available, dates)
  {
    data := map[];
    for j := 0 to |rows|
      invariant data == TableOf(rows[..j], labelOf, available, dates)
    {
      var cells := rows[j];
      assert rows[..j + 1][..j] == rows[..j];
      if |cells| < 2 {
        continue;
      }
      var slot := labelOf(cells[0]);
      if slot.None? {
        continue;
      }
      data := RecordRow(data, cells, available, slot.value, dates);
    }
    assert rows[..|rows|] == rows;
  }
}
