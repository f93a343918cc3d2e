/** Google Sheets as the bot sees them through gspread: a worksheet is a
    sequence of rows of strings, row 1 is the header and data rows start at
    sheet row 2. `delete_rows`, `append_row(s)`, `clear` and `update` are
    sequence operations. */
module Sheets {
  import opened Wrappers

  type Row = seq<string>

  class Worksheet {
    var rows: seq<Row>

    constructor (initial: seq<Row>)
      ensures rows == initial
    {
      rows := initial;
    }

    /** `delete_rows(index)`: removes the row with 1-based number `index`. */
    method DeleteRows(index: nat)
      requires 1 <= index <= |rows|
      modifies this
      ensures rows == DeleteRow(old(rows), index)
    {
      rows := rows[..index - 1] + rows[index..];
    }

    /** `append_row(row)` */
    method AppendRow(row: Row)
      modifies this
      ensures rows == old(rows) + [row]
    {
      rows := rows + [row];
    }

    /** `append_rows(more)` */
    method AppendRows(more: seq<Row>)
      modifies this
      ensures rows == old(rows) + more
    {
      rows := rows + more;
    }

    /** `clear()` */
    method Clear()
      modifies this
      ensures rows == []
    {
      rows := [];
    }

    /** `update("A{index}:..{index}", [cells])`: overwrites the leading cells of
        row `index` and keeps the cells after them. */
    method UpdateLeading(index: nat, cells: Row)
      requires 1 <= index <= |rows|
      modifies this
      ensures rows == old(rows)[index - 1 := Overwrite(old(rows)[index - 1], cells)]
    {
      rows := rows[index - 1 := Overwrite(rows[index - 1], cells)];
    }
  }

  function Overwrite(row: Row, cells: Row): (r: Row)
    ensures |r| == if |row| > |cells| then |row| else |cells|
    ensures r[..|cells|] == cells
    ensures forall j :: |cells| <= j < |row| ==> r[j] == row[j]
  {
    if |row| > |cells| then cells + row[|cells|..] else cells
  }

  /** `header.index(name)`, None where Python raises ValueError. */
  function HeaderIndex(header: Row, name: string): (r: Option<nat>)
    ensures r.Some? ==> r.value < |header| && header[r.value] == name
    ensures r.Some? ==> forall j :: 0 <= j < r.value ==> header[j] != name
    ensures r.None? ==> name !in header
  {
    if header == [] then None
    else if header[0] == name then Some(0)
    else match HeaderIndex(header[1..], name)
      case None => None
      case Some(k) => Some(k + 1)
  }

  /** Writing the same range twice leaves only the second write. */
  lemma OverwriteTwice(row: Row, first: Row, second: Row)
    requires |first| == |second|
    ensures Overwrite(Overwrite(row, first), second) == Overwrite(row, second)
  {
  }

  /** The sheet after `delete_rows(index)`. */
  function DeleteRow(s: seq<Row>, index: nat): seq<Row>
    requires 1 <= index <= |s|
  {
    s[..index - 1] + s[index..]
  }

  /** The rows of `data` for which `drop` does not hold, in their original order. */
  function Without(data: seq<Row>, drop: Row -> bool): (r: seq<Row>)
    ensures |r| <= |data|
  {
    if data == [] then []
    else Without(data[..|data| - 1], drop) + (if drop(data[|data| - 1]) then [] else [data[|data| - 1]])
  }

  /** A row survives exactly when it is one of the data rows and is not dropped. */
  lemma {:induction false} WithoutKeeps(data: seq<Row>, drop: Row -> bool, row: Row)
    ensures row in Without(data, drop) <==> row in data && !drop(row)
  {
    if data != [] {
      var init := data[..|data| - 1];
      WithoutKeeps(init, drop, row);
      assert data == init + [data[|data| - 1]];
    }
  }

  /** `get_all_values()[1:]`: the data rows below the header. */
  function Data(rows: seq<Row>): (r: seq<Row>)
    ensures |r| == if rows == [] then 0 else |rows| - 1
    ensures forall i :: 0 <= i < |r| ==> r[i] == rows[i + 1]
  {
    if rows == [] then [] else rows[1..]
  }

  /** A filter that drops nothing keeps every row. */
  lemma {:induction false} WithoutNone(data: seq<Row>, drop: Row -> bool)
    requires forall i :: 0 <= i < |data| ==> !drop(data[i])
    ensures Without(data, drop) == data
  {
    if data != [] {
      WithoutNone(data[..|data| - 1], drop);
    }
  }

  /** The sheet with its header kept and every data row for which `drop`
      holds removed. */
  function Purge(rows: seq<Row>, drop: Row -> bool): seq<Row> {
    if rows == [] then [] else [rows[0]] + Without(rows[1..], drop)
  }

  predicate Ascending(ps: seq<nat>) {
    forall k, l :: 0 <= k < l < |ps| ==> ps[k] < ps[l]
  }

  /** `[i + 2 for i, row in enumerate(data) if pick(row)]`: the sheet row
      numbers of the data rows that satisfy `pick`. */
  function Positions(data: seq<Row>, pick: Row -> bool): seq<nat> {
    if data == [] then []
    else Positions(data[..|data| - 1], pick) + (if pick(data[|data| - 1]) then [|data| + 1] else [])
  }

  /** The listed row numbers are exactly those of the selected data rows,
      in ascending order. */
  lemma {:induction false} PositionsSelect(data: seq<Row>, pick: Row -> bool)
    ensures var r := Positions(data, pick);
      && (forall k :: 0 <= k < |r| ==> 2 <= r[k] <= |data| + 1 && pick(data[r[k] - 2]))
      && (forall i :: 0 <= i < |data| && pick(data[i]) ==> i + 2 in r)
      && Ascending(r)
  {
    if data != [] {
      var init := data[..|data| - 1];
      PositionsSelect(init, pick);
      var before := Positions(init, pick);
      var r := Positions(data, pick);
      assert r == before + (if pick(data[|data| - 1]) then [|data| + 1] else []);
      forall k | 0 <= k < |r| ensures 2 <= r[k] <= |data| + 1 && pick(data[r[k] - 2]) {
        if k < |before| {
          assert r[k] == before[k];
          assert data[r[k] - 2] == init[r[k] - 2];
        }
      }
      forall i | 0 <= i < |data| && pick(data[i]) ensures i + 2 in r {
        if i < |init| {
          assert init[i] == data[i];
        }
      }
      forall k, l | 0 <= k < l < |r| ensures r[k] < r[l] {
        assert r[k] == before[k];
        if l < |before| {
          assert r[l] == before[l];
        }
      }
    }
  }

  /** The sheet without the rows whose 1-based numbers are listed in `ps`. */
  function Drop(s: seq<Row>, ps: seq<nat>): (r: seq<Row>)
    ensures |r| <= |s|
  {
    if s == [] then []
    else Drop(s[..|s| - 1], ps) + (if |s| in ps then [] else [s[|s| - 1]])
  }

  /** `for i in reversed(positions): ws.delete_rows(i)` */
  method DeleteEach(ws: Worksheet, positions: seq<nat>)
    requires Ascending(positions)
    requires forall k :: 0 <= k < |positions| ==> 1 <= positions[k] <= |ws.rows|
    modifies ws
    ensures ws.rows == Drop(old(ws.rows), positions)
  {
    ghost var s := ws.rows;
    DropNone(s, []);
    var k := |positions|;
    assert positions[k..] == [];
    while k > 0
      invariant 0 <= k <= |positions|
      invariant ws.rows == Drop(s, positions[k..])
    {
      var d := positions[k - 1];
      DropKeepsPrefix(s, positions[k..], d);
      DropStep(s, positions[k..], d);
      ws.DeleteRows(d);
      assert [d] + positions[k..] == positions[k - 1..];
      k := k - 1;
    }
  }

  lemma {:induction false} DropNone(s: seq<Row>, ps: seq<nat>)
    requires forall p :: p in ps ==> p > |s|
    ensures Drop(s, ps) == s
  {
    if s != [] {
      DropNone(s[..|s| - 1], ps);
    }
  }

  lemma {:induction false} DropAgree(s: seq<Row>, ps: seq<nat>, qs: seq<nat>)
    requires forall j :: 1 <= j <= |s| ==> (j in ps <==> j in qs)
    ensures Drop(s, ps) == Drop(s, qs)
  {
    if s != [] {
      DropAgree(s[..|s| - 1], ps, qs);
    }
  }

  /** Rows in front of every dropped row stay where they are. */
  lemma {:induction false} DropKeepsPrefix(s: seq<Row>, ps: seq<nat>, m: nat)
    requires m <= |s|
    requires forall p :: p in ps ==> p > m
    ensures |Drop(s, ps)| >= m && Drop(s, ps)[..m] == s[..m]
    decreases |s|
  {
    if |s| == m {
      DropNone(s, ps);
    } else {
      DropKeepsPrefix(s[..|s| - 1], ps, m);
    }
  }

  /** Deleting row `d` after every later listed row is gone is the same as
      dropping `d` together with them. */
  lemma {:induction false} DropStep(s: seq<Row>, ps: seq<nat>, d: nat)
    requires 1 <= d <= |s|
    requires forall p :: p in ps ==> p > d
    ensures d <= |Drop(s, ps)|
    ensures DeleteRow(Drop(s, ps), d) == Drop(s, [d] + ps)
    decreases |s|
  {
    var init := s[..|s| - 1];
    DropKeepsPrefix(s, ps, d);
    if |s| == d {
      DropNone(s, ps);
      DropNone(init, [d] + ps);
    } else {
      DropStep(init, ps, d);
      var x := Drop(init, ps);
      var tail: seq<Row> := if |s| in ps then [] else [s[|s| - 1]];
      DropKeepsPrefix(init, ps, d);
      assert DeleteRow(x + tail, d) == DeleteRow(x, d) + tail;
    }
  }

  /** Deleting the selected rows one by one from the bottom up leaves the
      header and exactly the unselected data rows, in their order. */
  lemma {:induction false} DropPositions(rows: seq<Row>, pick: Row -> bool)
    requires |rows| >= 1
    ensures Drop(rows, Positions(rows[1..], pick)) == Purge(rows, pick)
    decreases |rows|
  {
    var data := rows[1..];
    if |rows| == 1 {
      DropNone(rows, []);
    } else {
      var init := rows[..|rows| - 1];
      var last := rows[|rows| - 1];
      assert data[..|data| - 1] == init[1..];
      var ps := Positions(data, pick);
      var qs := Positions(init[1..], pick);
      PositionsSelect(init[1..], pick);
      assert ps == qs + (if pick(last) then [|rows|] else []);
      assert |rows| in ps <==> pick(last);
      DropAgree(init, ps, qs);
      DropPositions(init, pick);
      assert Drop(rows, ps) == Drop(init, ps) + (if pick(last) then [] else [last]);
    }
  }

  /** The same for any sheet, the empty one included. */
  lemma DeleteSelected(rows: seq<Row>, pick: Row -> bool)
    ensures Drop(rows, Positions(Data(rows), pick)) == Purge(rows, pick)
  {
    if rows == [] {
      DropNone(rows, []);
    } else {
      DropPositions(rows, pick);
    }
  }

  /** Filtering distributes over concatenation, so the kept rows stay in order. */
  lemma {:induction false} WithoutAppend(a: seq<Row>, b: seq<Row>, drop: Row -> bool)
    ensures Without(a + b, drop) == Without(a, drop) + Without(b, drop)
    decreases |b|
  {
    if b == [] {
      assert a + b == a;
    } else {
      var init := b[..|b| - 1];
      assert (a + b)[..|a + b| - 1] == a + init;
      WithoutAppend(a, init, drop);
    }
  }

  lemma {:induction false} WithoutIdempotent(data: seq<Row>, drop: Row -> bool)
    ensures Without(Without(data, drop), drop) == Without(data, drop)
  {
    if data != [] {
      var init := data[..|data| - 1];
      var tail: seq<Row> := if drop(data[|data| - 1]) then [] else [data[|data| - 1]];
      WithoutIdempotent(init, drop);
      WithoutAppend(Without(init, drop), tail, drop);
      assert Without(tail, drop) == tail by {
        if tail != [] { assert tail[..0] == []; }
      }
    }
  }

  /** Purging twice removes nothing more. */
  lemma PurgeIdempotent(rows: seq<Row>, drop: Row -> bool)
    ensures Purge(Purge(rows, drop), drop) == Purge(rows, drop)
  {
    if rows != [] {
      var p := Purge(rows, drop);
      assert p[1..] == Without(rows[1..], drop);
      WithoutIdempotent(rows[1..], drop);
    }
  }

  /** After the selected rows are gone, nothing is selected any more. */
  lemma {:induction false} NothingLeftToSelect(data: seq<Row>, pick: Row -> bool)
    ensures Positions(Without(data, pick), pick) == []
  {
    if data != [] {
      var init := data[..|data| - 1];
      var w := Without(data, pick);
      NothingLeftToSelect(init, pick);
      if !pick(data[|data| - 1]) {
        assert w[..|w| - 1] == Without(init, pick);
        assert w[|w| - 1] == data[|data| - 1];
        assert Positions(w, pick) == Positions(w[..|w| - 1], pick);
      } else {
        assert w == Without(init, pick);
      }
    }
  }
}
