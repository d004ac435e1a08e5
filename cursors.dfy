/** The result set the store hands back for a query (android.database.Cursor):
    a fixed projection of column names over a snapshot of rows, a current
    position and a closed flag.  Positioning follows AbstractCursor: a move
    before the first row parks the cursor at -1, a move past the last row
    parks it at the row count. */
module Cursors {
  import opened Wrappers
  import opened Catalog
  import Schema

  /** First index of `name` in `names`, or -1 when it is absent. */
  function IndexOf(names: seq<string>, name: string): (i: int)
    ensures -1 <= i < |names|
    ensures i == -1 <==> name !in names
    ensures 0 <= i ==> names[i] == name && forall j :: 0 <= j < i ==> names[j] != name
  {
    if names == [] then -1
    else if names[0] == name then 0
    else
      var k := IndexOf(names[1..], name);
      if k == -1 then -1 else k + 1
  }

  /** Where a cursor over `count` rows lands when asked to move to `target`. */
  function Landing(count: nat, target: int): (pos: int)
    ensures -1 <= pos <= count
    ensures pos == target <==> 0 <= target < count || target == -1 || target == count
    ensures 0 <= pos < count <==> 0 <= target < count
  {
    if target >= count then count
    else if target < 0 then -1
    else target
  }

  class Cursor {
    const columns: seq<string>
    const rows: seq<ThemeRow>
    var position: int
    var closed: bool

    /** The cursor's invariant: its position is a row, or -1 (before the
        first row), or the row count (after the last). */
    ghost predicate Valid()
      reads this`position
    {
      -1 <= position <= |rows|
    }

    /** A fresh cursor sits before its first row. */
    constructor (columns: seq<string>, rows: seq<ThemeRow>)
      ensures this.columns == columns && this.rows == rows
      ensures position == -1 && !closed && Valid()
    {
      this.columns := columns;
      this.rows := rows;
      position := -1;
      closed := false;
    }

    function Count(): (n: nat)
      ensures n == |rows|
    {
      |rows|
    }

    /** The cursor is open and on one of its rows. */
    predicate OnRow()
      reads this
    {
      !closed && 0 <= position < |rows|
    }

    function CurrentRow(): ThemeRow
      reads this
      requires OnRow()
    {
      rows[position]
    }

    function GetColumnIndex(name: string): (i: int)
      ensures -1 <= i < |columns|
      ensures i == -1 <==> name !in columns
      ensures 0 <= i ==> columns[i] == name
    {
      IndexOf(columns, name)
    }

    /** The current row's value in text column `i`; None for SQL NULL. */
    function GetString(i: int): (s: Option<string>)
      reads this
      requires OnRow() && 0 <= i < |columns| && Schema.IsTextColumn(columns[i])
    {
      TextCell(rows[position], columns[i])
    }

    /** The current row's value in integer column `i`. */
    function GetInt(i: int): int
      reads this
      requires OnRow() && 0 <= i < |columns| && columns[i] in Schema.IntColumns
    {
      IntCell(rows[position], columns[i])
    }

    method MoveToPosition(target: int) returns (ok: bool)
      modifies this`position
      ensures position == Landing(|rows|, target) && Valid()
      ensures ok <==> 0 <= target < |rows|
    {
      if target >= |rows| {
        position := |rows|;
        ok := false;
      } else if target < 0 {
        position := -1;
        ok := false;
      } else {
        position := target;
        ok := true;
      }
    }

    method MoveToFirst() returns (ok: bool)
      modifies this`position
      ensures ok <==> |rows| > 0
      ensures position == if ok then 0 else |rows|
    {
      ok := MoveToPosition(0);
    }

    method Close()
      modifies this`closed
      ensures closed
    {
      closed := true;
    }
  }
}
