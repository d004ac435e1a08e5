/** The content provider behind the catalog, reduced to an in-memory table:
    the store the catalog operations query, delete from and update. */
module Provider {
  import opened Wrappers
  import opened Catalog
  import opened Cursors
  import Schema

  class ThemeStore {
    var rows: seq<ThemeRow>

    constructor (rows: seq<ThemeRow>)
      ensures this.rows == rows
    {
      this.rows := rows;
    }

    /** ContentResolver.query: a fresh cursor over the selected rows, with the
        requested projection or, for a null projection, every column. */
    method Query(projection: Option<seq<string>>, w: Where) returns (c: Cursor)
      ensures fresh(c)
      ensures c.rows == Select(rows, w) && !c.closed && c.position == -1
      ensures c.columns == if projection.Some? then projection.value else Schema.AllColumns
    {
      var columns := if projection.Some? then projection.value else Schema.AllColumns;
      c := new Cursor(columns, Select(rows, w));
    }

    /** ContentResolver.delete: removes the selected rows, keeps the others in
        order, and returns how many rows went. */
    method Delete(w: Where) returns (count: nat)
      modifies this
      ensures rows == Reject(old(rows), w)
      ensures count == |Select(old(rows), w)| == |old(rows)| - |rows|
    {
      SelectRejectPartition(rows, w);
      count := |Select(rows, w)|;
      rows := Reject(rows, w);
    }

    /** ContentResolver.update: assigns `values` to the selected rows and
        returns how many rows were selected. */
    method Update(values: ContentValues, w: Where) returns (count: nat)
      modifies this
      ensures rows == Updated(old(rows), values, w)
      ensures count == |Select(old(rows), w)|
    {
      count := |Select(rows, w)|;
      rows := Updated(rows, values, w);
    }
  }
}
