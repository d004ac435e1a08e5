/** The theme table as values: one row per installed (package, theme) pair,
    the selection clauses the catalog operations pass to the store, and the
    effect of a query, a delete and an update on a sequence of rows. */
module Catalog {
  import opened Wrappers
  import Schema

  /** One row of the themes table, one field per column of Schema.AllColumns.
      Integer columns are ints, nullable text columns are Options. */
  datatype ThemeRow = ThemeRow(
    id: int,
    themeId: string,
    packageName: string,
    isApplied: int,
    name: string,
    styleName: string,
    author: string,
    isDrm: int,
    wallpaperName: Option<string>,
    wallpaperUri: Option<string>,
    lockWallpaperName: Option<string>,
    lockWallpaperUri: Option<string>,
    ringtoneName: Option<string>,
    ringtoneUri: Option<string>,
    notifRingtoneName: Option<string>,
    notifRingtoneUri: Option<string>,
    thumbnailUri: Option<string>,
    previewUri: Option<string>,
    system: int)

  /** The value of a text column of a row, None for SQL NULL. */
  function TextCell(r: ThemeRow, column: string): Option<string>
  {
    if column == Schema.ThemeId then Some(r.themeId)
    else if column == Schema.ThemePackage then Some(r.packageName)
    else if column == Schema.Name then Some(r.name)
    else if column == Schema.StyleName then Some(r.styleName)
    else if column == Schema.Author then Some(r.author)
    else if column == Schema.WallpaperName then r.wallpaperName
    else if column == Schema.WallpaperUri then r.wallpaperUri
    else if column == Schema.LockWallpaperName then r.lockWallpaperName
    else if column == Schema.LockWallpaperUri then r.lockWallpaperUri
    else if column == Schema.RingtoneName then r.ringtoneName
    else if column == Schema.RingtoneUri then r.ringtoneUri
    else if column == Schema.NotificationRingtoneName then r.notifRingtoneName
    else if column == Schema.NotificationRingtoneUri then r.notifRingtoneUri
    else if column == Schema.ThumbnailUri then r.thumbnailUri
    else if column == Schema.PreviewUri then r.previewUri
    else None
  }

  /** The value of an integer column of a row. */
  function IntCell(r: ThemeRow, column: string): int
  {
    if column == Schema.Id then r.id
    else if column == Schema.IsApplied then r.isApplied
    else if column == Schema.IsDrm then r.isDrm
    else if column == Schema.IsSystem then r.system
    else 0
  }

  /** Each column name reads its own field of a row. */
  lemma CellsByName(r: ThemeRow)
    ensures TextCell(r, Schema.ThemeId) == Some(r.themeId)
    ensures TextCell(r, Schema.ThemePackage) == Some(r.packageName)
    ensures TextCell(r, Schema.Name) == Some(r.name)
    ensures TextCell(r, Schema.StyleName) == Some(r.styleName)
    ensures TextCell(r, Schema.Author) == Some(r.author)
    ensures TextCell(r, Schema.WallpaperName) == r.wallpaperName
    ensures TextCell(r, Schema.WallpaperUri) == r.wallpaperUri
    ensures TextCell(r, Schema.RingtoneName) == r.ringtoneName
    ensures TextCell(r, Schema.RingtoneUri) == r.ringtoneUri
    ensures TextCell(r, Schema.NotificationRingtoneName) == r.notifRingtoneName
    ensures TextCell(r, Schema.NotificationRingtoneUri) == r.notifRingtoneUri
    ensures TextCell(r, Schema.ThumbnailUri) == r.thumbnailUri
    ensures IntCell(r, Schema.IsApplied) == r.isApplied
    ensures IntCell(r, Schema.IsDrm) == r.isDrm
    ensures IntCell(r, Schema.IsSystem) == r.system
  {
    // Names of equal length differ at one of their first three characters.
    assert Schema.ThemePackage[2] != Schema.ThumbnailUri[2];
    assert Schema.ThemePackage[0] != Schema.WallpaperUri[0];
    assert Schema.ThemePackage[0] != Schema.RingtoneName[0];
    assert Schema.WallpaperUri[0] != Schema.RingtoneName[0];
    assert Schema.WallpaperUri[0] != Schema.ThumbnailUri[0];
    assert Schema.RingtoneName[0] != Schema.ThumbnailUri[0];
    assert Schema.LockWallpaperName[0] != Schema.NotificationRingtoneName[0];
    assert Schema.LockWallpaperUri[0] != Schema.NotificationRingtoneUri[0];
    assert Schema.IsDrm[0] != Schema.IsSystem[0];
  }

  /** The selection clauses the catalog passes to the store:
      null, `theme_package = ?`, `theme_package = ? AND theme_id = ?`, `is_applied=1`. */
  datatype Where =
    | All
    | PackageIs(packageName: string)
    | KeyIs(packageName: string, themeId: string)
    | AppliedIsOne

  predicate Selects(w: Where, r: ThemeRow) {
    match w
    case All => true
    case PackageIs(p) => r.packageName == p
    case KeyIs(p, t) => r.packageName == p && r.themeId == t
    case AppliedIsOne => r.isApplied == 1
  }

  /** The rows a query with clause `w` returns, in table order. */
  function Select(rows: seq<ThemeRow>, w: Where): (r: seq<ThemeRow>)
    ensures |r| <= |rows|
    ensures forall x {:trigger x in r} :: x in r <==> x in rows && Selects(w, x)
  {
    if rows == [] then []
    else (if Selects(w, rows[0]) then [rows[0]] else []) + Select(rows[1..], w)
  }

  /** The rows a delete with clause `w` leaves, in table order. */
  function Reject(rows: seq<ThemeRow>, w: Where): (r: seq<ThemeRow>)
    ensures |r| <= |rows|
    ensures forall x {:trigger x in r} :: x in r <==> x in rows && !Selects(w, x)
  {
    if rows == [] then []
    else (if Selects(w, rows[0]) then [] else [rows[0]]) + Reject(rows[1..], w)
  }

  /** An update's new values (android.content.ContentValues), restricted to
      the integer columns, the only ones the catalog writes. */
  type ContentValues = map<string, int>

  /** A row with the columns named in `values` overwritten. */
  function Assign(r: ThemeRow, values: ContentValues): ThemeRow
  {
    r.(id := if Schema.Id in values then values[Schema.Id] else r.id,
       isApplied := if Schema.IsApplied in values then values[Schema.IsApplied] else r.isApplied,
       isDrm := if Schema.IsDrm in values then values[Schema.IsDrm] else r.isDrm,
       system := if Schema.IsSystem in values then values[Schema.IsSystem] else r.system)
  }

  /** The table after an update with clause `w`: the selected rows are
      assigned, the others kept, and no row moves. */
  function Updated(rows: seq<ThemeRow>, values: ContentValues, w: Where): (r: seq<ThemeRow>)
    ensures |r| == |rows|
    ensures forall i :: 0 <= i < |rows| ==>
      r[i] == if Selects(w, rows[i]) then Assign(rows[i], values) else rows[i]
  {
    seq(|rows|, i requires 0 <= i < |rows| =>
      if Selects(w, rows[i]) then Assign(rows[i], values) else rows[i])
  }

  /** The composite key (package, theme id) is unique across the rows. */
  ghost predicate UniqueKeys(rows: seq<ThemeRow>) {
    forall i, j ::
      (0 <= i < |rows| && 0 <= j < |rows| &&
       rows[i].packageName == rows[j].packageName && rows[i].themeId == rows[j].themeId) ==> i == j
  }

  /** Reference definition of the table after `markAppliedTheme(p, t)`:
      exactly the rows with key (p, t) carry is_applied = 1, every other row
      carries 0, and nothing else about any row differs. */
  function MarkedApplied(rows: seq<ThemeRow>, p: string, t: string): (r: seq<ThemeRow>)
    ensures |r| == |rows|
    ensures forall i :: 0 <= i < |rows| ==>
      (r[i].isApplied == 1 <==> Selects(KeyIs(p, t), rows[i])) &&
      (r[i].isApplied == 0 <==> !Selects(KeyIs(p, t), rows[i])) &&
      r[i].(isApplied := rows[i].isApplied) == rows[i]
  {
    seq(|rows|, i requires 0 <= i < |rows| =>
      rows[i].(isApplied := if Selects(KeyIs(p, t), rows[i]) then 1 else 0))
  }

  // ---------------------------------------------------------------------
  // Queries and deletes

  /** Concatenation is associative. */
  lemma Associative<T>(x: seq<T>, y: seq<T>, z: seq<T>)
    ensures (x + y) + z == x + (y + z)
  {
  }

  /** A query on a row followed by more rows: the row, if selected, then the
      query on the rest. */
  lemma SelectCons(x: ThemeRow, rest: seq<ThemeRow>, w: Where)
    ensures Select([x] + rest, w) == (if Selects(w, x) then [x] else []) + Select(rest, w)
  {
    assert ([x] + rest)[1..] == rest;
  }

  /** A delete on a row followed by more rows: the row, if not selected, then
      the delete on the rest. */
  lemma RejectCons(x: ThemeRow, rest: seq<ThemeRow>, w: Where)
    ensures Reject([x] + rest, w) == (if Selects(w, x) then [] else [x]) + Reject(rest, w)
  {
    assert ([x] + rest)[1..] == rest;
  }

  /** A query with no selection returns the whole table. */
  lemma {:induction false} SelectAll(rows: seq<ThemeRow>)
    ensures Select(rows, All) == rows
  {
    if rows != [] {
      SelectAll(rows[1..]);
      assert rows == [rows[0]] + rows[1..];
    }
  }

  /** A query and a delete with the same clause split the table in two. */
  lemma {:induction false} SelectRejectPartition(rows: seq<ThemeRow>, w: Where)
    ensures |Select(rows, w)| + |Reject(rows, w)| == |rows|
    ensures multiset(Select(rows, w)) + multiset(Reject(rows, w)) == multiset(rows)
  {
    if rows != [] {
      SelectRejectPartition(rows[1..], w);
      assert rows == [rows[0]] + rows[1..];
    }
  }

  /** Deleting works row by row: it keeps the order of what survives. */
  lemma {:induction false} RejectAppend(a: seq<ThemeRow>, b: seq<ThemeRow>, w: Where)
    ensures Reject(a + b, w) == Reject(a, w) + Reject(b, w)
  {
    if a == [] {
      assert a + b == b;
    } else {
      RejectCons(a[0], a[1..] + b, w);
      RejectCons(a[0], a[1..], w);
      assert [a[0]] + (a[1..] + b) == a + b && [a[0]] + a[1..] == a;
      RejectAppend(a[1..], b, w);
      Associative(if Selects(w, a[0]) then [] else [a[0]], Reject(a[1..], w), Reject(b, w));
    }
  }

  /** Querying works row by row: results come in table order. */
  lemma {:induction false} SelectAppend(a: seq<ThemeRow>, b: seq<ThemeRow>, w: Where)
    ensures Select(a + b, w) == Select(a, w) + Select(b, w)
  {
    if a == [] {
      assert a + b == b;
    } else {
      SelectCons(a[0], a[1..] + b, w);
      SelectCons(a[0], a[1..], w);
      assert [a[0]] + (a[1..] + b) == a + b && [a[0]] + a[1..] == a;
      SelectAppend(a[1..], b, w);
      Associative(if Selects(w, a[0]) then [a[0]] else [], Select(a[1..], w), Select(b, w));
    }
  }

  /** A delete whose clause matches nothing leaves the table as it was. */
  lemma {:induction false} RejectNothing(rows: seq<ThemeRow>, w: Where)
    requires forall x :: x in rows ==> !Selects(w, x)
    ensures Reject(rows, w) == rows
  {
    if rows != [] {
      RejectNothing(rows[1..], w);
      assert rows == [rows[0]] + rows[1..];
    }
  }

  /** Deleting a package's rows leaves a query for another package unchanged,
      and a query for that package empty. */
  lemma {:induction false} ListAfterPackageDelete(rows: seq<ThemeRow>, p: string, q: string)
    ensures Select(Reject(rows, PackageIs(p)), PackageIs(q)) ==
            if p == q then [] else Select(rows, PackageIs(q))
  {
    if rows != [] {
      ListAfterPackageDelete(rows[1..], p, q);
      var head := if Selects(PackageIs(p), rows[0]) then [] else [rows[0]];
      SelectAppend(head, Reject(rows[1..], PackageIs(p)), PackageIs(q));
    }
  }

  /** With unique keys a composite-key clause selects at most one row, so
      `deleteTheme` removes at most one row. */
  lemma {:induction false} KeySelectsAtMostOne(rows: seq<ThemeRow>, p: string, t: string)
    requires UniqueKeys(rows)
    ensures |Select(rows, KeyIs(p, t))| <= 1
  {
    if rows != [] {
      var rest := rows[1..];
      assert UniqueKeys(rest) by {
        forall i, j | 0 <= i < |rest| && 0 <= j < |rest| &&
          rest[i].packageName == rest[j].packageName && rest[i].themeId == rest[j].themeId
          ensures i == j
        {
          assert rows[i + 1] == rest[i] && rows[j + 1] == rest[j];
        }
      }
      if Selects(KeyIs(p, t), rows[0]) {
        forall x | x in rest ensures !Selects(KeyIs(p, t), x) {
          var k :| 0 <= k < |rest| && rest[k] == x;
          assert rows[k + 1] == x;
        }
        SelectNothing(rest, KeyIs(p, t));
      } else {
        KeySelectsAtMostOne(rest, p, t);
      }
    }
  }

  /** A query whose clause matches no row returns nothing. */
  lemma SelectNothing(rows: seq<ThemeRow>, w: Where)
    requires forall x :: x in rows ==> !Selects(w, x)
    ensures Select(rows, w) == []
  {
  }

  // ---------------------------------------------------------------------
  // markAppliedTheme

  /** The values of the first update of markAppliedTheme and of the second,
      after `values.put(IS_APPLIED, 1)` has overwritten the same key. */
  const ClearApplied: ContentValues := map[Schema.IsApplied := 0]
  const SetApplied: ContentValues := ClearApplied[Schema.IsApplied := 1]

  /** After the first of the two updates no row is applied. */
  lemma ClearedHasNoneApplied(rows: seq<ThemeRow>)
    ensures Select(Updated(rows, ClearApplied, All), AppliedIsOne) == []
  {
    var cleared := Updated(rows, ClearApplied, All);
    forall x | x in cleared ensures !Selects(AppliedIsOne, x) {
      var i :| 0 <= i < |cleared| && cleared[i] == x;
    }
    SelectNothing(cleared, AppliedIsOne);
  }

  /** The two updates markAppliedTheme issues (clear every row, then set the
      rows with the key) produce exactly the reference table MarkedApplied. */
  lemma TwoUpdatesMarkApplied(rows: seq<ThemeRow>, p: string, t: string)
    ensures Updated(Updated(rows, ClearApplied, All), SetApplied, KeyIs(p, t)) == MarkedApplied(rows, p, t)
  {
  }

  /** Marking works row by row. */
  lemma MarkedAppliedAppend(a: seq<ThemeRow>, b: seq<ThemeRow>, p: string, t: string)
    ensures MarkedApplied(a + b, p, t) == MarkedApplied(a, p, t) + MarkedApplied(b, p, t)
  {
  }

  /** The rows a query for `is_applied=1` returns after marking (p, t) are
      the rows with that key, in order and marked. */
  lemma {:induction false} AppliedAfterMark(rows: seq<ThemeRow>, p: string, t: string)
    ensures Select(MarkedApplied(rows, p, t), AppliedIsOne) ==
            MarkedApplied(Select(rows, KeyIs(p, t)), p, t)
  {
    if rows != [] {
      var first, rest := [rows[0]], rows[1..];
      assert rows == first + rest;
      MarkedAppliedAppend(first, rest, p, t);
      SelectAppend(MarkedApplied(first, p, t), MarkedApplied(rest, p, t), AppliedIsOne);
      AppliedAfterMark(rest, p, t);
      var head := if Selects(KeyIs(p, t), rows[0]) then first else [];
      assert Select(rows, KeyIs(p, t)) == head + Select(rest, KeyIs(p, t));
      MarkedAppliedAppend(head, Select(rest, KeyIs(p, t)), p, t);
      assert Select(MarkedApplied(first, p, t), AppliedIsOne) == MarkedApplied(head, p, t);
    }
  }

  /** With unique keys at most one row is applied after marking, and none
      when no row has the key. */
  lemma AtMostOneApplied(rows: seq<ThemeRow>, p: string, t: string)
    requires UniqueKeys(rows)
    ensures |Select(MarkedApplied(rows, p, t), AppliedIsOne)| <= 1
    ensures (forall x :: x in rows ==> !Selects(KeyIs(p, t), x)) ==>
            Select(MarkedApplied(rows, p, t), AppliedIsOne) == []
  {
    AppliedAfterMark(rows, p, t);
    KeySelectsAtMostOne(rows, p, t);
    if forall x :: x in rows ==> !Selects(KeyIs(p, t), x) {
      SelectNothing(rows, KeyIs(p, t));
    }
  }

  /** Marking changes no key, so it keeps keys unique. */
  lemma MarkKeepsKeysUnique(rows: seq<ThemeRow>, p: string, t: string)
    requires UniqueKeys(rows)
    ensures UniqueKeys(MarkedApplied(rows, p, t))
  {
  }

  /** Marking the same key twice gives the table marking it once gives. */
  lemma MarkAppliedIdempotent(rows: seq<ThemeRow>, p: string, t: string)
    ensures MarkedApplied(MarkedApplied(rows, p, t), p, t) == MarkedApplied(rows, p, t)
  {
  }

  /** The table after a run of markAppliedTheme calls, one per key; the
      run moves no row and changes no key. */
  function MarkedAppliedAll(rows: seq<ThemeRow>, keys: seq<(string, string)>): (r: seq<ThemeRow>)
    ensures |r| == |rows|
    ensures forall i :: 0 <= i < |rows| ==>
      r[i].packageName == rows[i].packageName && r[i].themeId == rows[i].themeId
    decreases keys
  {
    if keys == [] then rows
    else MarkedAppliedAll(MarkedApplied(rows, keys[0].0, keys[0].1), keys[1..])
  }

  /** After any non-empty run of markAppliedTheme calls on a table with unique
      keys, the table still has unique keys and a query for the applied theme
      returns at most one row. */
  lemma {:induction false} MarkRunKeepsOneApplied(rows: seq<ThemeRow>, keys: seq<(string, string)>)
    requires UniqueKeys(rows)
    requires keys != []
    ensures UniqueKeys(MarkedAppliedAll(rows, keys))
    ensures |Select(MarkedAppliedAll(rows, keys), AppliedIsOne)| <= 1
    decreases keys
  {
    var next := MarkedApplied(rows, keys[0].0, keys[0].1);
    MarkKeepsKeysUnique(rows, keys[0].0, keys[0].1);
    if keys[1..] == [] {
      AtMostOneApplied(rows, keys[0].0, keys[0].1);
    } else {
      MarkRunKeepsOneApplied(next, keys[1..]);
    }
  }
}
