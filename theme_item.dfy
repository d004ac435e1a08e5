/** ThemeItem: a typed view of the current row of a catalog cursor.  The
    column of every field is looked up once, at construction, and each getter
    reads the current row at that column. */
module ThemeItems {
  import opened Wrappers
  import opened Platform
  import opened Catalog
  import opened Cursors
  import Schema
  import Themes

  datatype Exception = IllegalArgument(message: string)

  /** `parseUriNullSafe`: a null string gives a null URI, any other string is parsed. */
  function ParseUriNullSafe(text: Option<string>): (u: Option<Uri>)
    ensures u.None? <==> text.None?
    ensures text.Some? ==> u.value == Parse(text.value)
  {
    if text.Some? then Some(Parse(text.value)) else None
  }

  /** StringBuilder.append(boolean). */
  function BoolText(b: bool): (s: string)
    ensures s == "true" <==> b
    ensures s == "false" <==> !b
  {
    if b then "true" else "false"
  }

  /** A string whose suffix from `off` is `x + rest` holds `x` at `off` and
      `rest` after it. */
  lemma Peel(s: string, off: nat, x: string, rest: string)
    requires off <= |s| && s[off..] == x + rest
    ensures off + |x| <= |s|
    ensures s[off..off + |x|] == x && s[off + |x|..] == rest
  {
    assert |s[off..]| == |x| + |rest|;
    forall i | 0 <= i < |x| ensures s[off + i] == x[i] {
      assert s[off..][i] == (x + rest)[i];
    }
    forall i | 0 <= i < |rest| ensures s[off + |x| + i] == rest[i] {
      assert s[off..][|x| + i] == (x + rest)[|x| + i];
    }
  }

  /** Where the first four pieces of a concatenation, and what follows them, sit. */
  lemma LayoutHead(s: string, a: string, b: string, c: string, d: string, rest: string)
    requires s == a + (b + (c + (d + rest)))
    ensures |s| == |a| + |b| + |c| + |d| + |rest|
    ensures s[..|a|] == a
    ensures s[|a|..|a| + |b|] == b
    ensures s[|a| + |b|..|a| + |b| + |c|] == c
    ensures s[|a| + |b| + |c|..|a| + |b| + |c| + |d|] == d
    ensures s[|a| + |b| + |c| + |d|..] == rest
  {
    Peel(s, 0, a, b + (c + (d + rest)));
    Peel(s, |a|, b, c + (d + rest));
    Peel(s, |a| + |b|, c, d + rest);
    Peel(s, |a| + |b| + |c|, d, rest);
  }

  /** Where four concatenated pieces making up a string's suffix from `off` sit. */
  lemma LayoutTail(s: string, off: nat, e: string, f: string, g: string, h: string)
    requires off <= |s| && s[off..] == e + (f + (g + h))
    ensures |s| == off + |e| + |f| + |g| + |h|
    ensures s[off..off + |e|] == e
    ensures s[off + |e|..off + |e| + |f|] == f
    ensures s[off + |e| + |f|..off + |e| + |f| + |g|] == g
    ensures s[off + |e| + |f| + |g|..] == h
  {
    Peel(s, off, e, f + (g + h));
    Peel(s, off + |e|, f, g + h);
    Peel(s, off + |e| + |f|, g, h);
  }

  /** Where the fields sit in the text toString builds around a closing
      `flag`. */
  lemma DescribeLayout(pkg: string, themeId: string, name: string, flag: string)
    ensures var s := "{pkg=" + (pkg + ("; themeId=" + (themeId + ("; name=" + (name + ("; drm=" + flag))))));
      && |s| == 28 + |pkg| + |themeId| + |name| + |flag|
      && s[..5] == "{pkg=" && s[5..5 + |pkg|] == pkg
      && s[5 + |pkg|..15 + |pkg|] == "; themeId="
      && s[15 + |pkg|..15 + |pkg| + |themeId|] == themeId
      && s[15 + |pkg| + |themeId|..22 + |pkg| + |themeId|] == "; name="
      && s[22 + |pkg| + |themeId|..22 + |pkg| + |themeId| + |name|] == name
      && s[22 + |pkg| + |themeId| + |name|..28 + |pkg| + |themeId| + |name|] == "; drm="
      && s[28 + |pkg| + |themeId| + |name|..] == flag
  {
    var tail := "; name=" + (name + ("; drm=" + flag));
    var s := "{pkg=" + (pkg + ("; themeId=" + (themeId + tail)));
    assert |"{pkg="| == 5 && |"; themeId="| == 10 && |"; name="| == 7 && |"; drm="| == 6;
    LayoutHead(s, "{pkg=", pkg, "; themeId=", themeId, tail);
    assert s[15 + |pkg| + |themeId|..] == tail;
    LayoutTail(s, 15 + |pkg| + |themeId|, "; name=", name, "; drm=", flag);
  }

  /** The text toString produces: `{pkg=<p>; themeId=<t>; name=<n>; drm=<b>}`. */
  function Describe(pkg: string, themeId: string, name: string, drm: bool): (s: string)
    ensures |s| == |pkg| + |themeId| + |name| + (if drm then 33 else 34)
    ensures s[..5] == "{pkg=" && s[5..5 + |pkg|] == pkg
    ensures s[5 + |pkg|..15 + |pkg|] == "; themeId="
    ensures s[15 + |pkg|..15 + |pkg| + |themeId|] == themeId
    ensures s[15 + |pkg| + |themeId|..22 + |pkg| + |themeId|] == "; name="
    ensures s[22 + |pkg| + |themeId|..22 + |pkg| + |themeId| + |name|] == name
    ensures s[22 + |pkg| + |themeId| + |name|..28 + |pkg| + |themeId| + |name|] == "; drm="
    ensures s[|s| - |BoolText(drm)| - 1..] == BoolText(drm) + "}"
  {
    var flag := BoolText(drm) + "}";
    DescribeLayout(pkg, themeId, name, flag);
    assert |flag| == |BoolText(drm)| + 1 == (if drm then 5 else 6);
    "{pkg=" + (pkg + ("; themeId=" + (themeId + ("; name=" + (name + ("; drm=" + flag))))))
  }

  class ThemeItem {
    const cursor: Cursor
    const columnThemeId: int
    const columnThemePackage: int
    const columnName: int
    const columnStyleName: int
    const columnAuthor: int
    const columnIsDrm: int
    const columnWallpaperName: int
    const columnWallpaperUri: int
    const columnRingtoneName: int
    const columnRingtoneUri: int
    const columnNotifRingtoneName: int
    const columnNotifRingtoneUri: int
    const columnThumbnailUri: int
    const columnIsSystem: int
    const columnIsApplied: int

    /** Every cached index is the cursor's index for that field's column
        (-1 when the cursor's projection lacks it). */
    ghost predicate Valid() {
      && columnThemeId == cursor.GetColumnIndex(Schema.ThemeId)
      && columnThemePackage == cursor.GetColumnIndex(Schema.ThemePackage)
      && columnName == cursor.GetColumnIndex(Schema.Name)
      && columnStyleName == cursor.GetColumnIndex(Schema.StyleName)
      && columnAuthor == cursor.GetColumnIndex(Schema.Author)
      && columnIsDrm == cursor.GetColumnIndex(Schema.IsDrm)
      && columnWallpaperName == cursor.GetColumnIndex(Schema.WallpaperName)
      && columnWallpaperUri == cursor.GetColumnIndex(Schema.WallpaperUri)
      && columnRingtoneName == cursor.GetColumnIndex(Schema.RingtoneName)
      && columnRingtoneUri == cursor.GetColumnIndex(Schema.RingtoneUri)
      && columnNotifRingtoneName == cursor.GetColumnIndex(Schema.NotificationRingtoneName)
      && columnNotifRingtoneUri == cursor.GetColumnIndex(Schema.NotificationRingtoneUri)
      && columnThumbnailUri == cursor.GetColumnIndex(Schema.ThumbnailUri)
      && columnIsSystem == cursor.GetColumnIndex(Schema.IsSystem)
      && columnIsApplied == cursor.GetColumnIndex(Schema.IsApplied)
    }

    /** The constructor past its argument check: keeps the cursor and caches
        the fifteen column indices. */
    constructor (c: Cursor)
      requires c.Count() > 0
      ensures cursor == c && Valid()
    {
      cursor := c;
      columnThemeId := c.GetColumnIndex(Schema.ThemeId);
      columnThemePackage := c.GetColumnIndex(Schema.ThemePackage);
      columnName := c.GetColumnIndex(Schema.Name);
      columnStyleName := c.GetColumnIndex(Schema.StyleName);
      columnAuthor := c.GetColumnIndex(Schema.Author);
      columnIsDrm := c.GetColumnIndex(Schema.IsDrm);
      columnWallpaperName := c.GetColumnIndex(Schema.WallpaperName);
      columnWallpaperUri := c.GetColumnIndex(Schema.WallpaperUri);
      columnRingtoneName := c.GetColumnIndex(Schema.RingtoneName);
      columnRingtoneUri := c.GetColumnIndex(Schema.RingtoneUri);
      columnNotifRingtoneName := c.GetColumnIndex(Schema.NotificationRingtoneName);
      columnNotifRingtoneUri := c.GetColumnIndex(Schema.NotificationRingtoneUri);
      columnThumbnailUri := c.GetColumnIndex(Schema.ThumbnailUri);
      columnIsSystem := c.GetColumnIndex(Schema.IsSystem);
      columnIsApplied := c.GetColumnIndex(Schema.IsApplied);
    }

    /** `new ThemeItem(c)`: throws IllegalArgumentException exactly for a null
        or empty cursor, otherwise wraps that cursor. */
    static method Create(c: Cursor?) returns (r: Result<ThemeItem, Exception>)
      ensures r.Failure? <==> c == null || c.Count() == 0
      ensures r.Failure? ==> r.error == IllegalArgument("Cursor cannot be null or empty")
      ensures r.Success? ==> fresh(r.value) && r.value.cursor == c && r.value.Valid()
    {
      if c == null || c.Count() == 0 {
        return Failure(IllegalArgument("Cursor cannot be null or empty"));
      }
      var item := new ThemeItem(c);
      r := Success(item);
    }

    /** getInstance(Cursor): null for a null cursor or one whose moveToFirst
        fails; otherwise an item over that cursor, positioned on row 0. */
    static method GetInstance(c: Cursor?) returns (item: ThemeItem?)
      modifies c
      ensures item == null <==> c == null || |c.rows| == 0
      ensures item != null ==> fresh(item) && item.cursor == c && item.Valid() && c.position == 0
      ensures c != null ==> c.closed == old(c.closed)
      ensures c != null && item == null ==> c.position == |c.rows|
    {
      item := null;
      if c != null {
        var ok := c.MoveToFirst();
        if ok {
          item := new ThemeItem(c);
        }
      }
    }

    method Close()
      modifies cursor`closed
      ensures cursor.closed
    {
      cursor.Close();
    }

    /** setPosition: moves the cursor; a position in range is where it lands. */
    method SetPosition(position: int)
      modifies cursor`position
      ensures cursor.position == Landing(Count(), position) && cursor.Valid()
      ensures 0 <= position < Count() ==> Position() == position
    {
      var _ := cursor.MoveToPosition(position);
    }

    /** getPosition: a position between -1 and the row count; on an open
        cursor, it names a row exactly when the item has a current row. */
    function Position(): (p: int)
      reads cursor
      requires cursor.Valid()
      ensures -1 <= p <= Count()
      ensures !cursor.closed ==> (cursor.OnRow() <==> 0 <= p < Count())
    {
      cursor.position
    }

    /** getCount: the number of rows of the wrapped cursor. */
    function Count(): (n: nat)
      ensures n == |cursor.rows|
    {
      cursor.Count()
    }

    /** A field is readable when the cursor is on a row and the projection
        holds that field's column. */
    predicate Readable(column: int)
      reads cursor
    {
      cursor.OnRow() && column >= 0
    }

    function Name(): (s: string)
      reads cursor
      requires Valid() && Readable(columnName)
      ensures s == cursor.CurrentRow().name
    {
      Schema.ItemTextColumns();
      CellsByName(cursor.CurrentRow());
      cursor.GetString(columnName).value
    }

    function StyleName(): (s: string)
      reads cursor
      requires Valid() && Readable(columnStyleName)
      ensures s == cursor.CurrentRow().styleName
    {
      Schema.ItemTextColumns();
      CellsByName(cursor.CurrentRow());
      cursor.GetString(columnStyleName).value
    }

    function Author(): (s: string)
      reads cursor
      requires Valid() && Readable(columnAuthor)
      ensures s == cursor.CurrentRow().author
    {
      Schema.ItemTextColumns();
      CellsByName(cursor.CurrentRow());
      cursor.GetString(columnAuthor).value
    }

    /** isDRMProtected: the is_drm column is non-zero. */
    function IsDrmProtected(): (b: bool)
      reads cursor
      requires Valid() && Readable(columnIsDrm)
      ensures b <==> cursor.CurrentRow().isDrm != 0
    {
      CellsByName(cursor.CurrentRow());
      cursor.GetInt(columnIsDrm) != 0
    }

    function ThemeId(): (s: string)
      reads cursor
      requires Valid() && Readable(columnThemeId)
      ensures s == cursor.CurrentRow().themeId
    {
      Schema.ItemTextColumns();
      CellsByName(cursor.CurrentRow());
      cursor.GetString(columnThemeId).value
    }

    function PackageName(): (s: string)
      reads cursor
      requires Valid() && Readable(columnThemePackage)
      ensures s == cursor.CurrentRow().packageName
    {
      Schema.ItemTextColumns();
      CellsByName(cursor.CurrentRow());
      cursor.GetString(columnThemePackage).value
    }

    /** getUri: the catalog URI of the current row's theme. */
    function Uri(): (u: Uri)
      reads cursor
      requires Valid() && Readable(columnThemePackage) && Readable(columnThemeId)
      ensures u == Themes.ThemeUri(cursor.CurrentRow().packageName, cursor.CurrentRow().themeId)
    {
      Themes.ThemeUri(PackageName(), ThemeId())
    }

    /** getWallpaperIdentifier: the wallpaper_name column, a key and not a path. */
    function WallpaperIdentifier(): (s: Option<string>)
      reads cursor
      requires Valid() && Readable(columnWallpaperName)
      ensures s == cursor.CurrentRow().wallpaperName
    {
      Schema.ItemTextColumns();
      CellsByName(cursor.CurrentRow());
      cursor.GetString(columnWallpaperName)
    }

    function WallpaperUri(): (u: Option<Uri>)
      reads cursor
      requires Valid() && Readable(columnWallpaperUri)
      ensures u.None? <==> cursor.CurrentRow().wallpaperUri.None?
      ensures u.Some? ==> u.value == Parse(cursor.CurrentRow().wallpaperUri.value)
      ensures u == ParseUriNullSafe(cursor.CurrentRow().wallpaperUri)
    {
      Schema.ItemTextColumns();
      CellsByName(cursor.CurrentRow());
      ParseUriNullSafe(cursor.GetString(columnWallpaperUri))
    }

    function RingtoneUri(): (u: Option<Uri>)
      reads cursor
      requires Valid() && Readable(columnRingtoneUri)
      ensures u.None? <==> cursor.CurrentRow().ringtoneUri.None?
      ensures u.Some? ==> u.value == Parse(cursor.CurrentRow().ringtoneUri.value)
      ensures u == ParseUriNullSafe(cursor.CurrentRow().ringtoneUri)
    {
      Schema.ItemTextColumns();
      CellsByName(cursor.CurrentRow());
      ParseUriNullSafe(cursor.GetString(columnRingtoneUri))
    }

    function RingtoneName(): (s: Option<string>)
      reads cursor
      requires Valid() && Readable(columnRingtoneName)
      ensures s == cursor.CurrentRow().ringtoneName
    {
      Schema.ItemTextColumns();
      CellsByName(cursor.CurrentRow());
      cursor.GetString(columnRingtoneName)
    }

    function NotificationRingtoneUri(): (u: Option<Uri>)
      reads cursor
      requires Valid() && Readable(columnNotifRingtoneUri)
      ensures u.None? <==> cursor.CurrentRow().notifRingtoneUri.None?
      ensures u.Some? ==> u.value == Parse(cursor.CurrentRow().notifRingtoneUri.value)
      ensures u == ParseUriNullSafe(cursor.CurrentRow().notifRingtoneUri)
    {
      Schema.ItemTextColumns();
      CellsByName(cursor.CurrentRow());
      ParseUriNullSafe(cursor.GetString(columnNotifRingtoneUri))
    }

    function NotificationRingtoneName(): (s: Option<string>)
      reads cursor
      requires Valid() && Readable(columnNotifRingtoneName)
      ensures s == cursor.CurrentRow().notifRingtoneName
    {
      Schema.ItemTextColumns();
      CellsByName(cursor.CurrentRow());
      cursor.GetString(columnNotifRingtoneName)
    }

    function ThumbnailUri(): (u: Option<Uri>)
      reads cursor
      requires Valid() && Readable(columnThumbnailUri)
      ensures u.None? <==> cursor.CurrentRow().thumbnailUri.None?
      ensures u.Some? ==> u.value == Parse(cursor.CurrentRow().thumbnailUri.value)
      ensures u == ParseUriNullSafe(cursor.CurrentRow().thumbnailUri)
    {
      Schema.ItemTextColumns();
      CellsByName(cursor.CurrentRow());
      ParseUriNullSafe(cursor.GetString(columnThumbnailUri))
    }

    /** getSoundPackName (deprecated): always null. */
    function SoundPackName(): (s: Option<string>)
      ensures s.None?
    {
      None
    }

    /** isRemovable: the theme is not part of the system image. */
    function IsRemovable(): (b: bool)
      reads cursor
      requires Valid() && Readable(columnIsSystem)
      ensures b <==> cursor.CurrentRow().system == 0
    {
      CellsByName(cursor.CurrentRow());
      cursor.GetInt(columnIsSystem) == 0
    }

    function IsApplied(): (b: bool)
      reads cursor
      requires Valid() && Readable(columnIsApplied)
      ensures b <==> cursor.CurrentRow().isApplied != 0
    {
      CellsByName(cursor.CurrentRow());
      cursor.GetInt(columnIsApplied) != 0
    }

    /** equals(CustomTheme): false for null, otherwise whether the package
        names and the theme ids both agree. */
    function Equals(theme: Option<CustomTheme>): (b: bool)
      reads cursor
      requires Valid()
      requires theme.Some? ==> Readable(columnThemePackage)
      requires (theme.Some? && Readable(columnThemePackage) &&
                cursor.CurrentRow().packageName == theme.value.themePackageName) ==> Readable(columnThemeId)
      ensures b <==> theme.Some? &&
                     theme.value.themePackageName == cursor.CurrentRow().packageName &&
                     theme.value.themeId == cursor.CurrentRow().themeId
    {
      if theme.None? then false
      else if PackageName() != theme.value.themePackageName then false
      else theme.value.themeId == ThemeId()
    }

    function ToString(): (s: string)
      reads cursor
      requires Valid() && Readable(columnThemePackage) && Readable(columnThemeId)
      requires Readable(columnName) && Readable(columnIsDrm)
      ensures s == Describe(cursor.CurrentRow().packageName, cursor.CurrentRow().themeId,
                            cursor.CurrentRow().name, cursor.CurrentRow().isDrm != 0)
    {
      Describe(PackageName(), ThemeId(), Name(), IsDrmProtected())
    }
  }

  /** Over the full projection every one of the fifteen cached columns is
      present, so on a row each of them can be read. */
  lemma ItemReadsEveryColumn(item: ThemeItem)
    requires item.Valid() && item.cursor.OnRow()
    requires item.cursor.columns == Schema.AllColumns
    ensures item.Readable(item.columnThemePackage) && item.Readable(item.columnThemeId)
    ensures item.Readable(item.columnName) && item.Readable(item.columnStyleName)
    ensures item.Readable(item.columnAuthor) && item.Readable(item.columnIsDrm)
    ensures item.Readable(item.columnWallpaperName) && item.Readable(item.columnWallpaperUri)
    ensures item.Readable(item.columnRingtoneName) && item.Readable(item.columnRingtoneUri)
    ensures item.Readable(item.columnNotifRingtoneName) && item.Readable(item.columnNotifRingtoneUri)
    ensures item.Readable(item.columnThumbnailUri) && item.Readable(item.columnIsSystem)
    ensures item.Readable(item.columnIsApplied)
  {
    Schema.EveryFieldColumnListed();
  }

  /** Over the full projection each text accessor returns its field of the
      current row. */
  lemma ItemReadsRow(item: ThemeItem)
    requires item.Valid() && item.cursor.OnRow()
    requires item.cursor.columns == Schema.AllColumns
    ensures item.Readable(item.columnThemePackage) && item.Readable(item.columnThemeId)
    ensures item.PackageName() == item.cursor.CurrentRow().packageName
    ensures item.ThemeId() == item.cursor.CurrentRow().themeId
    ensures item.Name() == item.cursor.CurrentRow().name
    ensures item.StyleName() == item.cursor.CurrentRow().styleName
    ensures item.Author() == item.cursor.CurrentRow().author
    ensures item.WallpaperIdentifier() == item.cursor.CurrentRow().wallpaperName
    ensures item.RingtoneName() == item.cursor.CurrentRow().ringtoneName
    ensures item.NotificationRingtoneName() == item.cursor.CurrentRow().notifRingtoneName
  {
    ItemReadsEveryColumn(item);
  }

  /** Over the full projection the flag accessors report the row's integer
      columns. */
  lemma ItemReadsFlags(item: ThemeItem)
    requires item.Valid() && item.cursor.OnRow()
    requires item.cursor.columns == Schema.AllColumns
    ensures item.Readable(item.columnIsDrm) && item.Readable(item.columnIsApplied)
    ensures item.IsDrmProtected() <==> item.cursor.CurrentRow().isDrm != 0
    ensures item.IsRemovable() <==> item.cursor.CurrentRow().system == 0
    ensures item.IsApplied() <==> item.cursor.CurrentRow().isApplied != 0
  {
    ItemReadsEveryColumn(item);
  }

  /** Over the full projection the URI accessors parse the row's URI columns,
      null staying null. */
  lemma ItemReadsUris(item: ThemeItem)
    requires item.Valid() && item.cursor.OnRow()
    requires item.cursor.columns == Schema.AllColumns
    ensures item.Readable(item.columnWallpaperUri) && item.Readable(item.columnThumbnailUri)
    ensures item.WallpaperUri() == ParseUriNullSafe(item.cursor.CurrentRow().wallpaperUri)
    ensures item.RingtoneUri() == ParseUriNullSafe(item.cursor.CurrentRow().ringtoneUri)
    ensures item.NotificationRingtoneUri() == ParseUriNullSafe(item.cursor.CurrentRow().notifRingtoneUri)
    ensures item.ThumbnailUri() == ParseUriNullSafe(item.cursor.CurrentRow().thumbnailUri)
  {
    ItemReadsEveryColumn(item);
  }
}
