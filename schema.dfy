/** The schema of the theme catalog: the provider authority, the item and
    collection URIs, the content types and the column names (Themes and
    Themes.ThemeColumns). */
module Schema {
  import opened Platform

  const Authority := "com.tmobile.thememanager.themes"
  const ContentScheme := "content"

  /** Themes.CONTENT_URI, `content://<authority>`. */
  const ProviderUri := Hierarchical(ContentScheme, Authority, [])

  /** Path of the item endpoint and of the collection endpoint. */
  const ItemPath := "theme"
  const CollectionPath := "themes"

  /** ThemeColumns.CONTENT_URI, `content://<authority>/theme`. */
  const ContentUri := Hierarchical(ContentScheme, Authority, [ItemPath])
  /** ThemeColumns.CONTENT_PLURAL_URI, `content://<authority>/themes`. */
  const ContentPluralUri := Hierarchical(ContentScheme, Authority, [CollectionPath])

  const ContentType := "vnd.tmobile.cursor.dir/theme"
  const ContentItemType := "vnd.tmobile.cursor.item/theme"
  const StyleContentType := "vnd.tmobile.cursor.dir/style"
  const StyleContentItemType := "vnd.tmobile.cursor.item/style"

  const Id := "_id"
  const ThemeId := "theme_id"
  const ThemePackage := "theme_package"
  const IsApplied := "is_applied"
  const Name := "name"
  const StyleName := "style_name"
  const Author := "author"
  const IsDrm := "is_drm"
  const WallpaperName := "wallpaper_name"
  const WallpaperUri := "wallpaper_uri"
  const LockWallpaperName := "lock_wallpaper_name"
  const LockWallpaperUri := "lock_wallpaper_uri"
  const RingtoneName := "ringtone_name"
  const RingtoneUri := "ringtone_uri"
  const NotificationRingtoneName := "notif_ringtone_name"
  const NotificationRingtoneUri := "notif_ringtone_uri"
  const ThumbnailUri := "thumbnail_uri"
  const PreviewUri := "preview_uri"
  const IsSystem := "system"

  /** Every column of the table, which is what a query with a null projection returns. */
  const AllColumns: seq<string> := [
    Id, ThemeId, ThemePackage, IsApplied, Name, StyleName, Author, IsDrm,
    WallpaperName, WallpaperUri, LockWallpaperName, LockWallpaperUri,
    RingtoneName, RingtoneUri, NotificationRingtoneName, NotificationRingtoneUri,
    ThumbnailUri, PreviewUri, IsSystem]

  /** The integer-valued columns; every other column holds text. */
  const IntColumns: set<string> := {Id, IsApplied, IsDrm, IsSystem}

  predicate IsTextColumn(column: string) {
    column in AllColumns && column !in IntColumns
  }

  /** The four content types are pairwise distinct. */
  lemma ContentTypesDistinct()
    ensures ContentType != ContentItemType && ContentType != StyleContentType
    ensures ContentType != StyleContentItemType && ContentItemType != StyleContentType
    ensures ContentItemType != StyleContentItemType && StyleContentType != StyleContentItemType
  {
    assert ContentType[23] != StyleContentType[23];
    assert ContentItemType[24] != StyleContentItemType[24];
  }

  /** The item endpoint and the collection endpoint are different URIs under
      the same authority. */
  lemma EndpointsDistinct()
    ensures ItemPath != CollectionPath
    ensures ContentUri != ContentPluralUri
    ensures ContentUri.authority == ContentPluralUri.authority == ProviderUri.authority
  {
  }

  /** Each column a theme item caches is in the full projection. */
  lemma EveryFieldColumnListed()
    ensures ThemeId in AllColumns && ThemePackage in AllColumns && IsApplied in AllColumns
    ensures Name in AllColumns && StyleName in AllColumns && Author in AllColumns
    ensures IsDrm in AllColumns && WallpaperName in AllColumns && WallpaperUri in AllColumns
    ensures RingtoneName in AllColumns && RingtoneUri in AllColumns
    ensures NotificationRingtoneName in AllColumns && NotificationRingtoneUri in AllColumns
    ensures ThumbnailUri in AllColumns && IsSystem in AllColumns
  {
    assert AllColumns[1] == ThemeId && AllColumns[2] == ThemePackage && AllColumns[3] == IsApplied;
    assert AllColumns[4] == Name && AllColumns[5] == StyleName && AllColumns[6] == Author;
    assert AllColumns[7] == IsDrm && AllColumns[8] == WallpaperName && AllColumns[9] == WallpaperUri;
    assert AllColumns[12] == RingtoneName && AllColumns[13] == RingtoneUri;
    assert AllColumns[14] == NotificationRingtoneName && AllColumns[15] == NotificationRingtoneUri;
    assert AllColumns[16] == ThumbnailUri && AllColumns[18] == IsSystem;
  }

  /** No text column a theme item reads is an integer column: the names
      differ in length, or (style_name, author) in their first character. */
  lemma ItemTextColumnsNotInt()
    ensures ThemeId !in IntColumns && ThemePackage !in IntColumns && Name !in IntColumns
    ensures StyleName !in IntColumns && Author !in IntColumns
    ensures WallpaperName !in IntColumns && WallpaperUri !in IntColumns
    ensures RingtoneName !in IntColumns && RingtoneUri !in IntColumns
    ensures NotificationRingtoneName !in IntColumns && NotificationRingtoneUri !in IntColumns
    ensures ThumbnailUri !in IntColumns
  {
    assert |Id| == 3 && |IsApplied| == 10 && |IsDrm| == 6 && |IsSystem| == 6;
    assert |ThemeId| == 8 && |ThemePackage| == 13 && |Name| == 4;
    assert |WallpaperName| == 14 && |WallpaperUri| == 13 && |RingtoneName| == 13;
    assert |RingtoneUri| == 12 && |NotificationRingtoneName| == 19;
    assert |NotificationRingtoneUri| == 18 && |ThumbnailUri| == 13;
    assert StyleName[0] != IsApplied[0] && |StyleName| == 10;
    assert Author[0] != IsDrm[0] && Author[0] != IsSystem[0] && |Author| == 6;
  }

  /** The twelve text columns a theme item reads are text columns. */
  lemma ItemTextColumns()
    ensures IsTextColumn(ThemeId) && IsTextColumn(ThemePackage) && IsTextColumn(Name)
    ensures IsTextColumn(StyleName) && IsTextColumn(Author)
    ensures IsTextColumn(WallpaperName) && IsTextColumn(WallpaperUri)
    ensures IsTextColumn(RingtoneName) && IsTextColumn(RingtoneUri)
    ensures IsTextColumn(NotificationRingtoneName) && IsTextColumn(NotificationRingtoneUri)
    ensures IsTextColumn(ThumbnailUri)
  {
    EveryFieldColumnListed();
    ItemTextColumnsNotInt();
  }
}
