# Theme catalog provider — a Dafny model

This project models the core of the T-Mobile ThemeManager theme provider
(package `com.tmobile.thememanager.provider`):

- `Themes`: the catalog's static operations. They build theme URIs and query the
  themes table by package or by applied flag. They delete one theme or every theme
  of a package, and mark one theme as applied with two successive updates. They
  also build the ordered broadcast that asks the theme manager to change the
  theme or the style.
- `ThemeItem`: a typed view over the current row of a cursor. It caches fifteen
  column indices when it is built and decodes the current row on each read.

The content provider behind the catalog is an explicit in-memory table,
`Provider.ThemeStore`. Its rows (`Catalog.ThemeRow`) have one field per column.
The SQL selection clauses the catalog passes are the datatype `Catalog.Where`.
Their effects on a sequence of rows are the functions `Select` (query), `Reject`
(delete) and `Updated` (update). A query returns a `Cursors.Cursor`: a projection
of column names over a snapshot of the selected rows, plus a position and a closed
flag. Positioning follows the platform's `AbstractCursor`.

Files:
- `wrappers.dfy`: Option and Result.
- `platform.dfy`: stand-ins for Uri, CustomTheme, Intent and the ordered broadcast.
- `schema.dfy`: `ThemeColumns` constants.
- `catalog.dfy`: rows, clauses and the table-level lemmas.
- `cursors.dfy`: the cursor.
- `provider.dfy`: the store.
- `themes.dfy`: `Themes`.
- `theme_item.dfy`: `ThemeItem`.

Where the code and the written design of the system disagree, the model follows
the code:
- `deleteTheme` and `deleteThemesByPackage` delete rows whose `system` flag is set,
  just like other rows.
- `markAppliedTheme` runs two updates with no transaction. When no row has the key,
  it leaves zero rows applied.
- The `ThemeItem` constructor does not reject a cursor whose projection lacks a
  column. The cached index is then -1, and the getter for that field requires
  it to be non-negative.
- `parseUriNullSafe` maps only a null string to a null URI. Empty or malformed
  stored text is still parsed into a URI, not turned into null.
- No operation rejects malformed key components, and no operation reports an
  unavailable store.

## Model

| member | source | states |
|---|---|---|
| Schema.ContentTypesDistinct | src/com/tmobile/thememanager/provider/Themes.java:107-111 | the four content-type strings are pairwise distinct |
| Schema.EndpointsDistinct | src/com/tmobile/thememanager/provider/Themes.java:101-105 | the item path `theme` differs from the collection path `themes`; the two URIs differ and share the authority |
| Catalog.Select | src/com/tmobile/thememanager/provider/Themes.java:41-50 | a query returns exactly the rows of the table its clause selects, and no more rows than the table has |
| Catalog.Reject | src/com/tmobile/thememanager/provider/Themes.java:52-64 | a delete leaves exactly the rows its clause does not select |
| Catalog.MarkedApplied | src/com/tmobile/thememanager/provider/Themes.java:66-75 | reference table after marking (p, t): a row has is_applied 1 iff it has key (p, t), 0 otherwise, and no other field differs |
| Catalog.SelectAll | src/com/tmobile/thememanager/provider/Themes.java:36-39 | a query with a null selection returns the whole table |
| Catalog.SelectRejectPartition | src/com/tmobile/thememanager/provider/Themes.java:52-64 | the rows a delete removes and the rows it keeps together make up the table (counts and multisets) |
| Catalog.RejectAppend | src/com/tmobile/thememanager/provider/Themes.java:52-58 | a delete acts row by row, so the surviving rows keep their order |
| Catalog.SelectAppend | src/com/tmobile/thememanager/provider/Themes.java:41-45 | a query acts row by row, so results come in table order |
| Catalog.RejectNothing | src/com/tmobile/thememanager/provider/Themes.java:52-58 | a delete whose clause matches nothing leaves the table unchanged |
| Catalog.ListAfterPackageDelete | src/com/tmobile/thememanager/provider/Themes.java:60-64 | after deleting package p, listing p is empty and listing any other package is unchanged |
| Catalog.KeySelectsAtMostOne | src/com/tmobile/thememanager/provider/Themes.java:55-57 | with unique keys, the `theme_package = ? AND theme_id = ?` clause selects at most one row |
| Catalog.ClearedHasNoneApplied | src/com/tmobile/thememanager/provider/Themes.java:67-69 | after the first update of markAppliedTheme no row has is_applied = 1 |
| Catalog.TwoUpdatesMarkApplied | src/com/tmobile/thememanager/provider/Themes.java:66-75 | the clear-all update followed by the keyed update (same ContentValues, value changed to 1) yields MarkedApplied |
| Catalog.AppliedAfterMark | src/com/tmobile/thememanager/provider/Themes.java:47-50 | after marking (p, t), getAppliedTheme's clause returns exactly the rows with key (p, t), marked, in order |
| Catalog.AtMostOneApplied | src/com/tmobile/thememanager/provider/Themes.java:66-75 | with unique keys, at most one row is applied after marking, and none when no row has the key |
| Catalog.MarkKeepsKeysUnique | src/com/tmobile/thememanager/provider/Themes.java:66-75 | marking changes no key, so unique keys stay unique |
| Catalog.MarkAppliedIdempotent | src/com/tmobile/thememanager/provider/Themes.java:66-75 | marking (p, t) twice gives the same table as marking it once |
| Catalog.MarkedAppliedAll | src/com/tmobile/thememanager/provider/Themes.java:66-75 | a run of markAppliedTheme calls moves no row and changes no row's package or theme id |
| Catalog.MarkRunKeepsOneApplied | src/com/tmobile/thememanager/provider/Themes.java:66-75 | after any non-empty run of markAppliedTheme calls on a table with unique keys, keys stay unique and at most one row is applied |
| Cursors.IndexOf | src/com/tmobile/thememanager/provider/ThemeItem.java:52-66 | a column lookup gives the first index of the name in the projection, or -1 exactly when the name is absent |
| Cursors.Landing | src/com/tmobile/thememanager/provider/ThemeItem.java:73-75 | a move lands in [-1, count]; it lands on the target iff the target is a row index (or already -1 or count) |
| Themes.ThemeUri | src/com/tmobile/thememanager/provider/Themes.java:21-25 | the theme URI is `content://com.tmobile.thememanager.themes` with segments `theme`, package, theme id |
| Themes.ThemeUriInjective | src/com/tmobile/thememanager/provider/Themes.java:21-25 | two theme URIs are equal iff package and theme id are; a theme URI is never the collection URI |
| Themes.DefaultThemeUri | src/com/tmobile/thememanager/provider/Themes.java:27-30 | the default theme URI is the theme URI of the default descriptor's package and id: scheme `content`, the provider authority, segments `theme`, package, id |
| Themes.ListThemes | src/com/tmobile/thememanager/provider/Themes.java:32-39 | a fresh cursor over every row, with the given projection or all columns |
| Themes.ListThemesByPackage | src/com/tmobile/thememanager/provider/Themes.java:41-45 | the cursor holds exactly the rows whose package is p, in table order |
| Themes.GetAppliedTheme | src/com/tmobile/thememanager/provider/Themes.java:47-50 | the cursor holds exactly the rows whose is_applied is 1, in table order |
| Themes.DeleteTheme | src/com/tmobile/thememanager/provider/Themes.java:52-58 | exactly the rows with key (p, t) are removed, system rows included; the others stay, in order |
| Themes.DeleteThemesByPackage | src/com/tmobile/thememanager/provider/Themes.java:60-64 | exactly the rows of package p are removed; the others stay, in order |
| Themes.MarkAppliedTheme | src/com/tmobile/thememanager/provider/Themes.java:66-75 | the two updates leave the table equal to MarkedApplied of the old table |
| Themes.DeleteThemeRemovesAtMostOne | src/com/tmobile/thememanager/provider/Themes.java:52-58 | with unique keys deleteTheme removes at most one row, and none when the key is absent |
| Themes.MarkAppliedExample | src/com/tmobile/thememanager/provider/Themes.java:66-75 | marking ("pkgA","t1") on [("pkgA","t1",0), ("pkgB","t2",1)] gives [applied, not applied] |
| Themes.ChangeThemeWith | src/com/tmobile/thememanager/provider/Themes.java:96-98 | the caller's intent (any action, data, MIME type and extras) is sent unchanged as an ordered broadcast whose receivers must hold CHANGE_CONFIGURATION |
| Themes.ChangeTheme | src/com/tmobile/thememanager/provider/Themes.java:81-83 | action ACTION_CHANGE_THEME, data the URI, no type, no extras, permission CHANGE_CONFIGURATION |
| Themes.ChangeStyle | src/com/tmobile/thememanager/provider/Themes.java:85-88 | action ACTION_CHANGE_THEME, data the URI, type `vnd.tmobile.cursor.item/style`, no extras, permission CHANGE_CONFIGURATION |
| Themes.StyleRequestOnlyAddsType | src/com/tmobile/thememanager/provider/Themes.java:85-88 | a style request differs from the theme request for the same URI only in its MIME type |
| ThemeItems.ParseUriNullSafe | src/com/tmobile/thememanager/provider/ThemeItem.java:89-91 | null gives null; any other string gives its parse, so a null string is never parsed |
| ThemeItems.Describe | src/com/tmobile/thememanager/provider/ThemeItem.java:191-202 | the debug text is `{pkg=`, the package, `; themeId=`, the id, `; name=`, the name, `; drm=`, then the drm flag as `true`/`false` and `}`, each piece at the offset the earlier pieces' lengths fix; its length is fixed by the field lengths |
| ThemeItems.ThemeItem.constructor | src/com/tmobile/thememanager/provider/ThemeItem.java:51-66 | keeps the cursor; every cached index is the cursor's index of that column (-1 if missing) |
| ThemeItems.ThemeItem.Create | src/com/tmobile/thememanager/provider/ThemeItem.java:47-51 | fails with IllegalArgument exactly for a null or empty cursor, otherwise wraps that cursor |
| ThemeItems.ThemeItem.GetInstance | src/com/tmobile/thememanager/provider/ThemeItem.java:40-45 | null iff the cursor is null or moveToFirst fails (no rows); otherwise an item over it on row 0; the cursor is never closed, and an empty cursor is left at its row count |
| ThemeItems.ThemeItem.Close | src/com/tmobile/thememanager/provider/ThemeItem.java:69-71 | the wrapped cursor is closed |
| ThemeItems.ThemeItem.SetPosition | src/com/tmobile/thememanager/provider/ThemeItem.java:73-79 | the cursor lands where AbstractCursor puts it, keeping its position within [-1, count]; for an in-range position, getPosition then returns it |
| ThemeItems.ThemeItem.Position | src/com/tmobile/thememanager/provider/ThemeItem.java:77-79 | the cursor's position, within [-1, count]; on an open cursor it names a row exactly when the cursor is on one |
| ThemeItems.ThemeItem.Count | src/com/tmobile/thememanager/provider/ThemeItem.java:81-83 | the row count of the wrapped cursor |
| ThemeItems.ThemeItem.Uri | src/com/tmobile/thememanager/provider/ThemeItem.java:85-87 | the catalog URI of the current row's package and theme id |
| ThemeItems.ThemeItem.Name | src/com/tmobile/thememanager/provider/ThemeItem.java:93-95 | the current row's name |
| ThemeItems.ThemeItem.StyleName | src/com/tmobile/thememanager/provider/ThemeItem.java:101-103 | the current row's style name |
| ThemeItems.ThemeItem.Author | src/com/tmobile/thememanager/provider/ThemeItem.java:105-107 | the current row's author |
| ThemeItems.ThemeItem.IsDrmProtected | src/com/tmobile/thememanager/provider/ThemeItem.java:109-111 | true iff the current row's is_drm is non-zero |
| ThemeItems.ThemeItem.ThemeId | src/com/tmobile/thememanager/provider/ThemeItem.java:119-121 | the current row's theme id |
| ThemeItems.ThemeItem.PackageName | src/com/tmobile/thememanager/provider/ThemeItem.java:123-125 | the current row's package |
| ThemeItems.ThemeItem.WallpaperIdentifier | src/com/tmobile/thememanager/provider/ThemeItem.java:134-136 | the current row's wallpaper_name, null included |
| ThemeItems.ThemeItem.WallpaperUri | src/com/tmobile/thememanager/provider/ThemeItem.java:138-140 | null iff the stored wallpaper_uri is null, else its parse |
| ThemeItems.ThemeItem.RingtoneUri | src/com/tmobile/thememanager/provider/ThemeItem.java:142-144 | null iff the stored ringtone_uri is null, else its parse |
| ThemeItems.ThemeItem.RingtoneName | src/com/tmobile/thememanager/provider/ThemeItem.java:146-148 | the current row's ringtone_name, null included |
| ThemeItems.ThemeItem.NotificationRingtoneUri | src/com/tmobile/thememanager/provider/ThemeItem.java:150-152 | null iff the stored notif_ringtone_uri is null, else its parse |
| ThemeItems.ThemeItem.NotificationRingtoneName | src/com/tmobile/thememanager/provider/ThemeItem.java:154-156 | the current row's notif_ringtone_name, null included |
| ThemeItems.ThemeItem.ThumbnailUri | src/com/tmobile/thememanager/provider/ThemeItem.java:158-160 | null iff the stored thumbnail_uri is null, else its parse |
| ThemeItems.ThemeItem.SoundPackName | src/com/tmobile/thememanager/provider/ThemeItem.java:163-165 | always null |
| ThemeItems.ThemeItem.IsRemovable | src/com/tmobile/thememanager/provider/ThemeItem.java:173-175 | true iff the current row's system column is 0 |
| ThemeItems.ThemeItem.IsApplied | src/com/tmobile/thememanager/provider/ThemeItem.java:177-179 | true iff the current row's is_applied is non-zero |
| ThemeItems.ThemeItem.Equals | src/com/tmobile/thememanager/provider/ThemeItem.java:181-189 | false for null without reading the cursor; otherwise true iff both the package and the theme id equal the current row's; the theme id column need only be readable when the packages agree |
| ThemeItems.ThemeItem.ToString | src/com/tmobile/thememanager/provider/ThemeItem.java:191-202 | the Describe text of the current row's package, theme id, name and is_drm != 0 |
| ThemeItems.ItemReadsEveryColumn | src/com/tmobile/thememanager/provider/ThemeItem.java:47-66 | over a full projection every one of the fifteen cached columns is present, so each can be read on a row |
| ThemeItems.ItemReadsRow | src/com/tmobile/thememanager/provider/ThemeItem.java:93-156 | over a full projection, every text accessor (package, theme id, name, style name, author, wallpaper, ringtone and notification ringtone names) returns the row's own value |
| ThemeItems.ItemReadsFlags | src/com/tmobile/thememanager/provider/ThemeItem.java:109-111 | over a full projection, isDRMProtected, isRemovable and isApplied report the row's is_drm, system and is_applied columns |
| ThemeItems.ItemReadsUris | src/com/tmobile/thememanager/provider/ThemeItem.java:138-160 | over a full projection, each URI accessor returns the null-safe parse of the row's stored URI |

## Left out

- `ThemeItem.getInstance(Context, Uri)` and the `Context`/`ContentResolver` plumbing are left out. The store is an explicit `ThemeStore` parameter. A provider that is unavailable, or a query that returns a null cursor, is not modelled.
- `ThemeItem.getResourceId` is left out. It calls the platform's `CustomTheme.getStyleId`, which is not part of this model.
- Themes.DefaultThemeUri: takes the default descriptor as a parameter, because `CustomTheme.getDefault` is a platform call that is not part of this model.
- `Uri.parse` and `Uri.Builder` are opaque constructors. Path-segment encoding and URI syntax are not modelled.
- Themes.ChangeThemeWith: an intent is modelled by its action, data URI, MIME type and extras (as text values). Intent flags, an explicit component or package, categories and typed extra values are not modelled.
- `sendOrderedBroadcast` is modelled only as the request record it is handed. Its delivery, receiver priority and abort, and permission enforcement are not modelled.
- `markAppliedTheme` is modelled as two sequential steps. Atomicity against concurrent readers is not modelled; the intermediate table has no applied row.
- The cursor's own failures are preconditions of the getters, not errors: reading a closed cursor, reading off a row, and reading a column missing from the projection (cached index -1). The source never handles these. `getString` on an integer column and `getInt` on a text column are platform conversions that are not modelled.
- The `theme_id`, `theme_package`, `name`, `style_name` and `author` columns are non-null strings. The `CustomTheme` descriptor's package and id are non-null too.
- Cursors.IndexOf: matches column names exactly and takes the first match; the platform's case-insensitive and dotted-name lookup is not modelled.
- `ContentValues` covers only the integer columns, the only ones the catalog writes.
- `AbstractCursor.onMove` is modelled as always succeeding. A cursor's resources beyond its closed flag are not modelled.
