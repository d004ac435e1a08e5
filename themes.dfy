/** The catalog's public operations (class Themes): URI construction, the
    queries and mutations it issues against the store, and the theme-change
    requests it broadcasts. */
module Themes {
  import opened Wrappers
  import opened Platform
  import opened Catalog
  import opened Cursors
  import opened Provider
  import Schema

  // ---------------------------------------------------------------------
  // URIs

  /** getThemeUri: `content://<authority>/theme/<packageName>/<themeId>`. */
  function ThemeUri(packageName: string, themeId: string): (u: Uri)
    ensures u.Hierarchical? && u.scheme == Schema.ContentScheme && u.authority == Schema.Authority
    ensures u.segments == [Schema.ItemPath, packageName, themeId]
  {
    AppendPath(AppendPath(Schema.ContentUri, packageName), themeId)
  }

  /** Two theme URIs are equal exactly when their packages and their theme
      ids are, and no theme URI is the collection URI. */
  lemma ThemeUriInjective(p: string, t: string, p': string, t': string)
    ensures ThemeUri(p, t) == ThemeUri(p', t') <==> p == p' && t == t'
    ensures ThemeUri(p, t) != Schema.ContentPluralUri
  {
  }

  /** getDefaultThemeUri, with the platform's default theme descriptor
      (CustomTheme.getDefault) passed in. */
  function DefaultThemeUri(default: CustomTheme): (u: Uri)
    ensures u.Hierarchical? && u.scheme == Schema.ContentScheme && u.authority == Schema.Authority
    ensures u.segments == [Schema.ItemPath, default.themePackageName, default.themeId]
  {
    ThemeUri(default.themePackageName, default.themeId)
  }

  // ---------------------------------------------------------------------
  // Queries

  /** listThemes: every row, with an optional projection. */
  method ListThemes(store: ThemeStore, projection: Option<seq<string>>) returns (c: Cursor)
    ensures fresh(c) && c.rows == store.rows && c.position == -1 && !c.closed
    ensures c.columns == if projection.Some? then projection.value else Schema.AllColumns
  {
    c := store.Query(projection, All);
    SelectAll(store.rows);
  }

  /** listThemesByPackage: the rows of one package, in table order. */
  method ListThemesByPackage(store: ThemeStore, packageName: string) returns (c: Cursor)
    ensures fresh(c) && c.columns == Schema.AllColumns && c.position == -1 && !c.closed
    ensures c.rows == Select(store.rows, PackageIs(packageName))
    ensures forall r :: r in c.rows <==> r in store.rows && r.packageName == packageName
  {
    c := store.Query(None, PackageIs(packageName));
  }

  /** getAppliedTheme: the rows whose is_applied is exactly 1. */
  method GetAppliedTheme(store: ThemeStore) returns (c: Cursor)
    ensures fresh(c) && c.columns == Schema.AllColumns && c.position == -1 && !c.closed
    ensures c.rows == Select(store.rows, AppliedIsOne)
    ensures forall r :: r in c.rows <==> r in store.rows && r.isApplied == 1
  {
    c := store.Query(None, AppliedIsOne);
  }

  // ---------------------------------------------------------------------
  // Mutations

  /** deleteTheme: removes the rows with key (packageName, themeId), system
      rows included, and leaves every other row in place and in order. */
  method DeleteTheme(store: ThemeStore, packageName: string, themeId: string)
    modifies store
    ensures store.rows == Reject(old(store.rows), KeyIs(packageName, themeId))
    ensures forall r :: r in store.rows <==>
      r in old(store.rows) && !(r.packageName == packageName && r.themeId == themeId)
  {
    var _ := store.Delete(KeyIs(packageName, themeId));
  }

  /** deleteThemesByPackage: removes every row of the package and nothing else. */
  method DeleteThemesByPackage(store: ThemeStore, packageName: string)
    modifies store
    ensures store.rows == Reject(old(store.rows), PackageIs(packageName))
    ensures forall r :: r in store.rows <==> r in old(store.rows) && r.packageName != packageName
  {
    var _ := store.Delete(PackageIs(packageName));
  }

  /** markAppliedTheme: clears is_applied on every row, then sets it on the
      rows with the key, reusing one ContentValues for both updates. */
  method MarkAppliedTheme(store: ThemeStore, packageName: string, themeId: string)
    modifies store
    ensures store.rows == MarkedApplied(old(store.rows), packageName, themeId)
  {
    var values: ContentValues := map[Schema.IsApplied := 0];
    var _ := store.Update(values, All);
    ClearedHasNoneApplied(old(store.rows));
    assert Select(store.rows, AppliedIsOne) == [];
    values := values[Schema.IsApplied := 1];
    var _ := store.Update(values, KeyIs(packageName, themeId));
    TwoUpdatesMarkApplied(old(store.rows), packageName, themeId);
  }

  /** A delete by composite key on a table with unique keys removes at most
      one row, and removes nothing when no row has the key. */
  lemma DeleteThemeRemovesAtMostOne(rows: seq<ThemeRow>, p: string, t: string)
    requires UniqueKeys(rows)
    ensures |rows| - 1 <= |Reject(rows, KeyIs(p, t))| <= |rows|
    ensures (forall x :: x in rows ==> !Selects(KeyIs(p, t), x)) ==> Reject(rows, KeyIs(p, t)) == rows
  {
  }

  /** Example: with ("pkgA","t1") not applied and ("pkgB","t2") applied,
      marking ("pkgA","t1") applies the first row and clears the second. */
  lemma MarkAppliedExample(a: ThemeRow, b: ThemeRow)
    requires a.packageName == "pkgA" && a.themeId == "t1" && a.isApplied == 0
    requires b.packageName == "pkgB" && b.themeId == "t2" && b.isApplied == 1
    ensures MarkedApplied([a, b], "pkgA", "t1") == [a.(isApplied := 1), b.(isApplied := 0)]
  {
  }

  // ---------------------------------------------------------------------
  // Theme-change requests

  /** changeTheme(Context, Intent): the intent goes out as an ordered
      broadcast whose receivers must hold CHANGE_CONFIGURATION. */
  function ChangeThemeWith(intent: Intent): (b: OrderedBroadcast)
    ensures b.intent == intent && b.receiverPermission == ChangeConfiguration
  {
    OrderedBroadcast(intent, ChangeConfiguration)
  }

  /** changeTheme(Context, Uri): a change-theme request for the URI, untyped. */
  function ChangeTheme(themeUri: Uri): (b: OrderedBroadcast)
    ensures b.intent.action == ActionChangeTheme && b.intent.data == Some(themeUri)
    ensures b.intent.mimeType == None && b.intent.extras == map[]
    ensures b.receiverPermission == ChangeConfiguration
  {
    ChangeThemeWith(Intent(ActionChangeTheme, Some(themeUri), None, map[]))
  }

  /** changeStyle: the same request, typed as a style item. */
  function ChangeStyle(styleUri: Uri): (b: OrderedBroadcast)
    ensures b.intent.action == ActionChangeTheme && b.intent.data == Some(styleUri)
    ensures b.intent.mimeType == Some(Schema.StyleContentItemType) && b.intent.extras == map[]
    ensures b.receiverPermission == ChangeConfiguration
  {
    ChangeThemeWith(Intent(ActionChangeTheme, Some(styleUri), Some(Schema.StyleContentItemType), map[]))
  }

  /** A style request differs from the theme request for the same URI only in
      its MIME type. */
  lemma StyleRequestOnlyAddsType(u: Uri)
    ensures ChangeStyle(u) != ChangeTheme(u)
    ensures ChangeStyle(u).(intent := ChangeStyle(u).intent.(mimeType := None)) == ChangeTheme(u)
  {
  }
}
