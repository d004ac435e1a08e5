/** Value-level stand-ins for the Android platform types the theme provider
    exchanges with its callers: android.net.Uri, android.content.res.CustomTheme
    and android.content.Intent.  Only their observable structure is modelled. */
module Platform {
  import opened Wrappers

  /** A URI.  `Hierarchical` is what `Uri.Builder` produces from a scheme, an
      authority and path segments; `Parsed` is the result of `Uri.parse` on
      stored text, whose internals are left opaque. */
  datatype Uri =
    | Hierarchical(scheme: string, authority: string, segments: seq<string>)
    | Parsed(text: string)

  /** `Uri.parse(text)`: never fails, keeps the text. */
  function Parse(text: string): (u: Uri)
    ensures u.Parsed? && u.text == text
  {
    Parsed(text)
  }

  /** `uri.buildUpon().appendPath(segment).build()` on a hierarchical URI. */
  function AppendPath(u: Uri, segment: string): (r: Uri)
    requires u.Hierarchical?
    ensures r.Hierarchical? && r.scheme == u.scheme && r.authority == u.authority
    ensures r.segments == u.segments + [segment]
  {
    u.(segments := u.segments + [segment])
  }

  /** The platform's descriptor of a theme: its package and its theme id. */
  datatype CustomTheme = CustomTheme(themePackageName: string, themeId: string)

  /** An intent action: the one the theme manager listens for
      (ThemeManager.ACTION_CHANGE_THEME), or any other action string. */
  datatype Action = ActionChangeTheme | OtherAction(name: string)

  /** An intent: an action, an optional data URI, an optional MIME type and
      its extras, keyed by name (values kept as text). */
  datatype Intent = Intent(action: Action, data: Option<Uri>, mimeType: Option<string>,
                           extras: map<string, string>)

  /** A request handed to `Context.sendOrderedBroadcast(intent, permission)`. */
  datatype OrderedBroadcast = OrderedBroadcast(intent: Intent, receiverPermission: string)

  /** android.Manifest.permission.CHANGE_CONFIGURATION */
  const ChangeConfiguration := "android.permission.CHANGE_CONFIGURATION"
}
