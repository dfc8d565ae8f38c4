/**
 The magic-link blob and its validity rule (internal/config/config.go).

 Go strings are byte strings, so `Text` is a sequence of characters below 256, one per byte.
 The raw content of the parameter is abstracted to what `json.Unmarshal` makes of it: nothing,
 something it rejects, or a document carrying a link (absent fields are empty).
 */
module Config {
  import opened Options

  type Byte = c: char | c as int < 256 witness 'a'
  type Text = seq<Byte>

  datatype MagicLink = MagicLink(accessToken: Text, refreshToken: Text, expiresIn: int, tokenType: Text)

  datatype Raw = Empty | Malformed(text: Text) | Doc(link: MagicLink)

  /** Both tokens are present: the one condition the store, the refresher and the cache share. */
  predicate Usable(link: MagicLink) {
    link.accessToken != "" && link.refreshToken != ""
  }

  function ParseMagicLink(raw: Raw): (link: Option<MagicLink>)
    ensures link.Some? <==> raw.Doc? && raw.link.accessToken != "" && raw.link.refreshToken != ""
    ensures link.Some? ==> Usable(link.value) && Marshal(link.value) == raw
  {
    match raw
    case Empty => None
    case Malformed(_) => None
    case Doc(link) => if link.accessToken == "" || link.refreshToken == "" then None else Some(link)
  }

  function Marshal(link: MagicLink): Raw {
    Doc(link)
  }

  const DEFAULT_APP_SCHEME: Text := "foam"

  predicate IsAllowedAppScheme(scheme: Text) {
    scheme in {"foam", "foam-dev", "foam-internal", "foam-testflight", "foam-e2e"}
  }

  function ResolveAppScheme(requested: Text): (scheme: Text)
    ensures scheme == requested || scheme == "foam"
    ensures scheme == requested <==>
      requested in {"foam", "foam-dev", "foam-internal", "foam-testflight", "foam-e2e"}
    ensures IsAllowedAppScheme(scheme) && (IsAllowedAppScheme(requested) <==> scheme == requested)
  {
    if IsAllowedAppScheme(requested) then requested else DEFAULT_APP_SCHEME
  }
}
