/**
 * The Swagger UI option types: the closed set of theme names and the options
 * bag of the Swagger UI variant.
 */
module SwaggerUITypes {
  import opened Wrappers
  import opened JsValues

  /** `OpenApiUITheme`: exactly seven themes. */
  datatype Theme = Dracula | Gruvbox | NordDark | OneDark | Sepia | UniversalDark | Monokai

  /** The string literal each theme is written as. */
  function ThemeName(t: Theme): string {
    match t
    case Dracula => "dracula"
    case Gruvbox => "gruvbox"
    case NordDark => "nord-dark"
    case OneDark => "one-dark"
    case Sepia => "sepia"
    case UniversalDark => "universal-dark"
    case Monokai => "monokai"
  }

  /** The theme a runtime string names, if any. */
  function ParseTheme(s: string): (r: Option<Theme>)
    ensures r.Some? ==> ThemeName(r.value) == s
  {
    if s == "dracula" then Some(Dracula)
    else if s == "gruvbox" then Some(Gruvbox)
    else if s == "nord-dark" then Some(NordDark)
    else if s == "one-dark" then Some(OneDark)
    else if s == "sepia" then Some(Sepia)
    else if s == "universal-dark" then Some(UniversalDark)
    else if s == "monokai" then Some(Monokai)
    else None
  }

  /** Every theme is recovered from its name, so the seven names are distinct. */
  lemma ParseThemeName(t: Theme)
    ensures ParseTheme(ThemeName(t)) == Some(t)
  {
  }

  /** A string names a theme exactly when it is one of the seven names. */
  lemma ParseThemeIff(s: string)
    ensures ParseTheme(s).Some? <==> exists t: Theme :: ThemeName(t) == s
  {
  }

  /** The seven themes, in declaration order. */
  const AllThemes: seq<Theme> := [Dracula, Gruvbox, NordDark, OneDark, Sepia, UniversalDark, Monokai]

  /** The enumeration is closed: seven pairwise-distinct themes, every theme among them. */
  lemma AllThemesClosed()
    ensures |AllThemes| == 7
    ensures forall t: Theme :: t in AllThemes
    ensures forall i, j :: 0 <= i < j < |AllThemes| ==> ThemeName(AllThemes[i]) != ThemeName(AllThemes[j])
  {
    forall t: Theme ensures t in AllThemes {
      match t
      case Dracula => assert AllThemes[0] == t;
      case Gruvbox => assert AllThemes[1] == t;
      case NordDark => assert AllThemes[2] == t;
      case OneDark => assert AllThemes[3] == t;
      case Sepia => assert AllThemes[4] == t;
      case UniversalDark => assert AllThemes[5] == t;
      case Monokai => assert AllThemes[6] == t;
    }
  }

  /** `OpenApiUIOptions` as the runtime object: `theme` may carry any string once
      types are erased; `swaggerOptions` is an open string-keyed object. */
  datatype UIOptions = UIOptions(theme: Option<string>, swaggerOptions: Option<Config>)

  /** What the declared type of `OpenApiUIOptions` admits: a theme among the
      seven, and an `explorer` that is a boolean or `undefined` and a
      `jsonDocumentUrl` that is a string or `undefined` when present (an
      optional property also admits an explicit `undefined`). */
  predicate UIOptionsWellTyped(o: UIOptions) {
    && (o.theme.Some? ==> ParseTheme(o.theme.value).Some?)
    && (o.swaggerOptions.Some? ==>
          && ("explorer" in o.swaggerOptions.value ==> (o.swaggerOptions.value["explorer"].Bool? || o.swaggerOptions.value["explorer"].Undefined?))
          && ("jsonDocumentUrl" in o.swaggerOptions.value ==> (o.swaggerOptions.value["jsonDocumentUrl"].Str? || o.swaggerOptions.value["jsonDocumentUrl"].Undefined?)))
  }
}
