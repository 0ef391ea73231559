/**
 * The Swagger UI theme composer: a base stylesheet, optionally followed by a
 * newline and the overlay stylesheet of one named theme.
 */
module OpenApiUIThemeManager {
  import opened Wrappers
  import opened SwaggerUITypes

  // The stylesheet texts themselves are not modelled. These stand-ins are
  // pairwise distinct, which is all the composer relies on.
  const BaseTheme := "/* swagger-ui base */"
  const DraculaTheme := "/* dracula */"
  const GruvboxTheme := "/* gruvbox */"
  const NordDarkTheme := "/* nord-dark */"
  const OneDarkTheme := "/* one-dark */"
  const SepiaTheme := "/* sepia */"
  const UniversalDarkTheme := "/* universal-dark */"
  const MonokaiTheme := "/* monokai */"

  /** The overlay stylesheet of each theme. */
  function Overlay(t: Theme): string {
    match t
    case Dracula => DraculaTheme
    case Gruvbox => GruvboxTheme
    case NordDark => NordDarkTheme
    case OneDark => OneDarkTheme
    case Sepia => SepiaTheme
    case UniversalDark => UniversalDarkTheme
    case Monokai => MonokaiTheme
  }

  /** No cross-mapping: distinct themes select distinct overlays. */
  lemma OverlayInjective(t1: Theme, t2: Theme)
    ensures Overlay(t1) == Overlay(t2) <==> t1 == t2
  {
  }

  /** The stylesheet for a theme name: the base alone for anything that is not
      one of the seven names, otherwise the base, a newline and one overlay. */
  function ThemeCss(theme: string): (css: string)
    ensures BaseTheme <= css
    ensures ParseTheme(theme).None? <==> css == BaseTheme
    ensures ParseTheme(theme).Some? ==>
      |css| == |BaseTheme| + 1 + |Overlay(ParseTheme(theme).value)| && css[|BaseTheme|] == '\n'
  {
    match ParseTheme(theme)
    case None => BaseTheme
    case Some(t) => BaseTheme + "\n" + Overlay(t)
  }

  /** `getThemeCss`: start from the base and append at most one overlay. */
  method GetThemeCss(theme: string) returns (css: string)
    ensures css == ThemeCss(theme)
  {
    css := BaseTheme;
    if theme == "dracula" {
      css := css + "\n" + DraculaTheme;
    } else if theme == "gruvbox" {
      css := css + "\n" + GruvboxTheme;
    } else if theme == "nord-dark" {
      css := css + "\n" + NordDarkTheme;
    } else if theme == "one-dark" {
      css := css + "\n" + OneDarkTheme;
    } else if theme == "sepia" {
      css := css + "\n" + SepiaTheme;
    } else if theme == "universal-dark" {
      css := css + "\n" + UniversalDarkTheme;
    } else if theme == "monokai" {
      css := css + "\n" + MonokaiTheme;
    }
  }

  /** Each of the seven themes gets the base, a newline and its own overlay. */
  lemma ThemeCssOfTheme(t: Theme)
    ensures ThemeCss(ThemeName(t)) == BaseTheme + "\n" + Overlay(t)
  {
  }

  /** The overlay a composed stylesheet carries, if any: the inverse of
      `ThemeCss` on the seven themes. */
  function OverlayOf(css: string): (r: Option<Theme>)
    ensures r.Some? ==> css == BaseTheme + "\n" + Overlay(r.value)
  {
    var n := |BaseTheme| + 1;
    if |css| < n || css[..n] != BaseTheme + "\n" then None
    else
      var rest := css[n..];
      if rest == DraculaTheme then Some(Dracula)
      else if rest == GruvboxTheme then Some(Gruvbox)
      else if rest == NordDarkTheme then Some(NordDark)
      else if rest == OneDarkTheme then Some(OneDark)
      else if rest == SepiaTheme then Some(Sepia)
      else if rest == UniversalDarkTheme then Some(UniversalDark)
      else if rest == MonokaiTheme then Some(Monokai)
      else None
  }

  /** The composed stylesheet determines the recognised theme. */
  lemma OverlayOfThemeCss(theme: string)
    ensures OverlayOf(ThemeCss(theme)) == ParseTheme(theme)
  {
  }

  /** Two theme names give the same stylesheet exactly when they select the
      same overlay (or none). */
  lemma ThemeCssInjective(a: string, b: string)
    ensures ThemeCss(a) == ThemeCss(b) <==> ParseTheme(a) == ParseTheme(b)
  {
    OverlayOfThemeCss(a);
    OverlayOfThemeCss(b);
  }
}
