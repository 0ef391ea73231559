/**
 * Mounting Swagger UI: resolve the path, layer the default Swagger options
 * under the caller's, attach the composed theme stylesheet, and delegate the
 * mount to the Swagger module in one call.
 */
module OpenApiUISetup {
  import opened Wrappers
  import opened JsValues
  import opened SwaggerUITypes
  import opened OptionTypes
  import opened OpenApiUIThemeManager
  import opened Collaborators

  /** The caller's `swaggerOptions`, or an empty object. */
  function CallerSwaggerOptions(ui: UIOptions): Config {
    ui.swaggerOptions.GetOr(map[])
  }

  /** `{ explorer: true, jsonDocumentUrl: docsPath + '.json', ...callerOptions }`:
      the caller's keys win, and a default the caller does not mention stays. */
  function SwaggerOptions(docsPath: string, ui: UIOptions): (m: Config)
    ensures var caller := CallerSwaggerOptions(ui);
      && m.Keys == caller.Keys + {"explorer", "jsonDocumentUrl"}
      && m["explorer"] == (if "explorer" in caller then caller["explorer"] else Bool(true))
      && m["jsonDocumentUrl"] == (if "jsonDocumentUrl" in caller then caller["jsonDocumentUrl"]
                                  else Str(docsPath + ".json"))
      && (forall k :: k in caller ==> m[k] == caller[k])
  {
    Assign(map["explorer" := Bool(true), "jsonDocumentUrl" := Str(docsPath + ".json")], CallerSwaggerOptions(ui))
  }

  /** `customCss`: the composed stylesheet when a theme is given (the base
      sheet alone for a name outside the seven), `undefined` (never the empty
      string) otherwise. */
  function CustomCss(theme: Option<string>): (v: Value)
    ensures v.Undefined? <==> !Truthy(theme)
    ensures Truthy(theme) ==> v == Str(ThemeCss(theme.value))
    ensures Truthy(theme) && ParseTheme(theme.value).None? ==> v == Str(OpenApiUIThemeManager.BaseTheme)
    ensures Truthy(theme) && ParseTheme(theme.value).Some? ==>
      v == Str(OpenApiUIThemeManager.BaseTheme + "\n" + Overlay(ParseTheme(theme.value).value))
  {
    if Truthy(theme) then Str(ThemeCss(theme.value)) else Undefined
  }

  /** `{ ...swaggerOptions, customCss }`: the computed `customCss` replaces any
      the caller passed; every other key is as in the merged Swagger options. */
  function MountOptions(docsPath: string, ui: UIOptions): (m: Config)
    ensures var merged := SwaggerOptions(docsPath, ui);
      && m.Keys == merged.Keys + {"customCss"}
      && m["customCss"] == CustomCss(ui.theme)
      && (forall k :: k in merged && k != "customCss" ==> m[k] == merged[k])
  {
    Assign(SwaggerOptions(docsPath, ui), map["customCss" := CustomCss(ui.theme)])
  }

  /** `OpenApiUISetup.setup`: the single delegated call to the Swagger module,
      with the resolved (not normalised) path, the same application and the
      unmodified document. */
  function Setup(app: NestApp, document: Document, options: RawOptions): (call: Call)
    ensures call.SwaggerModuleSetup? && call.IsMount()
    ensures call.path == DocsPath(options.base) && call.app == app && call.document == document
    ensures call.options == MountOptions(call.path, options.swaggerUI.GetOr(UIOptions(None, None)))
  {
    var docsPath := DocsPath(options.base);
    var swaggerUIOptions := options.swaggerUI.GetOr(UIOptions(None, None));
    SwaggerModuleSetup(docsPath, app, document, MountOptions(docsPath, swaggerUIOptions))
  }

  /** Without caller Swagger options or a theme, the mount gets exactly the two
      defaults and an undefined `customCss`. */
  lemma DefaultMountOptions(docsPath: string)
    ensures MountOptions(docsPath, UIOptions(None, None))
         == map["explorer" := Bool(true), "jsonDocumentUrl" := Str(docsPath + ".json"), "customCss" := Undefined]
  {
  }
}
