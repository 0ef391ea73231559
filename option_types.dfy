/**
 * The module options: the fields shared by both variants, the Scalar options
 * bag, the discriminated union on `ui`, and the untyped object the union
 * becomes at run time.
 */
module OptionTypes {
  import opened Wrappers
  import opened JsValues
  import opened SwaggerUITypes

  /** The documented default mount path. */
  const DefaultPath := "api/docs"

  /** The two `UIProvider` literals. */
  const SwaggerUIProvider := "swagger-ui"
  const ScalarProvider := "scalar"

  /** Authentication configuration; its shape is not modelled. */
  datatype AuthConfig = AuthConfig(handle: nat)

  /** `OpenApiModuleOptionsBase`: `title` is required, the rest optional. */
  datatype BaseOptions = BaseOptions(
    path: Option<string>,
    title: string,
    description: Option<string>,
    version: Option<string>,
    auth: Option<AuthConfig>)

  /** `options.path || 'api/docs'`, as both mounts resolve it: a missing or
      empty path falls back to the default; the result is never empty. */
  function DocsPath(base: BaseOptions): (p: string)
    ensures p != ""
    ensures Truthy(base.path) ==> p == base.path.value
    ensures base.path.None? || base.path == Some("") ==> p == DefaultPath
  {
    Or(base.path, DefaultPath)
  }

  /** `ScalarOptions`: an optional theme string and an optional pass-through
      object forwarded to the Scalar renderer. */
  datatype ScalarOptions = ScalarOptions(theme: Option<string>, scalarOptions: Option<Config>)

  /** `OpenApiModuleOptions`: a discriminated union with exactly two variants.
      The Swagger UI variant has no `scalar` bag and the Scalar variant has no
      `swaggerUI` bag. `uiGiven` records whether the optional `ui: 'swagger-ui'`
      was written; the Scalar variant's `ui` is always `'scalar'`. */
  datatype ModuleOptions =
    | WithSwaggerUI(base: BaseOptions, uiGiven: bool, swaggerUI: Option<UIOptions>)
    | WithScalar(base: BaseOptions, scalar: Option<ScalarOptions>)
  {
    /** What the declared types of the fields admit beyond the union's shape. */
    predicate WellTyped() {
      WithSwaggerUI? ==> (swaggerUI.Some? ==> UIOptionsWellTyped(swaggerUI.value))
    }
  }

  /** The options object as the code sees it at run time, where the TypeScript
      types are erased: every field may be present, `ui` may hold any string. */
  datatype RawOptions = RawOptions(
    base: BaseOptions,
    ui: Option<string>,
    swaggerUI: Option<UIOptions>,
    scalar: Option<ScalarOptions>)

  /** The object a typed options value is at run time. */
  function ToRaw(o: ModuleOptions): (r: RawOptions)
    ensures r.base == o.base
    ensures o.WithScalar? ==> r.ui == Some(ScalarProvider) && r.swaggerUI.None? && r.scalar == o.scalar
    ensures o.WithSwaggerUI? ==>
      r.ui == (if o.uiGiven then Some(SwaggerUIProvider) else None) && r.scalar.None? && r.swaggerUI == o.swaggerUI
  {
    match o
    case WithSwaggerUI(base, uiGiven, swaggerUI) =>
      RawOptions(base, if uiGiven then Some(SwaggerUIProvider) else None, swaggerUI, None)
    case WithScalar(base, scalar) =>
      RawOptions(base, Some(ScalarProvider), None, scalar)
  }

  /** The typed value an object is accepted as by the type checker, if any. */
  function FromRaw(r: RawOptions): (o: Option<ModuleOptions>)
    ensures o.Some? ==> o.value.base == r.base && o.value.WellTyped()
  {
    if r.ui == Some(ScalarProvider) then
      if r.swaggerUI.None? then Some(WithScalar(r.base, r.scalar)) else None
    else if (r.ui.None? || r.ui == Some(SwaggerUIProvider)) && r.scalar.None?
      && (r.swaggerUI.Some? ==> UIOptionsWellTyped(r.swaggerUI.value)) then
      Some(WithSwaggerUI(r.base, r.ui.Some?, r.swaggerUI))
    else None
  }

  /** Every well-typed value is accepted back as itself. */
  lemma FromRawToRaw(o: ModuleOptions)
    requires o.WellTyped()
    ensures FromRaw(ToRaw(o)) == Some(o)
  {
  }

  /** Whatever is accepted is exactly the runtime form of the accepted value. */
  lemma ToRawFromRaw(r: RawOptions)
    requires FromRaw(r).Some?
    ensures ToRaw(FromRaw(r).value) == r
  {
  }

  /** The discriminant decides the variant: `ui === 'scalar'` exactly for the
      Scalar variant; the Swagger UI variant has `ui` absent or `'swagger-ui'`. */
  lemma DiscriminantDecidesVariant(r: RawOptions)
    requires FromRaw(r).Some?
    ensures FromRaw(r).value.WithScalar? <==> r.ui == Some(ScalarProvider)
    ensures FromRaw(r).value.WithSwaggerUI? <==> r.ui.None? || r.ui == Some(SwaggerUIProvider)
  {
  }

  /** Mutual exclusion: an object carrying both provider bags, or a bag of the
      provider its `ui` does not select, is not accepted. */
  lemma WrongBagRejected(r: RawOptions)
    requires (r.swaggerUI.Some? && r.scalar.Some?)
          || (r.ui == Some(ScalarProvider) && r.swaggerUI.Some?)
          || (r.ui != Some(ScalarProvider) && r.scalar.Some?)
    ensures FromRaw(r).None?
  {
  }
}
