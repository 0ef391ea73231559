# OpenAPI documentation mounting for NestJS — a Dafny model

This project models the option-resolution and dispatch core of a NestJS
library. The library mounts interactive API documentation on a running
application with a single `OpenApiModule.setup(app, options)` call. The call:

- builds the OpenAPI document once;
- picks one of two front-ends from the `ui` discriminant: Swagger UI (the
  default) or the Scalar API reference;
- resolves the mount path;
- merges the caller's renderer options over the defaults;
- for Swagger UI, composes a theme stylesheet from a base sheet and at most
  one of seven named overlays.

Modules, one per source file:

- `OptionTypes` (`types/index.ts`): the discriminated union `ModuleOptions`,
  with two constructors. `RawOptions` is the same options object at run time,
  after TypeScript has erased the types: `ui` can hold any string and both
  provider bags can be present. `ToRaw` and `FromRaw` convert between the two.
  `FromRaw` admits what the type checker admits.
- `SwaggerUITypes` (`types/swagger-ui.types.ts`): the seven-theme enum and the
  Swagger UI options bag.
- `OpenApiUIThemeManager`: the theme composer, as the imperative `GetThemeCss`
  proved equal to the specification function `ThemeCss`.
- `ScalarSetup`, `OpenApiUISetup`, `OpenApiModule`: the two mounts and the
  dispatcher.
- `JsValues`: configuration objects (`map<string, Value>`), truthiness of
  `||`, and `Object.assign` / object spread (later keys win).
- `Collaborators`: the code outside the core. Class `Host` records these
  calls the core makes into it, in order:
  - `createDocument`;
  - `apiReference`;
  - Express `use`;
  - `NestSwaggerModule.setup`.

  A run of each operation is specified by a function that returns the outcome
  (`Pass`, or `Fail` with the thrown `Error`) and the calls made. The methods
  `ScalarSetup.Setup` and `OpenApiModule.Setup` are proved to append exactly
  those calls to `Host.calls`.

Behaviour of the code worth knowing, which the model keeps:

- `apiReference` runs before the adapter checks
  (src/openapi/ui/scalar.setup.ts:40), so a failed check still builds the
  middleware. `ScalarRun` records that call on every path.
- Every throw is a plain `Error` with a fixed message
  (src/openapi/open-api.module.ts:68, src/openapi/ui/scalar.setup.ts:45-53).
  The model uses `Error(message)` with those messages.
- The one-bag rule exists only in the types
  (src/openapi/types/index.ts:64, 84): `FromRaw` and `WrongBagRejected` model
  it. At run time the dispatcher ignores the other bag (`OtherBagIgnored`).

## Model

| member | source | states |
|---|---|---|
| `SwaggerUITypes.ParseTheme` | src/openapi/types/swagger-ui.types.ts:1-8 | a runtime string is recognised as a theme only if it is that theme's literal name |
| `SwaggerUITypes.ParseThemeName` | src/openapi/types/swagger-ui.types.ts:1-8 | every theme is recognised from its own name, so the seven names are distinct |
| `SwaggerUITypes.ParseThemeIff` | src/openapi/types/swagger-ui.types.ts:1-8 | a string is recognised exactly when it is one of the seven theme names |
| `SwaggerUITypes.AllThemesClosed` | src/openapi/types/swagger-ui.types.ts:1-8 | the theme type is closed: exactly seven themes with pairwise-distinct names, and every theme is among them |
| `OptionTypes.DocsPath` | src/openapi/ui/scalar.setup.ts:22 | a missing or empty `path` resolves to `'api/docs'`, otherwise the caller's path is used; the result is never empty (same rule at swagger-ui.setup.ts:23) |
| `OptionTypes.ToRaw` | src/openapi/types/index.ts:50-92 | at run time the Scalar variant has `ui === 'scalar'` and no `swaggerUI` bag; the Swagger UI variant has `ui` absent or `'swagger-ui'` and no `scalar` bag; both keep the base fields |
| `OptionTypes.FromRaw` | src/openapi/types/index.ts:18-92 | an accepted object keeps its base fields and is well typed: its theme is one of the seven, `explorer` is a boolean or `undefined` and `jsonDocumentUrl` a string or `undefined` |
| `OptionTypes.FromRawToRaw` | src/openapi/types/index.ts:90-92 | every well-typed union value is accepted back as itself |
| `OptionTypes.ToRawFromRaw` | src/openapi/types/index.ts:90-92 | an accepted object is exactly the runtime form of the value it is accepted as |
| `OptionTypes.DiscriminantDecidesVariant` | src/openapi/types/index.ts:54-74 | `ui === 'scalar'` exactly for the Scalar variant; the Swagger UI variant has `ui` absent or `'swagger-ui'` |
| `OptionTypes.WrongBagRejected` | src/openapi/types/index.ts:64-84 | both bags together, a `swaggerUI` bag with `ui: 'scalar'`, or a `scalar` bag without it are rejected |
| `JsValues.Or` | src/openapi/open-api.module.ts:74 | `s or-else fallback` on an optional string: the value when it is present and non-empty, the fallback otherwise |
| `JsValues.Assign` | src/openapi/ui/scalar.setup.ts:36-38 | `Object.assign` and object spread: every source key overwrites, every other target key keeps its value, the key set is the union |
| `OpenApiUIThemeManager.OverlayInjective` | src/openapi/themes/swagger-ui-theme.manager.ts:26-47 | no cross-mapping: distinct themes select distinct overlay sheets |
| `OpenApiUIThemeManager.ThemeCss` | src/openapi/themes/swagger-ui-theme.manager.ts:23-53 | the result always begins with the base sheet; an unrecognised name gives the base sheet alone; a recognised one adds exactly a newline and one overlay (its length is the base length + 1 + the overlay length) |
| `OpenApiUIThemeManager.GetThemeCss` | src/openapi/themes/swagger-ui-theme.manager.ts:23-53 | the `switch` with its accumulator computes `ThemeCss`, so at most one overlay is appended and the result depends on the theme alone |
| `OpenApiUIThemeManager.ThemeCssOfTheme` | src/openapi/themes/swagger-ui-theme.manager.ts:26-47 | each of the seven themes gets exactly base + `"\n"` + its own overlay |
| `OpenApiUIThemeManager.OverlayOf` | src/openapi/themes/swagger-ui-theme.manager.ts:23-53 | proof helper (inverse of `ThemeCss`, not source code): the overlay a composed sheet carries; whatever it returns was appended to base + `"\n"` |
| `OpenApiUIThemeManager.OverlayOfThemeCss` | src/openapi/themes/swagger-ui-theme.manager.ts:23-53 | the composed sheet determines the recognised theme (the `OverlayOf` / `ThemeCss` round trip) |
| `OpenApiUIThemeManager.ThemeCssInjective` | src/openapi/themes/swagger-ui-theme.manager.ts:26-52 | two names give the same sheet exactly when they select the same overlay, or none |
| `ScalarSetup.NormalizePath` | src/openapi/ui/scalar.setup.ts:24 | the normalised path starts with `/`; a path that starts with `/` is unchanged, any other gets exactly one `/` prepended |
| `ScalarSetup.NormalizePathIdempotent` | src/openapi/ui/scalar.setup.ts:24 | normalising twice is normalising once |
| `ScalarSetup.ScalarConfig` | src/openapi/ui/scalar.setup.ts:25-38 | `content` is the document unless a pass-through key replaces it; `theme` is present iff a truthy theme is given or passed through; pass-through keys win; no other keys |
| `ScalarSetup.ExpressInstanceOf` | src/openapi/ui/scalar.setup.ts:42-53 | succeeds iff the adapter exists with a callable `getInstance` and the instance exists with a callable `use`; the first failure gives the adapter message, the second the instance message |
| `ScalarSetup.ScalarRun` | src/openapi/ui/scalar.setup.ts:22-56 | `apiReference` is called first on every path; a failed check throws and registers nothing; success registers once, at the normalised path, with middleware built from the final config |
| `ScalarSetup.Setup` | src/openapi/ui/scalar.setup.ts:17-56 | the imperative mount makes exactly the calls of `ScalarRun`, in order, and ends as it says |
| `OpenApiUISetup.SwaggerOptions` | src/openapi/ui/swagger-ui.setup.ts:24-30 | defaults `explorer: true` and `jsonDocumentUrl: path + ".json"` apply unless the caller supplies those keys; caller keys win; no other keys |
| `OpenApiUISetup.CustomCss` | src/openapi/ui/swagger-ui.setup.ts:32-34 | `customCss` is `undefined` exactly when no truthy theme is given; otherwise it equals `getThemeCss(theme)`: the base sheet alone for a name outside the seven, base + `"\n"` + overlay for one of them |
| `OpenApiUISetup.MountOptions` | src/openapi/ui/swagger-ui.setup.ts:36-39 | the computed `customCss` always replaces any the caller passed; every other merged key is kept |
| `OpenApiUISetup.Setup` | src/openapi/ui/swagger-ui.setup.ts:18-40 | one delegated mount call with the resolved, unnormalised path, the same app, the unmodified document and the merged options |
| `OpenApiUISetup.DefaultMountOptions` | src/openapi/ui/swagger-ui.setup.ts:26-39 | without caller options or theme the mount gets exactly `explorer: true`, `jsonDocumentUrl: path + ".json"` and `customCss: undefined` |
| `OpenApiModule.ResolveProvider` | src/openapi/open-api.module.ts:74-76 | the provider is `'scalar'` iff `ui` is `'scalar'`; an absent or empty `ui` gives `'swagger-ui'` |
| `OpenApiModule.MountRun` | src/openapi/open-api.module.ts:76-80 | `'scalar'` runs only the Scalar mount, every other value only the Swagger UI mount; a successful mount registers exactly one route |
| `OpenApiModule.SetupRun` | src/openapi/open-api.module.ts:66-81 | no app: throws before any call; otherwise the document is built first; a build error propagates unchanged with no mount; else the built document goes to the selected mount |
| `OpenApiModule.Setup` | src/openapi/open-api.module.ts:66-81 | the imperative dispatcher makes exactly the calls of `SetupRun`, in order, and ends as it says |
| `OpenApiModule.MissingAppCallsNothing` | src/openapi/open-api.module.ts:67-69 | a falsy app throws the fixed message before the document is built and before any mount |
| `OpenApiModule.DocumentBuiltOnce` | src/openapi/open-api.module.ts:71-72 | with an app the document is built exactly once, as the first call; if building fails nothing is mounted |
| `OpenApiModule.ExactlyOneMount` | src/openapi/open-api.module.ts:76-80 | the route registrations in the host's log grow by one when setup succeeds and by none when it throws |
| `OpenApiModule.ProviderSelectsMount` | src/openapi/open-api.module.ts:74-80 | `ui === 'scalar'` reaches `apiReference` with the built document and never the Swagger module; any other `ui` makes exactly the Swagger UI mount call with the built document |
| `OpenApiModule.OtherBagIgnored` | src/openapi/open-api.module.ts:76-80 | the bag of the provider not selected is neither rejected nor read: replacing it leaves the run unchanged |
| `OpenApiModule.TypedOptionsDispatch` | src/openapi/open-api.module.ts:74-80 | for a typed options value, the Scalar mount is chosen exactly for the Scalar variant |
| `Collaborators.MountCountAppend` | src/openapi/open-api.module.ts:76-80 | proof helper (not source code): route registrations in a concatenated call log add up; used by `ExactlyOneMount` |

## Left out

- `OpenApiModule.forRoot` and `forRootAsync` (src/openapi/open-api.module.ts:17-45) are left out. They only wire the options into NestJS dependency injection and resolve async factories.
- `DocumentBuilderConfig.build` and `NestSwaggerModule.createDocument` are not part of this model. Together they are the `DocumentBuilder` parameter, which returns a document or an error. It is assumed to read only the shared base fields. The document is an opaque handle.
- `apiReference`, Express `use` and `NestSwaggerModule.setup` are recorded only as calls with their arguments. Errors these renderers might throw are not modelled.
- The CSS texts in `src/openapi/themes/swagger-ui` are not part of this model. The constants are distinct placeholders, and the composer relies only on their distinctness.
- The order of keys in JavaScript objects is not modelled. Configuration objects are maps.
- The `auth` configuration and the rest of `ScalarOptions` are not modelled. `auth` is an opaque handle. `ScalarOptions` is reduced to `theme` and `scalarOptions`, the two fields the Scalar mount reads.
- No modelled file applies the documented `version` default `'1.0'`; `version` only reaches the document builder, which is not modelled.
- `typeof … === 'function'` checks are modelled as booleans on the adapter and on the Express instance.
- `app.getHttpAdapter()` (src/openapi/ui/scalar.setup.ts:43) and `httpAdapter.getInstance()` (src/openapi/ui/scalar.setup.ts:50) are modelled as field reads of `NestApp` and `HttpAdapter`, not as logged calls; `Host` does not record them.
