/**
 * Mounting the Scalar API reference: resolve and normalise the path, build the
 * renderer configuration, check that the application runs on Express, and
 * register the renderer's middleware once.
 */
module ScalarSetup {
  import opened Wrappers
  import opened JsValues
  import opened OptionTypes
  import opened Collaborators

  const ExpressAdapterRequired :=
    "Scalar setup requires an Express HTTP adapter. Make sure you are using @nestjs/platform-express."
  const InvalidExpressInstance := "Invalid Express application instance"

  /** Express needs a leading '/': prepend one unless it is already there. */
  function NormalizePath(p: string): (n: string)
    ensures |n| > 0 && n[0] == '/'
    ensures |p| > 0 && p[0] == '/' ==> n == p
    ensures !(|p| > 0 && p[0] == '/') ==> n == "/" + p
  {
    if |p| > 0 && p[0] == '/' then p else "/" + p
  }

  /** Normalising twice is normalising once. */
  lemma NormalizePathIdempotent(p: string)
    ensures NormalizePath(NormalizePath(p)) == NormalizePath(p)
  {
  }

  /** The caller's pass-through object, or an empty one. */
  function PassThrough(scalar: Option<ScalarOptions>): Config {
    if scalar.Some? && scalar.value.scalarOptions.Some? then scalar.value.scalarOptions.value else map[]
  }

  /** The configuration handed to `apiReference`: `content` is the document,
      `theme` is added when a theme is given, and every pass-through key
      overwrites what was there. */
  function ScalarConfig(document: Document, scalar: Option<ScalarOptions>): (c: Config)
    ensures var pass := PassThrough(scalar);
      var themed := scalar.Some? && Truthy(scalar.value.theme);
      && c.Keys == {"content"} + (if themed then {"theme"} else {}) + pass.Keys
      && c["content"] == (if "content" in pass then pass["content"] else Content(document))
      && ("theme" in c <==> themed || "theme" in pass)
      && ("theme" in c && "theme" !in pass ==> c["theme"] == Str(scalar.value.theme.value))
      && (forall k :: k in pass ==> c[k] == pass[k])
  {
    var scalarOptions := scalar.GetOr(ScalarOptions(None, None));
    var base: Config := map["content" := Content(document)];
    var themed := if Truthy(scalarOptions.theme) then base["theme" := Str(scalarOptions.theme.value)] else base;
    if scalarOptions.scalarOptions.Some? then Assign(themed, scalarOptions.scalarOptions.value) else themed
  }

  /** The two adapter checks: the HTTP adapter must exist and have a callable
      `getInstance`, and the instance it returns must exist and have a callable
      `use`. On success, the instance the application's adapter returned. */
  function ExpressInstanceOf(app: NestApp): (r: Result<ExpressInstance, Error>)
    ensures r.Success? <==>
      && app.httpAdapter.Some? && app.httpAdapter.value.getInstanceIsFunction
      && app.httpAdapter.value.instance.Some? && app.httpAdapter.value.instance.value.useIsFunction
    ensures r.Success? ==> Some(r.value) == app.httpAdapter.value.instance
    ensures r.Failure? ==>
      (r.error == Error(ExpressAdapterRequired) <==>
         app.httpAdapter.None? || !app.httpAdapter.value.getInstanceIsFunction)
    ensures r.Failure? ==> r.error in {Error(ExpressAdapterRequired), Error(InvalidExpressInstance)}
  {
    match app.httpAdapter
    case None => Failure(Error(ExpressAdapterRequired))
    case Some(adapter) =>
      if !adapter.getInstanceIsFunction then Failure(Error(ExpressAdapterRequired))
      else match adapter.instance
        case None => Failure(Error(InvalidExpressInstance))
        case Some(express) =>
          if !express.useIsFunction then Failure(Error(InvalidExpressInstance)) else Success(express)
  }

  /** What `ScalarSetup.setup` does: the middleware is built first, whatever
      happens next; a failed adapter check throws and registers nothing; on
      success exactly one registration follows, at the normalised path, with
      the middleware built from the final configuration. */
  function ScalarRun(app: NestApp, document: Document, options: RawOptions): (run: Run)
    ensures var config := ScalarConfig(document, options.scalar);
      && |run.calls| >= 1 && run.calls[0] == ApiReference(config)
      && (run.outcome.Pass? <==> ExpressInstanceOf(app).Success?)
      && (run.outcome.Fail? ==> run.calls == [ApiReference(config)]
                                && run.outcome.error == ExpressInstanceOf(app).error)
      && (run.outcome.Pass? ==> run.calls == [ApiReference(config),
            ExpressUse(ExpressInstanceOf(app).value, NormalizePath(DocsPath(options.base)), ApiReferenceHandler(config))])
      && MountCount(run.calls) == (if run.outcome.Pass? then 1 else 0)
  {
    var config := ScalarConfig(document, options.scalar);
    match ExpressInstanceOf(app)
    case Failure(e) => Run(Fail(e), [ApiReference(config)])
    case Success(express) =>
      Run(Pass, [ApiReference(config), ExpressUse(express, NormalizePath(DocsPath(options.base)), ApiReferenceHandler(config))])
  }

  /** `ScalarSetup.setup`. */
  method Setup(host: Host, app: NestApp, document: Document, options: RawOptions) returns (r: Outcome<Error>)
    modifies host
    ensures r == ScalarRun(app, document, options).outcome
    ensures host.calls == old(host.calls) + ScalarRun(app, document, options).calls
  {
    var docsPath := DocsPath(options.base);
    var normalizedPath := NormalizePath(docsPath);
    var scalarOptions := options.scalar.GetOr(ScalarOptions(None, None));

    var config: Config := map["content" := Content(document)];
    if Truthy(scalarOptions.theme) {
      config := config["theme" := Str(scalarOptions.theme.value)];
    }
    if scalarOptions.scalarOptions.Some? {
      config := Assign(config, scalarOptions.scalarOptions.value);
    }

    var middleware := ApiReferenceHandler(config);
    host.Perform(ApiReference(config));

    var httpAdapter := app.httpAdapter;
    if httpAdapter.None? || !httpAdapter.value.getInstanceIsFunction {
      return Fail(Error(ExpressAdapterRequired));
    }

    var expressApp := httpAdapter.value.instance;
    if expressApp.None? || !expressApp.value.useIsFunction {
      return Fail(Error(InvalidExpressInstance));
    }

    host.Perform(ExpressUse(expressApp.value, normalizedPath, middleware));
    r := Pass;
  }
}
