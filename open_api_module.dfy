/**
 * `OpenApiModule.setup`: guard against a missing application, build the
 * document once, and hand it to exactly one of the two mounts.
 */
module OpenApiModule {
  import opened Wrappers
  import opened JsValues
  import opened OptionTypes
  import opened Collaborators
  import ScalarSetup
  import OpenApiUISetup

  const AppRequired := "NestJS application instance is required"

  /** The document generator: `createDocument(app, DocumentBuilderConfig.build(options).build())`,
      which either yields a document or throws. */
  type DocumentBuilder = (NestApp, BaseOptions) -> Result<Document, Error>

  /** `options.ui || 'swagger-ui'`: the provider name the dispatch compares. */
  function ResolveProvider(ui: Option<string>): (p: string)
    ensures p == ScalarProvider <==> ui == Some(ScalarProvider)
    ensures !Truthy(ui) ==> p == SwaggerUIProvider
    ensures Truthy(ui) ==> p == ui.value
  {
    Or(ui, SwaggerUIProvider)
  }

  /** The mount `setup` hands the document to once it is built. */
  function MountRun(app: NestApp, document: Document, options: RawOptions): (run: Run)
    ensures ResolveProvider(options.ui) == ScalarProvider ==> run == ScalarSetup.ScalarRun(app, document, options)
    ensures ResolveProvider(options.ui) != ScalarProvider ==> run == Run(Pass, [OpenApiUISetup.Setup(app, document, options)])
    ensures MountCount(run.calls) == (if run.outcome.Pass? then 1 else 0)
  {
    if ResolveProvider(options.ui) == ScalarProvider then ScalarSetup.ScalarRun(app, document, options)
    else Run(Pass, [OpenApiUISetup.Setup(app, document, options)])
  }

  /** What `OpenApiModule.setup` does, as the calls it makes and how it ends. */
  function SetupRun(app: Option<NestApp>, options: RawOptions, build: DocumentBuilder): (run: Run)
    ensures app.None? ==> run == Run(Fail(Error(AppRequired)), [])
    ensures app.Some? ==> |run.calls| >= 1 && run.calls[0] == CreateDocument(app.value, options.base)
    ensures app.Some? && build(app.value, options.base).Failure? ==>
      run == Run(Fail(build(app.value, options.base).error), [CreateDocument(app.value, options.base)])
    ensures app.Some? && build(app.value, options.base).Success? ==>
      var mount := MountRun(app.value, build(app.value, options.base).value, options);
      run == Run(mount.outcome, [CreateDocument(app.value, options.base)] + mount.calls)
  {
    if app.None? then Run(Fail(Error(AppRequired)), [])
    else
      var built := build(app.value, options.base);
      if built.Failure? then Run(Fail(built.error), [CreateDocument(app.value, options.base)])
      else
        var mount := MountRun(app.value, built.value, options);
        Run(mount.outcome, [CreateDocument(app.value, options.base)] + mount.calls)
  }

  /** `OpenApiModule.setup`. */
  method Setup(host: Host, app: Option<NestApp>, options: RawOptions, build: DocumentBuilder)
    returns (r: Outcome<Error>)
    modifies host
    ensures r == SetupRun(app, options, build).outcome
    ensures host.calls == old(host.calls) + SetupRun(app, options, build).calls
  {
    if app.None? {
      return Fail(Error(AppRequired));
    }

    host.Perform(CreateDocument(app.value, options.base));
    var document := build(app.value, options.base);
    if document.Failure? {
      return Fail(document.error);
    }

    var uiProvider := ResolveProvider(options.ui);
    if uiProvider == ScalarProvider {
      r := ScalarSetup.Setup(host, app.value, document.value, options);
    } else {
      host.Perform(OpenApiUISetup.Setup(app.value, document.value, options));
      r := Pass;
    }
  }

  /** The number of `CreateDocument` calls in a log. */
  function BuildCount(calls: seq<Call>): nat {
    if calls == [] then 0
    else (if calls[0].CreateDocument? then 1 else 0) + BuildCount(calls[1..])
  }

  /** A missing application throws before anything is built or mounted. This
      restates the first `ensures` of `SetupRun` as a named property. */
  lemma MissingAppCallsNothing(options: RawOptions, build: DocumentBuilder)
    ensures SetupRun(None, options, build).outcome == Fail(Error(AppRequired))
    ensures SetupRun(None, options, build).calls == []
  {
  }

  /** With an application, the document is built exactly once, first, and a
      mount happens only after a successful build. */
  lemma DocumentBuiltOnce(app: NestApp, options: RawOptions, build: DocumentBuilder)
    ensures var run := SetupRun(Some(app), options, build);
      && BuildCount(run.calls) == 1
      && run.calls[0] == CreateDocument(app, options.base)
      && (build(app, options.base).Failure? ==> MountCount(run.calls) == 0 && run.outcome.Fail?)
  {
    var run := SetupRun(Some(app), options, build);
    var built := build(app, options.base);
    if built.Success? {
      var mount := MountRun(app, built.value, options);
      assert run.calls[1..] == mount.calls;
      assert forall i :: 0 <= i < |mount.calls| ==> !mount.calls[i].CreateDocument?;
      NoBuildCalls(mount.calls);
    } else {
      assert run.calls[1..] == [];
    }
  }

  /** A log without `CreateDocument` calls counts none. */
  lemma {:induction false} NoBuildCalls(calls: seq<Call>)
    requires forall i :: 0 <= i < |calls| ==> !calls[i].CreateDocument?
    ensures BuildCount(calls) == 0
  {
    if calls != [] {
      NoBuildCalls(calls[1..]);
    }
  }

  /** Exactly one mount runs when `setup` succeeds and none when it throws;
      the host's log gains at most one route registration. */
  lemma ExactlyOneMount(log: seq<Call>, app: Option<NestApp>, options: RawOptions, build: DocumentBuilder)
    ensures var run := SetupRun(app, options, build);
      MountCount(log + run.calls) == MountCount(log) + (if run.outcome.Pass? then 1 else 0)
  {
    var run := SetupRun(app, options, build);
    MountCountAppend(log, run.calls);
    if app.Some? && build(app.value, options.base).Success? {
      var mount := MountRun(app.value, build(app.value, options.base).value, options);
      MountCountAppend([CreateDocument(app.value, options.base)], mount.calls);
    }
  }

  /** `ui === 'scalar'` selects only the Scalar mount, every other value (an
      absent or empty `ui` included) only the Swagger UI mount; either way the
      built document is the one handed over. */
  lemma ProviderSelectsMount(app: NestApp, options: RawOptions, build: DocumentBuilder)
    requires build(app, options.base).Success?
    ensures var run := SetupRun(Some(app), options, build);
      var document := build(app, options.base).value;
      && (options.ui == Some(ScalarProvider) ==>
            run.calls[1] == ApiReference(ScalarSetup.ScalarConfig(document, options.scalar))
            && (forall i :: 0 <= i < |run.calls| ==> !run.calls[i].SwaggerModuleSetup?))
      && (options.ui != Some(ScalarProvider) ==>
            run.outcome == Pass
            && run.calls == [CreateDocument(app, options.base), OpenApiUISetup.Setup(app, document, options)])
  {
  }

  /** The bag of the provider that is not selected is neither checked nor read:
      replacing it changes nothing about the run. */
  lemma OtherBagIgnored(app: Option<NestApp>, options: RawOptions, build: DocumentBuilder,
                        swaggerUI: Option<SwaggerUITypes.UIOptions>, scalar: Option<ScalarOptions>)
    ensures options.ui == Some(ScalarProvider) ==>
      SetupRun(app, options.(swaggerUI := swaggerUI), build) == SetupRun(app, options, build)
    ensures options.ui != Some(ScalarProvider) ==>
      SetupRun(app, options.(scalar := scalar), build) == SetupRun(app, options, build)
  {
  }

  /** For a typed options value, the variant decides the mount. */
  lemma TypedOptionsDispatch(o: ModuleOptions)
    ensures ResolveProvider(ToRaw(o).ui) == ScalarProvider <==> o.WithScalar?
  {
  }
}
