/**
 * The code outside the core, as the core sees it: the NestJS application and
 * its HTTP adapter, and the calls the core makes into the document generator,
 * the Scalar renderer, Express and the Swagger module. `Host` records those
 * four kinds of call in order; `app.getHttpAdapter()` and
 * `httpAdapter.getInstance()` are read as fields of `NestApp` and `HttpAdapter`.
 */
module Collaborators {
  import opened Wrappers
  import opened JsValues
  import opened OptionTypes

  /** What `httpAdapter.getInstance()` returns: an Express application, with
      whether its `use` is a function. `handle` tells instances apart. */
  datatype ExpressInstance = ExpressInstance(useIsFunction: bool, handle: nat)

  /** What `app.getHttpAdapter()` returns: whether `getInstance` is a function,
      and what calling it yields (`None` for a falsy result). */
  datatype HttpAdapter = HttpAdapter(getInstanceIsFunction: bool, instance: Option<ExpressInstance>)

  /** A NestJS application; `httpAdapter` is `None` when it has none. */
  datatype NestApp = NestApp(httpAdapter: Option<HttpAdapter>)

  /** The request handler `apiReference(config)` returns. */
  datatype Middleware = ApiReferenceHandler(config: Config)

  /** One call from the core into a collaborator. */
  datatype Call =
      /** `NestSwaggerModule.createDocument(app, DocumentBuilderConfig.build(options).build())` */
    | CreateDocument(app: NestApp, base: BaseOptions)
      /** `apiReference(config)` */
    | ApiReference(config: Config)
      /** `expressApp.use(path, middleware)` */
    | ExpressUse(instance: ExpressInstance, path: string, middleware: Middleware)
      /** `NestSwaggerModule.setup(path, app, document, options)` */
    | SwaggerModuleSetup(path: string, app: NestApp, document: Document, options: Config)
  {
    /** A call that registers a documentation route. */
    predicate IsMount() {
      ExpressUse? || SwaggerModuleSetup?
    }
  }

  /** The number of route registrations in a call log. */
  function MountCount(calls: seq<Call>): (n: nat)
    ensures n <= |calls|
    ensures n == 0 <==> forall i :: 0 <= i < |calls| ==> !calls[i].IsMount()
  {
    if calls == [] then 0
    else (if calls[0].IsMount() then 1 else 0) + MountCount(calls[1..])
  }

  /** Counting registrations distributes over concatenated logs. */
  lemma {:induction false} MountCountAppend(a: seq<Call>, b: seq<Call>)
    ensures MountCount(a + b) == MountCount(a) + MountCount(b)
  {
    if a != [] {
      assert (a + b)[1..] == a[1..] + b;
      MountCountAppend(a[1..], b);
    } else {
      assert a + b == b;
    }
  }

  /** What one operation did: how it ended and the calls it made, in order. */
  datatype Run = Run(outcome: Outcome<Error>, calls: seq<Call>)

  /** The collaborators' side of the world: every call made into them, in order. */
  class Host {
    var calls: seq<Call>

    constructor ()
      ensures calls == []
    {
      calls := [];
    }

    /** Perform a call into a collaborator. */
    method Perform(c: Call)
      modifies this
      ensures calls == old(calls) + [c]
    {
      calls := calls + [c];
    }
  }
}
