/**
 * `push` (src/useRouter.ts): resolve the route, run the before-guards (which may cancel or
 * redirect), call the handler, run the after-guards, write the page cache, do the page-stack
 * operation, and take the cache entry back if that fails. Guards, handlers, the page-stack
 * primitives and the caller's callbacks are oracles in `Env`; the page cache is the only
 * router state a push changes.
 */
module UseRouter {
  import opened Wrappers
  import opened Types
  import opened Create
  import Utils
  import Text

  /** A callback the caller passed (`success` or `fail`), by identity. */
  datatype Callback = Callback(id: nat)

  /** `RouterParams`; the empty path stands for a missing one, which the router treats alike. */
  datatype Request = Request(
    path: string,
    query: Option<Query>,
    close: Option<string>,
    success: Option<Callback>,
    fail: Option<Callback>)

  /** The first argument of `push`: a route name or a `RouterParams`. */
  datatype PushInput = ByName(name: string) | ByParams(params: Request)

  /** The second argument of `push`. */
  datatype Callbacks = Callbacks(success: Option<Callback>, fail: Option<Callback>)

  /** `{ query, closeType, meta }`, what a handler receives. */
  datatype Payload = Payload(query: Query, closeType: CloseType, meta: RouteMeta)

  /** How a handler call ends: with a value (`false` aborts the push) or an exception. */
  datatype HandlerOutcome = Returned(result: Value) | Raised(error: Value)

  /** The uni-app page-stack primitives. */
  datatype NavApi = SwitchTab | NavigateTo | RedirectTo | ReLaunch

  /** One call of a page-stack primitive with its `url`. */
  datatype NavOp = NavOp(api: NavApi, url: string)

  /** What a push does that can be observed, in order. */
  datatype Event<G, H> =
    | BeforeGuardsRan(beforeGuards: seq<G>)
    | HandlerRan(handler: H, payload: Payload)
    | AfterGuardsRan(afterGuards: seq<G>)
    | CacheSet(name: string, entry: CacheEntry)
    | CacheDeleted(deleted: string)
    | Warned
    | Navigated(op: NavOp)
    | CallbackRan(callback: Callback, argument: Value)

  /**
   * How the promise `push` returns settles. `OutOfFuel` marks a chain of redirects longer
   * than the bound the model follows.
   */
  datatype Outcome = Resolved | Rejected(error: Value) | OutOfFuel

  /** The result of a push: its outcome, what it did, and the page cache afterwards. */
  datatype Run<G, H> = Run(outcome: Outcome, trace: seq<Event<G, H>>, cache: map<string, CacheEntry>)

  /**
   * The world outside the router: the page stack `getCurrentPages()` returns, what each guard
   * and handler does with its arguments, how each page-stack call ends (`None` for `success`,
   * `Some(err)` for `fail`) and whether a callback throws.
   */
  datatype Env<!G, !H> = Env(
    pages: seq<PageInstance>,
    guard: (G, Location, Location) -> GuardResult,
    handler: (H, Payload) -> HandlerOutcome,
    navigate: NavOp -> Option<Value>,
    callback: (Callback, Value) -> Option<Value>)

  /** The errors `push` raises itself. */
  const EmptyPathError := Error("路由名称不能为空")
  const NullDataError := Error("路由参数不能为空")
  const MissingResolverError := Error("router.resolveNameByUrl is not a function")

  function NotFoundError(path: string): Value {
    Error("找不到匹配的路由配置: " + path)
  }

  function Prefixed<G, H>(t: seq<Event<G, H>>, r: Run<G, H>): Run<G, H> {
    Run(r.outcome, t + r.trace, r.cache)
  }

  // ----- where the push comes from -----

  /** The route of the page on top of the stack, when it has a non-empty one. */
  function CurrentRoute(pages: seq<PageInstance>): (route: Option<string>)
    ensures route.Some? <==> pages != [] && pages[|pages| - 1].route.Some? && pages[|pages| - 1].route.value != ""
    ensures route.Some? ==> route == pages[|pages| - 1].route
  {
    if pages == [] then None
    else
      var top := pages[|pages| - 1];
      if top.route.Some? && top.route.value != "" then top.route else None
  }

  /** What `getCurrentRouteName` yields as written: a name, or the exception it raises. */
  datatype NameLookup = Found(name: string) | Thrown(error: Value)

  /**
   * `getCurrentRouteName` as written calls `router.resolveNameByUrl`, which the router does
   * not have: it throws whenever the top page has a route.
   */
  function FromNameAsWritten(pages: seq<PageInstance>): (r: NameLookup)
    ensures r.Thrown? <==> CurrentRoute(pages).Some?
    ensures r.Found? ==> r.name == ""
  {
    if CurrentRoute(pages).Some? then Thrown(MissingResolverError) else Found("")
  }

  /** `getCurrentRouteName` as intended: the route name of the top page, or "". */
  function FromName(pages: seq<PageInstance>): (name: string)
    ensures CurrentRoute(pages).None? ==> name == ""
    ensures CurrentRoute(pages).Some? ==> name == Utils.ExtractSecondPathSegment(CurrentRoute(pages).value)
    ensures '/' !in name
  {
    var route := CurrentRoute(pages);
    if route.Some? then Utils.ExtractSecondPathSegment(route.value) else ""
  }

  /**
   * The two agree when no page has a route; otherwise the written one throws where the
   * intended one names the page.
   */
  lemma FromNameFinding(pages: seq<PageInstance>)
    ensures CurrentRoute(pages).None? ==> FromNameAsWritten(pages) == Found(FromName(pages))
    ensures CurrentRoute(pages).Some? ==> FromNameAsWritten(pages) == Thrown(MissingResolverError)
  {
  }

  /** From the page `pages/home/index` the written lookup throws; the intended one names it `home`. */
  lemma FromNameFindingExample()
    ensures var home := [PageInstance(Some("pages/home/index"), None)];
            FromNameAsWritten(home).Thrown? && FromName(home) == "home"
  {
    var home := [PageInstance(Some("pages/home/index"), None)];
    assert CurrentRoute(home) == Some("pages/home/index");
    HomePageName();
  }

  lemma HomePageName()
    ensures Utils.ExtractSecondPathSegment("pages/home/index") == "home"
  {
    Utils.ExtractOfPieces("pages", ["home"], "index");
    assert ["pages"] + ["home"] + ["index"] == ["pages", "home", "index"];
    assert Text.Join(["pages", "home", "index"], "/") == "pages/home/index";
    assert Text.Join(["home"], "_") == "home";
  }

  /** `from`: the current route's name and metadata, an empty query, and its page path. */
  function FromLocation<G, H>(st: RouterState<G, H>, pages: seq<PageInstance>): Location {
    var name := FromName(pages);
    var meta := if name != "" && name in st.routeMeta then Some(st.routeMeta[name]) else None;
    Location(name, meta, [], if meta.Some? then meta.value.url else "")
  }

  // ----- the pipeline, as a function of the state and the world -----

  /** `routeData.fail?.(error); if (!routeData.fail) throw error`. */
  function Failure<G, H>(req: Request, error: Value, env: Env<G, H>, cache: map<string, CacheEntry>): (r: Run<G, H>)
    ensures r.cache == cache
    ensures r.outcome.Resolved? <==> req.fail.Some? && env.callback(req.fail.value, error).None?
    ensures req.fail.None? ==> r.outcome == Rejected(error) && r.trace == []
    ensures req.fail.Some? ==> r.trace == [CallbackRan(req.fail.value, error)]
  {
    if req.fail.None? then Run(Rejected(error), [], cache)
    else
      var thrown := env.callback(req.fail.value, error);
      Run(if thrown.Some? then Rejected(thrown.value) else Resolved, [CallbackRan(req.fail.value, error)], cache)
  }

  /** The request a redirect re-enters with. */
  function Redirected(req: Request, target: LocationRaw): Request {
    match target
    case Named(name) => req.(path := name)
    case Located(path, query) => req.(path := path, query := if query.Some? then query else req.query)
  }

  /** `performNavigation`: the primitive each close mode uses. */
  function ApiFor(close: CloseType): (api: NavApi)
    ensures api != SwitchTab
  {
    match close
    case Default => NavigateTo
    case Current => RedirectTo
    case All => ReLaunch
  }

  /** Which page-stack call a commit makes, and with which URL. */
  function Dispatch(meta: RouteMeta, query: Query, closeType: CloseType): (op: NavOp)
    ensures op.api == SwitchTab <==> meta.isTabBar
    ensures |op.url| > 0 && op.url[0] == '/'
  {
    if meta.isTabBar then NavOp(SwitchTab, Utils.EnsureLeadingSlash(meta.url))
    else NavOp(ApiFor(closeType), Utils.BuildUrlWithQuery(meta.url, Some(query)))
  }

  /** The catch block of the navigation step: delete the entry, then report. */
  function Rollback<G, H>(cache: map<string, CacheEntry>, req: Request, error: Value, env: Env<G, H>): Run<G, H> {
    Prefixed([CacheDeleted(req.path)], Failure(req, error, env, cache - {req.path}))
  }

  /** Lines 172-189: the page-stack call on the written cache, then `success` or roll back. */
  function Settle<G, H>(written: map<string, CacheEntry>, req: Request, op: NavOp, result: Value,
                        env: Env<G, H>): Run<G, H>
  {
    var t := [Navigated(op)];
    var navError := env.navigate(op);
    if navError.Some? then Prefixed(t, Rollback(written, req, navError.value, env))
    else if req.success.None? then Run(Resolved, t, written)
    else
      var thrown := env.callback(req.success.value, result);
      var t' := t + [CallbackRan(req.success.value, result)];
      if thrown.Some? then Prefixed(t', Rollback(written, req, thrown.value, env))
      else Run(Resolved, t', written)
  }

  /** Lines 162-189: write the cache, warn about a dropped query, then settle. */
  function Commit<G, H>(cache: map<string, CacheEntry>, req: Request, meta: RouteMeta, query: Query,
                        closeType: CloseType, result: Value, env: Env<G, H>): Run<G, H>
  {
    var entry := CacheEntry(query, result);
    var t := [CacheSet(req.path, entry)] + (if meta.isTabBar && |query| > 0 then [Warned] else []);
    Prefixed(t, Settle(cache[req.path := entry], req, Dispatch(meta, query, closeType), result, env))
  }

  /** Lines 147-159 and on: the handler, the after-guards, and the commit unless aborted. */
  function Proceed<G, H>(st: RouterState<G, H>, req: Request, meta: RouteMeta, to: Location, from: Location,
                         env: Env<G, H>): Run<G, H>
  {
    var closeType := Utils.ResolveCloseType(req.close);
    var payload := Payload(to.query, closeType, meta);
    var handled := if req.path in st.handlers then env.handler(st.handlers[req.path], payload) else Returned(Undefined);
    var t := if req.path in st.handlers then [HandlerRan(st.handlers[req.path], payload)] else [];
    match handled
    case Raised(e) => Prefixed(t, Failure(req, e, env, st.pageCache))
    case Returned(result) =>
      var after := AfterChain(st.afterGuards, env.guard, to, from);
      var t' := t + [AfterGuardsRan(after.invoked)];
      if after.thrown.Some? then Prefixed(t', Failure(req, after.thrown.value, env, st.pageCache))
      else if result == Bool(false) then Run(Resolved, t', st.pageCache)
      else Prefixed(t', Commit(st.pageCache, req, meta, to.query, closeType, result, env))
  }

  /** `to`: the target route's name, metadata, query and page path. */
  function Target<G, H>(st: RouterState<G, H>, req: Request): Location
    requires req.path in st.routeMeta
  {
    var meta := st.routeMeta[req.path];
    Location(req.path, Some(meta), req.query.GetOr([]), meta.url)
  }

  /** The before-guard chain a push to a known route runs. */
  function GuardChain<G, H>(st: RouterState<G, H>, req: Request, env: Env<G, H>): Chain<G>
    requires req.path in st.routeMeta
  {
    BeforeChain(st.beforeGuards, env.guard, Target(st, req), FromLocation(st, env.pages))
  }

  /** `basicPush`, following at most `fuel` redirects. */
  function BasicPushRun<G, H>(st: RouterState<G, H>, req: Request, env: Env<G, H>, fuel: nat): Run<G, H>
    decreases fuel
  {
    if req.path == "" then Failure(req, EmptyPathError, env, st.pageCache)
    else if req.path !in st.routeMeta then Failure(req, NotFoundError(req.path), env, st.pageCache)
    else
      var chain := GuardChain(st, req, env);
      var t := [BeforeGuardsRan(chain.invoked)];
      match chain.verdict
      case Threw(e) => Prefixed(t, Failure(req, e, env, st.pageCache))
      case Cancel => Run(Resolved, t, st.pageCache)
      case Reroute(target) =>
        if target == Named("") then Run(Resolved, t, st.pageCache)
        else if fuel == 0 then Run(OutOfFuel, t, st.pageCache)
        else Prefixed(t, BasicPushRun(st, Redirected(req, target), env, fuel - 1))
      case Continue => Prefixed(t, Proceed(st, req, st.routeMeta[req.path], Target(st, req), FromLocation(st, env.pages), env))
  }

  /** A string argument stands for `{ path }`. */
  function Normalized(input: PushInput): Request {
    match input
    case ByName(name) => Request(name, None, None, None, None)
    case ByParams(params) => params
  }

  /** The callbacks of the second argument win over those of the first. */
  function WithCallbacks(req: Request, callbacks: Option<Callbacks>): Request {
    if callbacks.None? then req
    else req.(success := if callbacks.value.success.Some? then callbacks.value.success else req.success,
              fail := if callbacks.value.fail.Some? then callbacks.value.fail else req.fail)
  }

  /** `push(data, callbacks)`; `None` stands for a `null` or `undefined` first argument. */
  function PushRun<G, H>(st: RouterState<G, H>, data: Option<PushInput>, callbacks: Option<Callbacks>,
                         env: Env<G, H>, fuel: nat): Run<G, H>
  {
    if data.None? then
      var fail := if callbacks.Some? then callbacks.value.fail else None;
      if fail.None? then Run(Rejected(NullDataError), [], st.pageCache)
      else
        var thrown := env.callback(fail.value, NullDataError);
        Run(Rejected(if thrown.Some? then thrown.value else NullDataError),
            [CallbackRan(fail.value, NullDataError)], st.pageCache)
    else BasicPushRun(st, WithCallbacks(Normalized(data.value), callbacks), env, fuel)
  }

  // ----- the pipeline, step by step on a router -----

  /** The error path: call `fail` when given, otherwise reject with the error. */
  method Report<G, H>(req: Request, error: Value, env: Env<G, H>) returns (outcome: Outcome, trace: seq<Event<G, H>>)
    ensures forall cache :: Failure(req, error, env, cache) == Run(outcome, trace, cache)
  {
    if req.fail.Some? {
      trace := [CallbackRan(req.fail.value, error)];
      var thrown := env.callback(req.fail.value, error);
      outcome := if thrown.Some? then Rejected(thrown.value) else Resolved;
    } else {
      trace := [];
      outcome := Rejected(error);
    }
  }

  /** Lines 172-189 on the router's cache. */
  method SettleNavigation<G(==), H>(router: Router<G, H>, req: Request, op: NavOp, result: Value, env: Env<G, H>)
    returns (outcome: Outcome, trace: seq<Event<G, H>>)
    modifies router`pageCache
    ensures Settle(old(router.pageCache), req, op, result, env) == Run(outcome, trace, router.pageCache)
  {
    trace := [Navigated(op)];
    var error := env.navigate(op);
    if error.None? && req.success.Some? {
      trace := trace + [CallbackRan(req.success.value, result)];
      error := env.callback(req.success.value, result);
    }
    if error.Some? {
      router.DeletePageCache(req.path);
      var reported, t := Report(req, error.value, env);
      outcome, trace := reported, trace + [CacheDeleted(req.path)] + t;
    } else {
      outcome := Resolved;
    }
  }

  /** Lines 162-189 on the router's cache. */
  method CommitNavigation<G(==), H>(router: Router<G, H>, req: Request, meta: RouteMeta, query: Query,
                                    closeType: CloseType, result: Value, env: Env<G, H>)
    returns (outcome: Outcome, trace: seq<Event<G, H>>)
    modifies router`pageCache
    ensures Commit(old(router.pageCache), req, meta, query, closeType, result, env) == Run(outcome, trace, router.pageCache)
  {
    var entry := CacheEntry(query, result);
    router.SetPageCache(req.path, entry);
    trace := [CacheSet(req.path, entry)];
    var op: NavOp;
    if meta.isTabBar {
      if |query| > 0 {
        trace := trace + [Warned];
      }
      op := NavOp(SwitchTab, Utils.EnsureLeadingSlash(meta.url));
    } else {
      op := NavOp(ApiFor(closeType), Utils.BuildUrlWithQuery(meta.url, Some(query)));
    }
    assert op == Dispatch(meta, query, closeType);
    assert trace == [CacheSet(req.path, entry)] + (if meta.isTabBar && |query| > 0 then [Warned] else []);
    var settled, t := SettleNavigation(router, req, op, result, env);
    outcome, trace := settled, trace + t;
  }

  /** Lines 147-159 and on: the handler, the after-guards, then the commit. */
  method RunHandler<G(==), H>(router: Router<G, H>, req: Request, meta: RouteMeta, to: Location, from: Location,
                              env: Env<G, H>)
    returns (outcome: Outcome, trace: seq<Event<G, H>>)
    modifies router`pageCache
    ensures Proceed(old(router.State()), req, meta, to, from, env) == Run(outcome, trace, router.pageCache)
  {
    var closeType := Utils.ResolveCloseType(req.close);
    var payload := Payload(to.query, closeType, meta);
    var handler := router.GetHandler(req.path);
    var navigationResult := Undefined;
    trace := [];
    if handler.Some? {
      trace := [HandlerRan(handler.value, payload)];
      var handled := env.handler(handler.value, payload);
      if handled.Raised? {
        var reported, t := Report(req, handled.error, env);
        outcome, trace := reported, trace + t;
        return;
      }
      navigationResult := handled.result;
    }
    var after := router.RunAfterInterceptors(to, from, env.guard);
    trace := trace + [AfterGuardsRan(after.invoked)];
    if after.thrown.Some? {
      var reported, t := Report(req, after.thrown.value, env);
      outcome, trace := reported, trace + t;
      return;
    }
    if navigationResult == Bool(false) {
      outcome := Resolved;
      return;
    }
    var committed, t := CommitNavigation(router, req, meta, to.query, closeType, navigationResult, env);
    outcome, trace := committed, trace + t;
  }

  /** `basicPush` on a router, following at most `fuel` redirects. */
  method BasicPush<G(==), H>(router: Router<G, H>, req: Request, env: Env<G, H>, fuel: nat)
    returns (outcome: Outcome, trace: seq<Event<G, H>>)
    modifies router`pageCache
    ensures BasicPushRun(old(router.State()), req, env, fuel) == Run(outcome, trace, router.pageCache)
    decreases fuel
  {
    if req.path == "" {
      outcome, trace := Report(req, EmptyPathError, env);
      return;
    }
    var found := router.GetRouteMeta(req.path);
    if found.None? {
      outcome, trace := Report(req, NotFoundError(req.path), env);
      return;
    }
    var meta := found.value;
    var query := req.query.GetOr([]);
    var fromName := FromName(env.pages);
    var fromMeta := if fromName != "" then router.GetRouteMeta(fromName) else None;
    var to := Location(req.path, Some(meta), query, meta.url);
    var from := Location(fromName, fromMeta, [], if fromMeta.Some? then fromMeta.value.url else "");
    var chain := router.RunBeforeInterceptors(to, from, env.guard);
    trace := [BeforeGuardsRan(chain.invoked)];
    match chain.verdict {
      case Threw(e) =>
        var reported, t := Report(req, e, env);
        outcome, trace := reported, trace + t;
      case Cancel =>
        outcome := Resolved;
      case Reroute(target) =>
        if target == Named("") {
          outcome := Resolved;
        } else if fuel == 0 {
          outcome := OutOfFuel;
        } else {
          var redirected, t := BasicPush(router, Redirected(req, target), env, fuel - 1);
          outcome, trace := redirected, trace + t;
        }
      case Continue =>
        var proceeded, t := RunHandler(router, req, meta, to, from, env);
        outcome, trace := proceeded, trace + t;
    }
  }

  /** `push`: reject a missing argument, merge the callbacks, then `basicPush`. */
  method Push<G(==), H>(router: Router<G, H>, data: Option<PushInput>, callbacks: Option<Callbacks>,
                        env: Env<G, H>, fuel: nat)
    returns (outcome: Outcome, trace: seq<Event<G, H>>)
    modifies router`pageCache
    ensures PushRun(old(router.State()), data, callbacks, env, fuel) == Run(outcome, trace, router.pageCache)
  {
    if data.None? {
      var fail := if callbacks.Some? then callbacks.value.fail else None;
      trace := [];
      var error := NullDataError;
      if fail.Some? {
        trace := [CallbackRan(fail.value, NullDataError)];
        var thrown := env.callback(fail.value, NullDataError);
        if thrown.Some? {
          error := thrown.value;
        }
      }
      outcome := Rejected(error);
      return;
    }
    var routeData := Normalized(data.value);
    var finalRouteData := WithCallbacks(routeData, callbacks);
    outcome, trace := BasicPush(router, finalRouteData, env, fuel);
  }

  // ----- what a push does: the stages one at a time -----

  /** An empty path or an unknown route goes to the error path before any guard runs. */
  lemma BadTargetFailsFast<G, H>(st: RouterState<G, H>, req: Request, env: Env<G, H>, fuel: nat)
    requires req.path == "" || req.path !in st.routeMeta
    ensures var r := BasicPushRun(st, req, env, fuel);
            && r == Failure(req, if req.path == "" then EmptyPathError else NotFoundError(req.path), env, st.pageCache)
            && forall i :: 0 <= i < |r.trace| ==> r.trace[i].CallbackRan?
  {
  }

  /** A denial, or a redirect to the empty name, ends the push quietly after the guards. */
  lemma CancelIsSilent<G, H>(st: RouterState<G, H>, req: Request, env: Env<G, H>, fuel: nat)
    requires req.path != "" && req.path in st.routeMeta
    requires GuardChain(st, req, env).verdict in {Cancel, Reroute(Named(""))}
    ensures BasicPushRun(st, req, env, fuel) == Run(Resolved, [BeforeGuardsRan(GuardChain(st, req, env).invoked)], st.pageCache)
  {
  }

  /** A guard's exception goes to the error path; no later stage runs. */
  lemma GuardThrowFails<G, H>(st: RouterState<G, H>, req: Request, env: Env<G, H>, fuel: nat)
    requires req.path != "" && req.path in st.routeMeta
    requires GuardChain(st, req, env).verdict.Threw?
    ensures var chain := GuardChain(st, req, env);
            BasicPushRun(st, req, env, fuel)
              == Prefixed([BeforeGuardsRan(chain.invoked)], Failure(req, chain.verdict.error, env, st.pageCache))
  {
  }

  /**
   * A redirect re-enters the pipeline with the target's path; an object target's query
   * replaces the old one only when it has one; the close mode and callbacks are kept. The
   * route first asked for runs no handler.
   */
  lemma RedirectReenters<G, H>(st: RouterState<G, H>, req: Request, env: Env<G, H>, fuel: nat)
    requires req.path != "" && req.path in st.routeMeta
    requires GuardChain(st, req, env).verdict.Reroute?
    requires GuardChain(st, req, env).verdict.target != Named("")
    requires fuel > 0
    ensures var chain := GuardChain(st, req, env);
            var target := chain.verdict.target;
            var next := Redirected(req, target);
            && BasicPushRun(st, req, env, fuel) == Prefixed([BeforeGuardsRan(chain.invoked)], BasicPushRun(st, next, env, fuel - 1))
            && next.path == (if target.Named? then target.name else target.path)
            && next.query == (if target.Located? && target.query.Some? then target.query else req.query)
            && next.close == req.close && next.success == req.success && next.fail == req.fail
  {
  }

  /** The payload a handler receives. */
  function PayloadOf<G, H>(st: RouterState<G, H>, req: Request): Payload
    requires req.path in st.routeMeta
  {
    Payload(req.query.GetOr([]), Utils.ResolveCloseType(req.close), st.routeMeta[req.path])
  }

  /** What the handler stage yields: the handler's outcome, or `undefined` with no handler. */
  function Handled<G, H>(st: RouterState<G, H>, req: Request, env: Env<G, H>): HandlerOutcome
    requires req.path in st.routeMeta
  {
    if req.path in st.handlers then env.handler(st.handlers[req.path], PayloadOf(st, req)) else Returned(Undefined)
  }

  /** The after-guard run of a push that got past the handler. */
  function AfterGuards<G, H>(st: RouterState<G, H>, req: Request, env: Env<G, H>): AfterRun<G>
    requires req.path in st.routeMeta
  {
    AfterChain(st.afterGuards, env.guard, Target(st, req), FromLocation(st, env.pages))
  }

  /** A handler returning exactly `false` aborts after the after-guards: no cache write, no navigation. */
  lemma HandlerFalseAborts<G, H>(st: RouterState<G, H>, req: Request, env: Env<G, H>, fuel: nat)
    requires req.path != "" && req.path in st.routeMeta
    requires GuardChain(st, req, env).verdict == Continue
    requires Handled(st, req, env) == Returned(Bool(false))
    requires AfterGuards(st, req, env).thrown.None?
    ensures var r := BasicPushRun(st, req, env, fuel);
            && r.outcome == Resolved && r.cache == st.pageCache
            && |r.trace| >= 2 && r.trace[|r.trace| - 1] == AfterGuardsRan(AfterGuards(st, req, env).invoked)
            && Effects(r.trace) == []
  {
    var r := BasicPushRun(st, req, env, fuel);
    var t := [BeforeGuardsRan(GuardChain(st, req, env).invoked)];
    var h := if req.path in st.handlers then [HandlerRan(st.handlers[req.path], PayloadOf(st, req))] else [];
    var a := [AfterGuardsRan(AfterGuards(st, req, env).invoked)];
    assert r.trace == t + (h + a);
    EffectsAppend(t, h + a);
    EffectsAppend(h, a);
  }

  /**
   * With every stage passing, the entry `{ query, handlerResult }` is in the cache when the
   * push resolves; `success`, if given, received the handler's result.
   */
  lemma CommitKeepsEntry<G, H>(st: RouterState<G, H>, req: Request, env: Env<G, H>, fuel: nat)
    requires req.path != "" && req.path in st.routeMeta
    requires GuardChain(st, req, env).verdict == Continue
    requires Handled(st, req, env).Returned? && Handled(st, req, env).result != Bool(false)
    requires AfterGuards(st, req, env).thrown.None?
    requires env.navigate(Dispatch(st.routeMeta[req.path], req.query.GetOr([]), Utils.ResolveCloseType(req.close))).None?
    requires req.success.Some? ==> env.callback(req.success.value, Handled(st, req, env).result).None?
    ensures var r := BasicPushRun(st, req, env, fuel);
            var result := Handled(st, req, env).result;
            && r.outcome == Resolved
            && r.cache == st.pageCache[req.path := CacheEntry(req.query.GetOr([]), result)]
            && (req.success.Some? ==> r.trace[|r.trace| - 1] == CallbackRan(req.success.value, result))
  {
  }

  /**
   * When the page-stack call fails, the entry for the target is gone afterwards (even one
   * written by an earlier push) and the error goes to the error path.
   */
  lemma RollbackOnNavigationError<G, H>(st: RouterState<G, H>, req: Request, env: Env<G, H>, fuel: nat)
    requires req.path != "" && req.path in st.routeMeta
    requires GuardChain(st, req, env).verdict == Continue
    requires Handled(st, req, env).Returned? && Handled(st, req, env).result != Bool(false)
    requires AfterGuards(st, req, env).thrown.None?
    requires env.navigate(Dispatch(st.routeMeta[req.path], req.query.GetOr([]), Utils.ResolveCloseType(req.close))).Some?
    ensures var r := BasicPushRun(st, req, env, fuel);
            var error := env.navigate(Dispatch(st.routeMeta[req.path], req.query.GetOr([]), Utils.ResolveCloseType(req.close))).value;
            && r.cache == st.pageCache - {req.path}
            && r.outcome == Failure(req, error, env, map[]).outcome
  {
    var meta := st.routeMeta[req.path];
    var query := req.query.GetOr([]);
    var written := st.pageCache[req.path := CacheEntry(query, Handled(st, req, env).result)];
    assert written - {req.path} == st.pageCache - {req.path};
  }

  /**
   * The page-stack call: `switchTab` to the page path with a leading slash for a tab-bar
   * route, whatever the query and close mode; otherwise the URL with its query string and
   * the primitive of the close mode.
   */
  lemma DispatchTable(meta: RouteMeta, query: Query, closeType: CloseType)
    ensures meta.isTabBar ==> Dispatch(meta, query, closeType) == NavOp(SwitchTab, Utils.EnsureLeadingSlash(meta.url))
    ensures !meta.isTabBar ==> Dispatch(meta, query, closeType).url == Utils.BuildUrlWithQuery(meta.url, Some(query))
    ensures !meta.isTabBar ==> (Dispatch(meta, query, closeType).api == NavigateTo <==> closeType == Default)
    ensures !meta.isTabBar ==> (Dispatch(meta, query, closeType).api == RedirectTo <==> closeType == Current)
    ensures !meta.isTabBar ==> (Dispatch(meta, query, closeType).api == ReLaunch <==> closeType == All)
  {
  }

  // ----- what a push does to the cache and the page stack, over all redirects -----

  /** The events that touch the page cache or the page stack, in order. */
  function Effects<G, H>(trace: seq<Event<G, H>>): (fx: seq<Event<G, H>>)
    ensures |fx| <= |trace|
    ensures forall i :: 0 <= i < |fx| ==> fx[i].CacheSet? || fx[i].CacheDeleted? || fx[i].Navigated?
  {
    if trace == [] then []
    else (if trace[0].CacheSet? || trace[0].CacheDeleted? || trace[0].Navigated? then [trace[0]] else [])
         + Effects(trace[1..])
  }

  lemma {:induction false} EffectsAppend<G, H>(a: seq<Event<G, H>>, b: seq<Event<G, H>>)
    ensures Effects(a + b) == Effects(a) + Effects(b)
  {
    if a == [] {
      assert a + b == b;
    } else {
      assert (a + b)[0] == a[0];
      assert (a + b)[1..] == a[1..] + b;
      EffectsAppend(a[1..], b);
    }
  }

  /**
   * A push is a small transaction on the cache: either it leaves the cache and the page
   * stack alone, or it writes one entry for a known route, then makes one page-stack call,
   * and then either keeps the entry (and resolves) or deletes that name again.
   */
  predicate Disciplined<G, H>(before: map<string, CacheEntry>, routes: map<string, RouteMeta>, r: Run<G, H>) {
    var fx := Effects(r.trace);
    || (fx == [] && r.cache == before)
    || (|fx| == 2 && fx[0].CacheSet? && fx[0].name in routes && fx[1].Navigated?
        && r.cache == before[fx[0].name := fx[0].entry] && r.outcome == Resolved)
    || (|fx| == 3 && fx[0].CacheSet? && fx[0].name in routes && fx[1].Navigated?
        && fx[2] == CacheDeleted(fx[0].name) && r.cache == before - {fx[0].name})
  }

  lemma FailureQuiet<G, H>(req: Request, error: Value, env: Env<G, H>, cache: map<string, CacheEntry>)
    ensures Effects(Failure(req, error, env, cache).trace) == []
  {
    var t := Failure(req, error, env, cache).trace;
    if t != [] {
      assert t[1..] == [];
    }
  }

  lemma {:induction false} QuietPrefix<G, H>(t: seq<Event<G, H>>, before: map<string, CacheEntry>,
                                            routes: map<string, RouteMeta>, r: Run<G, H>)
    requires Effects(t) == []
    requires Disciplined(before, routes, r)
    ensures Disciplined(before, routes, Prefixed(t, r))
  {
    EffectsAppend(t, r.trace);
  }

  lemma SettleShape<G, H>(written: map<string, CacheEntry>, req: Request, op: NavOp, result: Value, env: Env<G, H>)
    ensures var r := Settle(written, req, op, result, env);
            || (Effects(r.trace) == [Navigated(op)] && r.cache == written && r.outcome == Resolved)
            || (Effects(r.trace) == [Navigated(op), CacheDeleted(req.path)] && r.cache == written - {req.path})
  {
    var r := Settle(written, req, op, result, env);
    var nav: seq<Event<G, H>> := [Navigated(op)];
    if env.navigate(op).Some? {
      var fail := Failure(req, env.navigate(op).value, env, written - {req.path});
      FailureQuiet(req, env.navigate(op).value, env, written - {req.path});
      assert r.trace == nav + ([CacheDeleted(req.path)] + fail.trace);
      EffectsAppend(nav, [CacheDeleted(req.path)] + fail.trace);
      EffectsAppend([CacheDeleted(req.path)], fail.trace);
    } else if req.success.Some? {
      var thrown := env.callback(req.success.value, result);
      var called: seq<Event<G, H>> := [CallbackRan(req.success.value, result)];
      EffectsAppend(nav, called);
      if thrown.Some? {
        var failed := Failure(req, thrown.value, env, written - {req.path});
        FailureQuiet(req, thrown.value, env, written - {req.path});
        assert r.trace == (nav + called) + ([CacheDeleted(req.path)] + failed.trace);
        EffectsAppend(nav + called, [CacheDeleted(req.path)] + failed.trace);
        EffectsAppend([CacheDeleted(req.path)], failed.trace);
      }
    }
  }

  lemma CommitShape<G, H>(cache: map<string, CacheEntry>, req: Request, meta: RouteMeta, query: Query,
                          closeType: CloseType, result: Value, env: Env<G, H>, routes: map<string, RouteMeta>)
    requires req.path in routes
    ensures Disciplined(cache, routes, Commit(cache, req, meta, query, closeType, result, env))
  {
    var entry := CacheEntry(query, result);
    var written := cache[req.path := entry];
    var warn: seq<Event<G, H>> := if meta.isTabBar && |query| > 0 then [Warned] else [];
    var head := [CacheSet(req.path, entry)] + warn;
    var settled := Settle(written, req, Dispatch(meta, query, closeType), result, env);
    assert Commit(cache, req, meta, query, closeType, result, env) == Prefixed(head, settled);
    HeadEffects(req.path, entry, warn);
    SettleShape(written, req, Dispatch(meta, query, closeType), result, env);
    EffectsAppend(head, settled.trace);
    assert written - {req.path} == cache - {req.path};
  }

  lemma HeadEffects<G, H>(name: string, entry: CacheEntry, warn: seq<Event<G, H>>)
    requires warn == [] || warn == [Warned]
    ensures Effects([CacheSet(name, entry)] + warn) == [CacheSet(name, entry)]
  {
    EffectsAppend([CacheSet(name, entry)], warn);
    if warn != [] {
      assert warn[1..] == [];
    }
  }

  lemma ProceedShape<G, H>(st: RouterState<G, H>, req: Request, meta: RouteMeta, to: Location, from: Location,
                           env: Env<G, H>)
    requires req.path in st.routeMeta
    ensures Disciplined(st.pageCache, st.routeMeta, Proceed(st, req, meta, to, from, env))
  {
    var closeType := Utils.ResolveCloseType(req.close);
    var payload := Payload(to.query, closeType, meta);
    var handled := if req.path in st.handlers then env.handler(st.handlers[req.path], payload) else Returned(Undefined);
    var t: seq<Event<G, H>> := if req.path in st.handlers then [HandlerRan(st.handlers[req.path], payload)] else [];
    assert Effects(t) == [];
    match handled
    case Raised(e) =>
      FailureQuiet(req, e, env, st.pageCache);
      QuietPrefix(t, st.pageCache, st.routeMeta, Failure(req, e, env, st.pageCache));
    case Returned(result) =>
      var after := AfterChain(st.afterGuards, env.guard, to, from);
      var t' := t + [AfterGuardsRan(after.invoked)];
      EffectsAppend(t, [AfterGuardsRan(after.invoked)]);
      if after.thrown.Some? {
        FailureQuiet(req, after.thrown.value, env, st.pageCache);
        QuietPrefix(t', st.pageCache, st.routeMeta, Failure(req, after.thrown.value, env, st.pageCache));
      } else if result != Bool(false) {
        CommitShape(st.pageCache, req, meta, to.query, closeType, result, env, st.routeMeta);
        QuietPrefix(t', st.pageCache, st.routeMeta, Commit(st.pageCache, req, meta, to.query, closeType, result, env));
      }
  }

  /**
   * Over any chain of redirects, a push is disciplined: the cache changes at most at one
   * route name, written right before the one page-stack call, and a failed call or a
   * throwing `success` takes that name out again.
   */
  lemma {:induction false} BasicPushDisciplined<G, H>(st: RouterState<G, H>, req: Request, env: Env<G, H>, fuel: nat)
    ensures Disciplined(st.pageCache, st.routeMeta, BasicPushRun(st, req, env, fuel))
    decreases fuel
  {
    if req.path == "" {
      FailureQuiet(req, EmptyPathError, env, st.pageCache);
    } else if req.path !in st.routeMeta {
      FailureQuiet(req, NotFoundError(req.path), env, st.pageCache);
    } else {
      var chain := GuardChain(st, req, env);
      var t: seq<Event<G, H>> := [BeforeGuardsRan(chain.invoked)];
      assert Effects(t) == [];
      match chain.verdict
      case Threw(e) =>
        FailureQuiet(req, e, env, st.pageCache);
        QuietPrefix(t, st.pageCache, st.routeMeta, Failure(req, e, env, st.pageCache));
      case Cancel =>
      case Reroute(target) =>
        if target != Named("") && fuel > 0 {
          BasicPushDisciplined(st, Redirected(req, target), env, fuel - 1);
          QuietPrefix(t, st.pageCache, st.routeMeta, BasicPushRun(st, Redirected(req, target), env, fuel - 1));
        }
      case Continue =>
        var meta := st.routeMeta[req.path];
        ProceedShape(st, req, meta, Target(st, req), FromLocation(st, env.pages), env);
        QuietPrefix(t, st.pageCache, st.routeMeta, Proceed(st, req, meta, Target(st, req), FromLocation(st, env.pages), env));
    }
  }

  /** More fuel changes nothing once the redirects were followed to the end. */
  lemma {:induction false} FuelMonotone<G, H>(st: RouterState<G, H>, req: Request, env: Env<G, H>, fuel: nat, more: nat)
    requires fuel <= more
    requires BasicPushRun(st, req, env, fuel).outcome != OutOfFuel
    ensures BasicPushRun(st, req, env, more) == BasicPushRun(st, req, env, fuel)
    decreases fuel
  {
    if req.path != "" && req.path in st.routeMeta {
      var chain := GuardChain(st, req, env);
      if chain.verdict.Reroute? && chain.verdict.target != Named("") {
        FuelMonotone(st, Redirected(req, chain.verdict.target), env, fuel - 1, more - 1);
      }
    }
  }

  // ----- the `push` wrapper -----

  /** A missing argument calls `fail` when given and always rejects; nothing else happens. */
  lemma MissingDataRejects<G, H>(st: RouterState<G, H>, callbacks: Option<Callbacks>, env: Env<G, H>, fuel: nat)
    ensures var r := PushRun(st, None, callbacks, env, fuel);
            && r.outcome.Rejected? && r.cache == st.pageCache
            && (callbacks.Some? && callbacks.value.fail.Some? ==> r.trace == [CallbackRan(callbacks.value.fail.value, NullDataError)])
            && (callbacks.None? || callbacks.value.fail.None? ==> r == Run(Rejected(NullDataError), [], st.pageCache))
  {
  }

  /** The callbacks of the second argument override those of the first; the rest is `basicPush`. */
  lemma CallbacksOverride<G, H>(st: RouterState<G, H>, input: PushInput, callbacks: Callbacks, env: Env<G, H>, fuel: nat)
    ensures var req := Normalized(input);
            var merged := req.(success := if callbacks.success.Some? then callbacks.success else req.success,
                               fail := if callbacks.fail.Some? then callbacks.fail else req.fail);
            PushRun(st, Some(input), Some(callbacks), env, fuel) == BasicPushRun(st, merged, env, fuel)
    ensures PushRun(st, Some(input), None, env, fuel) == BasicPushRun(st, Normalized(input), env, fuel)
    ensures input.ByName? ==> Normalized(input) == Request(input.name, None, None, None, None)
  {
  }

  /** `push` inherits the transaction discipline of `basicPush`. */
  lemma PushDisciplined<G, H>(st: RouterState<G, H>, data: Option<PushInput>, callbacks: Option<Callbacks>,
                              env: Env<G, H>, fuel: nat)
    ensures Disciplined(st.pageCache, st.routeMeta, PushRun(st, data, callbacks, env, fuel))
  {
    if data.Some? {
      BasicPushDisciplined(st, WithCallbacks(Normalized(data.value), callbacks), env, fuel);
    } else {
      var r := PushRun(st, data, callbacks, env, fuel);
      if r.trace != [] {
        assert r.trace[1..] == [];
      }
    }
  }
}
