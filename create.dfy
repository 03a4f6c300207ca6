/**
 * The router's state and its core operations (src/create.ts): handlers, the two ordered
 * guard lists, route metadata and the page cache, with the before-guard decision rule.
 */
module Create {
  import opened Wrappers
  import opened Types
  import Utils

  /** `RouteLocationRaw`: a route name, or `{ path, query? }`. */
  datatype LocationRaw = Named(name: string) | Located(path: string, query: Option<Query>)

  /**
   * What a guard call produces, as the chain runner tells it apart: `false`, an object with
   * `path` or a string, anything else, or an exception.
   */
  datatype GuardResult = Allow | Deny | Redirect(target: LocationRaw) | Throw(error: Value)

  /** `RouteLocationNormalized`: the `to` and `from` handed to every guard. */
  datatype Location = Location(name: string, meta: Option<RouteMeta>, query: Query, path: string)

  /** `{ shouldContinue, redirectTo? }`, or the exception a guard raised. */
  datatype Verdict = Continue | Cancel | Reroute(target: LocationRaw) | Threw(error: Value)

  /** The verdict of a before-guard chain together with the guards it called, in order. */
  datatype Chain<G> = Chain(verdict: Verdict, invoked: seq<G>)

  /** The outcome of the after-guard chain: the exception that ended it, if any, and the guards called. */
  datatype AfterRun<G> = AfterRun(thrown: Option<Value>, invoked: seq<G>)

  /** `{ query, handlerResult }` as the page cache stores it. */
  datatype CacheEntry = CacheEntry(query: Query, handlerResult: Value)

  /** The function a registration returns; `Dispose` runs it. */
  datatype Disposer<G> =
    | DropHandler(handlerName: string)
    | DropBeforeGuard(guard: G)
    | DropAfterGuard(guard: G)
    | DropRoute(routeName: string)

  /** The whole state of a router, as a value. */
  datatype RouterState<G, H> = RouterState(
    handlers: map<string, H>,
    beforeGuards: seq<G>,
    afterGuards: seq<G>,
    routeMeta: map<string, RouteMeta>,
    pageCache: map<string, CacheEntry>)

  /** Whether a guard's result stops the chain, and with which verdict. */
  function Stop(r: GuardResult): (v: Option<Verdict>)
    ensures v.None? <==> r.Allow?
    ensures v.Some? ==> !v.value.Continue?
  {
    match r
    case Allow => None
    case Deny => Some(Cancel)
    case Redirect(t) => Some(Reroute(t))
    case Throw(e) => Some(Threw(e))
  }

  /** `runInterceptors`: call the guards in order until one stops the chain. */
  function BeforeChain<G>(guards: seq<G>, invoke: (G, Location, Location) -> GuardResult,
                          to: Location, from: Location): (c: Chain<G>)
    ensures |c.invoked| <= |guards|
    ensures c.verdict.Continue? ==> c.invoked == guards
  {
    if guards == [] then Chain(Continue, [])
    else match Stop(invoke(guards[0], to, from))
      case Some(v) => Chain(v, [guards[0]])
      case None =>
        var rest := BeforeChain(guards[1..], invoke, to, from);
        Chain(rest.verdict, [guards[0]] + rest.invoked)
  }

  /**
   * The decision rule: the guards called are a prefix of the list; all but a stopping last
   * one allowed; the chain continues iff every guard allowed, and otherwise the verdict is
   * the one the first non-allowing guard gave. No guard after it is called.
   */
  lemma {:induction false} BeforeChainStopsAtFirst<G>(guards: seq<G>, invoke: (G, Location, Location) -> GuardResult,
                                                     to: Location, from: Location)
    ensures var c := BeforeChain(guards, invoke, to, from);
            && |c.invoked| <= |guards| && c.invoked == guards[..|c.invoked|]
            && (c.verdict.Continue? <==> (forall i :: 0 <= i < |guards| ==> invoke(guards[i], to, from).Allow?))
            && (c.verdict.Continue? ==> c.invoked == guards)
            && (forall i :: 0 <= i < |c.invoked| - 1 ==> invoke(guards[i], to, from).Allow?)
            && (!c.verdict.Continue? ==>
                  |c.invoked| >= 1 && Stop(invoke(guards[|c.invoked| - 1], to, from)) == Some(c.verdict))
  {
    if guards != [] {
      var r := invoke(guards[0], to, from);
      if r.Allow? {
        BeforeChainStopsAtFirst(guards[1..], invoke, to, from);
        var rest := BeforeChain(guards[1..], invoke, to, from);
        assert guards == [guards[0]] + guards[1..];
        assert forall i :: 1 <= i < |guards| ==> guards[i] == guards[1..][i - 1];
      }
    }
  }

  /** `runAfterInterceptors`: call every guard in order; an exception ends the run. */
  function AfterChain<G>(guards: seq<G>, invoke: (G, Location, Location) -> GuardResult,
                         to: Location, from: Location): (r: AfterRun<G>)
    ensures |r.invoked| <= |guards|
    ensures r.thrown.None? ==> r.invoked == guards
  {
    if guards == [] then AfterRun(None, [])
    else match invoke(guards[0], to, from)
      case Throw(e) => AfterRun(Some(e), [guards[0]])
      case _ =>
        var rest := AfterChain(guards[1..], invoke, to, from);
        AfterRun(rest.thrown, [guards[0]] + rest.invoked)
  }

  /**
   * Every after-guard is called, in order, whatever it returns; only an exception stops the
   * run, and then it is the exception of the last guard called.
   */
  lemma {:induction false} AfterChainCallsAll<G>(guards: seq<G>, invoke: (G, Location, Location) -> GuardResult,
                                                to: Location, from: Location)
    ensures var r := AfterChain(guards, invoke, to, from);
            && |r.invoked| <= |guards| && r.invoked == guards[..|r.invoked|]
            && (r.thrown.None? <==> (forall i :: 0 <= i < |guards| ==> !invoke(guards[i], to, from).Throw?))
            && (r.thrown.None? ==> r.invoked == guards)
            && (forall i :: 0 <= i < |r.invoked| - 1 ==> !invoke(guards[i], to, from).Throw?)
            && (r.thrown.Some? ==>
                  |r.invoked| >= 1 && invoke(guards[|r.invoked| - 1], to, from) == Throw(r.thrown.value))
  {
    if guards != [] && !invoke(guards[0], to, from).Throw? {
      AfterChainCallsAll(guards[1..], invoke, to, from);
      assert guards == [guards[0]] + guards[1..];
      assert forall i :: 1 <= i < |guards| ==> guards[i] == guards[1..][i - 1];
    }
  }

  /** `indexOf`: the first position of `x`, or -1. */
  function IndexOf<G(==)>(s: seq<G>, x: G): (i: int)
    ensures -1 <= i < |s|
    ensures i >= 0 ==> s[i] == x && x !in s[..i]
    ensures i == -1 <==> x !in s
  {
    if s == [] then -1
    else if s[0] == x then 0
    else
      var j := IndexOf(s[1..], x);
      assert j >= 0 ==> s[1..][..j] == s[1..j + 1];
      if j < 0 then -1 else j + 1
  }

  /** `const i = indexOf(x); if (i >= 0) splice(i, 1)`. */
  function RemoveFirst<G(==)>(s: seq<G>, x: G): (r: seq<G>)
    ensures x !in s ==> r == s
    ensures x in s ==> |r| == |s| - 1
  {
    var i := IndexOf(s, x);
    if i >= 0 then s[..i] + s[i + 1..] else s
  }

  /**
   * A guard disposer removes one occurrence, the first, and keeps the others in order;
   * with none left it changes nothing.
   */
  lemma RemoveFirstSpec<G>(s: seq<G>, x: G)
    ensures x in s ==> multiset(RemoveFirst(s, x)) == multiset(s) - multiset{x}
    ensures x in s ==>
              exists i :: 0 <= i < |s| && s[i] == x && x !in s[..i] && RemoveFirst(s, x) == s[..i] + s[i + 1..]
  {
    if x in s {
      var i := IndexOf(s, x);
      assert s == s[..i] + [s[i]] + s[i + 1..];
      calc {
        multiset(s);
        multiset(s[..i]) + multiset{x} + multiset(s[i + 1..]);
      }
    }
  }

  /** For a guard registered once, a second call of its disposer changes nothing. */
  lemma DisposeTwiceIsHarmless<G>(s: seq<G>, x: G)
    requires multiset(s)[x] <= 1
    ensures RemoveFirst(RemoveFirst(s, x), x) == RemoveFirst(s, x)
  {
    RemoveFirstSpec(s, x);
    if x in s {
      var r := RemoveFirst(s, x);
      assert multiset(r)[x] == 0;
      assert x !in r;
    }
  }

  /** The state `createRouter` sets up: the manifest's routes under the default naming, nothing else. */
  function InitialState<G, H>(routes: Option<PagesConfig>): RouterState<G, H> {
    RouterState(map[], [], [],
      if routes.Some? then Utils.RoutesFromManifest(routes.value, Utils.DefaultNaming) else map[],
      map[])
  }

  /** The closure state of `createRouter` and the methods of `routerImpl`. */
  class Router<G(==), H> {
    var handlers: map<string, H>
    var beforeGuards: seq<G>
    var afterGuards: seq<G>
    var routeMeta: map<string, RouteMeta>
    var pageCache: map<string, CacheEntry>

    function State(): RouterState<G, H>
      reads this
    {
      RouterState(handlers, beforeGuards, afterGuards, routeMeta, pageCache)
    }

    /** `createRouter(routes?)`. */
    constructor (routes: Option<PagesConfig>)
      ensures State() == InitialState(routes)
    {
      var initial: map<string, RouteMeta> := map[];
      if routes.Some? {
        initial := Utils.ParseRoutesFromPagesJson(routes.value, Utils.DefaultNaming);
      }
      handlers := map[];
      beforeGuards := [];
      afterGuards := [];
      routeMeta := initial;
      pageCache := map[];
    }

    /** `has`. */
    predicate Has(name: string)
      reads this
    {
      name in handlers
    }

    /** `getHandler`. */
    function GetHandler(name: string): (h: Option<H>)
      reads this
      ensures h.Some? <==> Has(name)
    {
      if name in handlers then Some(handlers[name]) else None
    }

    /** `register`: the handler is found under its name; the disposer deletes that name. */
    method Register(name: string, handler: H) returns (dispose: Disposer<G>)
      modifies this`handlers
      ensures handlers == old(handlers)[name := handler]
      ensures Has(name) && GetHandler(name) == Some(handler)
      ensures dispose == DropHandler(name)
    {
      handlers := handlers[name := handler];
      dispose := DropHandler(name);
    }

    /** `unregister`: true iff a handler was there; afterwards none is, and other names keep theirs. */
    method Unregister(name: string) returns (removed: bool)
      modifies this`handlers
      ensures removed == old(Has(name))
      ensures !Has(name)
      ensures handlers == old(handlers) - {name}
    {
      removed := name in handlers;
      handlers := handlers - {name};
    }

    /** `beforeEach`: the guard goes to the end of the before list only. */
    method BeforeEach(guard: G) returns (dispose: Disposer<G>)
      modifies this`beforeGuards
      ensures beforeGuards == old(beforeGuards) + [guard]
      ensures dispose == DropBeforeGuard(guard)
    {
      beforeGuards := beforeGuards + [guard];
      dispose := DropBeforeGuard(guard);
    }

    /** `afterEach`: the guard goes to the end of the after list only. */
    method AfterEach(guard: G) returns (dispose: Disposer<G>)
      modifies this`afterGuards
      ensures afterGuards == old(afterGuards) + [guard]
      ensures dispose == DropAfterGuard(guard)
    {
      afterGuards := afterGuards + [guard];
      dispose := DropAfterGuard(guard);
    }

    /** `defineRoute`: the metadata is found under its name; the disposer deletes that name. */
    method DefineRoute(name: string, meta: RouteMeta) returns (dispose: Disposer<G>)
      modifies this`routeMeta
      ensures routeMeta == old(routeMeta)[name := meta]
      ensures GetRouteMeta(name) == Some(meta)
      ensures dispose == DropRoute(name)
    {
      routeMeta := routeMeta[name := meta];
      dispose := DropRoute(name);
    }

    /** `getRouteMeta`. */
    function GetRouteMeta(name: string): (meta: Option<RouteMeta>)
      reads this
      ensures meta.Some? <==> name in routeMeta
    {
      if name in routeMeta then Some(routeMeta[name]) else None
    }

    /** `listRouteMeta`: a snapshot; later changes to the router do not reach it. */
    method ListRouteMeta() returns (snapshot: map<string, RouteMeta>)
      ensures snapshot == routeMeta
      ensures forall n :: n in snapshot ==> GetRouteMeta(n) == Some(snapshot[n])
    {
      snapshot := routeMeta;
    }

    /**
     * Running a disposer: a handler or route disposer deletes its name, whatever is
     * registered under it now; a guard disposer removes the first occurrence of its guard.
     */
    method Dispose(dispose: Disposer<G>)
      modifies this`handlers, this`beforeGuards, this`afterGuards, this`routeMeta
      ensures dispose.DropHandler? ==> handlers == old(handlers) - {dispose.handlerName} && !Has(dispose.handlerName)
      ensures !dispose.DropHandler? ==> handlers == old(handlers)
      ensures beforeGuards == if dispose.DropBeforeGuard? then RemoveFirst(old(beforeGuards), dispose.guard)
                              else old(beforeGuards)
      ensures afterGuards == if dispose.DropAfterGuard? then RemoveFirst(old(afterGuards), dispose.guard)
                             else old(afterGuards)
      ensures routeMeta == if dispose.DropRoute? then old(routeMeta) - {dispose.routeName} else old(routeMeta)
    {
      match dispose
      case DropHandler(name) =>
        handlers := handlers - {name};
      case DropBeforeGuard(guard) =>
        beforeGuards := RemoveFirst(beforeGuards, guard);
      case DropAfterGuard(guard) =>
        afterGuards := RemoveFirst(afterGuards, guard);
      case DropRoute(name) =>
        routeMeta := routeMeta - {name};
    }

    /** `runBeforeInterceptors`: the loop with early return over the before list. */
    method RunBeforeInterceptors(to: Location, from: Location, invoke: (G, Location, Location) -> GuardResult)
      returns (chain: Chain<G>)
      ensures chain == BeforeChain(beforeGuards, invoke, to, from)
    {
      var bucket := beforeGuards;
      var i := 0;
      while i < |bucket|
        invariant 0 <= i <= |bucket|
        invariant forall k :: 0 <= k < i ==> invoke(bucket[k], to, from).Allow?
        invariant var rest := BeforeChain(bucket[i..], invoke, to, from);
                  BeforeChain(bucket, invoke, to, from) == Chain(rest.verdict, bucket[..i] + rest.invoked)
      {
        var result := invoke(bucket[i], to, from);
        assert bucket[i..][1..] == bucket[i + 1..];
        if result.Deny? {
          assert bucket[..i] + [bucket[i]] == bucket[..i + 1];
          return Chain(Cancel, bucket[..i + 1]);
        }
        if result.Redirect? {
          assert bucket[..i] + [bucket[i]] == bucket[..i + 1];
          return Chain(Reroute(result.target), bucket[..i + 1]);
        }
        if result.Throw? {
          assert bucket[..i] + [bucket[i]] == bucket[..i + 1];
          return Chain(Threw(result.error), bucket[..i + 1]);
        }
        assert bucket[..i] + ([bucket[i]] + BeforeChain(bucket[i + 1..], invoke, to, from).invoked)
            == bucket[..i + 1] + BeforeChain(bucket[i + 1..], invoke, to, from).invoked;
        i := i + 1;
      }
      assert bucket[..i] == bucket;
      return Chain(Continue, bucket);
    }

    /** `runAfterInterceptors`: every after guard in order; an exception propagates. */
    method RunAfterInterceptors(to: Location, from: Location, invoke: (G, Location, Location) -> GuardResult)
      returns (run: AfterRun<G>)
      ensures run == AfterChain(afterGuards, invoke, to, from)
    {
      var bucket := afterGuards;
      var i := 0;
      while i < |bucket|
        invariant 0 <= i <= |bucket|
        invariant var rest := AfterChain(bucket[i..], invoke, to, from);
                  AfterChain(bucket, invoke, to, from) == AfterRun(rest.thrown, bucket[..i] + rest.invoked)
      {
        var result := invoke(bucket[i], to, from);
        assert bucket[i..][1..] == bucket[i + 1..];
        if result.Throw? {
          assert bucket[..i] + [bucket[i]] == bucket[..i + 1];
          return AfterRun(Some(result.error), bucket[..i + 1]);
        }
        assert bucket[..i] + ([bucket[i]] + AfterChain(bucket[i + 1..], invoke, to, from).invoked)
            == bucket[..i + 1] + AfterChain(bucket[i + 1..], invoke, to, from).invoked;
        i := i + 1;
      }
      assert bucket[..i] == bucket;
      return AfterRun(None, bucket);
    }

    /** `setPageCache`: the entry is found under its name; other names keep theirs. */
    method SetPageCache(name: string, entry: CacheEntry)
      modifies this`pageCache
      ensures pageCache == old(pageCache)[name := entry]
      ensures GetPageCache(name) == Some(entry)
      ensures forall n :: n != name ==> GetPageCache(n) == old(GetPageCache(n))
    {
      pageCache := pageCache[name := entry];
    }

    /** `getPageCache`. */
    function GetPageCache(name: string): (entry: Option<CacheEntry>)
      reads this
      ensures entry.Some? <==> name in pageCache
    {
      if name in pageCache then Some(pageCache[name]) else None
    }

    /** `deletePageCache`: only that name loses its entry. */
    method DeletePageCache(name: string)
      modifies this`pageCache
      ensures pageCache == old(pageCache) - {name}
      ensures GetPageCache(name) == None
      ensures forall n :: n != name ==> GetPageCache(n) == old(GetPageCache(n))
    {
      pageCache := pageCache - {name};
    }
  }
}
