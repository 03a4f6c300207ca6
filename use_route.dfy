/**
 * `useRoute` (src/useRoute.ts): what the page on top of the stack learns about its route:
 * the name read off its route path, the route's metadata, the query merged from the page
 * cache and the page's own options, and the handler's result.
 */
module UseRoute {
  import opened Wrappers
  import opened Types
  import opened Create
  import Utils
  import UseRouter

  /** `RouteInfo`. */
  datatype RouteInfo = RouteInfo(name: string, meta: Option<RouteMeta>, query: Query, handlerResult: Value)

  /** What `createRouteHook` returns, and whether it warned that there was no route. */
  datatype Hook = Hook(info: RouteInfo, warned: bool)

  /** `obj[k] = v` on a record: an existing key keeps its place, a new one goes last. */
  function Put(q: Query, k: string, v: Value): (r: Query)
    ensures k in Keys(q) ==> |r| == |q| && forall i :: 0 <= i < |q| ==> r[i].0 == q[i].0
    ensures k !in Keys(q) ==> r == q + [(k, v)]
  {
    if k in Keys(q) then seq(|q|, i requires 0 <= i < |q| => if q[i].0 == k then (k, v) else q[i])
    else q + [(k, v)]
  }

  /** After `Put`, the key reads back the new value and every other key its old one. */
  lemma PutGet(q: Query, k: string, v: Value, key: string)
    ensures Get(Put(q, k, v), key) == if key == k then Some(v) else Get(q, key)
    ensures Keys(Put(q, k, v)) == Keys(q) + {k}
  {
    var r := Put(q, k, v);
    if k in Keys(q) {
      PutGetInPlace(q, k, v, key);
    } else {
      assert r[..|r| - 1] == q;
      assert Keys(r) == Keys(q) + {k} by {
        forall x | x in Keys(r) ensures x in Keys(q) + {k} {
          var i :| 0 <= i < |r| && r[i].0 == x;
          if i < |q| {
            assert q[i].0 == x;
          }
        }
        forall x | x in Keys(q) ensures x in Keys(r) {
          var i :| 0 <= i < |q| && q[i].0 == x;
          assert r[i].0 == x;
        }
        assert r[|q|].0 == k;
      }
    }
  }

  lemma {:induction false} PutGetInPlace(q: Query, k: string, v: Value, key: string)
    requires k in Keys(q)
    ensures Get(Put(q, k, v), key) == if key == k then Some(v) else Get(q, key)
    ensures Keys(Put(q, k, v)) == Keys(q)
    decreases |q|
  {
    var r := Put(q, k, v);
    var n := |q|;
    assert Keys(r) == Keys(q) by {
      forall x | x in Keys(q) ensures x in Keys(r) {
        var i :| 0 <= i < n && q[i].0 == x;
        assert r[i].0 == x;
      }
      forall x | x in Keys(r) ensures x in Keys(q) {
        var i :| 0 <= i < n && r[i].0 == x;
        assert q[i].0 == x;
      }
    }
    var init := q[..n - 1];
    if k in Keys(init) {
      PutGetInPlace(init, k, v, key);
      assert r[..n - 1] == Put(init, k, v);
    } else {
      assert Keys(q) == Keys(init) + {q[n - 1].0} by {
        assert q == init + [q[n - 1]];
      }
      assert r[..n - 1] == init;
    }
  }

  /** `{ ...acc, ...src }`: each entry of `src` put in order. */
  function Spread(acc: Query, src: Query): Query
  {
    if src == [] then acc
    else Put(Spread(acc, src[..|src| - 1]), src[|src| - 1].0, src[|src| - 1].1)
  }

  /** A key of `src` reads as in `src`; any other key as in `acc`. */
  lemma {:induction false} SpreadGet(acc: Query, src: Query, key: string)
    ensures Get(Spread(acc, src), key) == if key in Keys(src) then Get(src, key) else Get(acc, key)
    ensures Keys(Spread(acc, src)) == Keys(acc) + Keys(src)
  {
    if src != [] {
      var init := src[..|src| - 1];
      var last := src[|src| - 1];
      var before := Spread(acc, init);
      assert Spread(acc, src) == Put(before, last.0, last.1);
      SpreadGet(acc, init, key);
      PutGet(before, last.0, last.1, key);
      assert Keys(src) == Keys(init) + {last.0} by {
        assert src == init + [last];
      }
      assert Get(src, key) == if last.0 == key then Some(last.1) else Get(init, key);
    }
  }

  /** The merged query of a page: the cached query first, then the page options over it. */
  function MergedQuery(cached: Option<Query>, options: Option<Query>): (q: Query)
  {
    Spread(Spread([], cached.GetOr([])), options.GetOr([]))
  }

  /**
   * The merge keeps every key of both sides; on a shared key the page option wins; a key
   * only the cache has keeps the cached value.
   */
  lemma MergedQueryGet(cached: Option<Query>, options: Option<Query>, key: string)
    ensures Keys(MergedQuery(cached, options)) == Keys(cached.GetOr([])) + Keys(options.GetOr([]))
    ensures Get(MergedQuery(cached, options), key)
            == if key in Keys(options.GetOr([])) then Get(options.GetOr([]), key) else Get(cached.GetOr([]), key)
  {
    SpreadGet([], cached.GetOr([]), key);
    SpreadGet(Spread([], cached.GetOr([])), options.GetOr([]), key);
    assert Keys([]) == {};
    assert Get([], key) == None;
  }

  /** The options of the top page, `{}` when it has none. */
  function TopOptions(pages: seq<PageInstance>): Query {
    if pages == [] then [] else pages[|pages| - 1].options.GetOr([])
  }

  /** `createRouteHook`: read the top page's route, its metadata and cache entry; change nothing. */
  function CreateRouteHook<G, H>(st: RouterState<G, H>, pages: seq<PageInstance>): (hook: Hook)
    ensures hook.warned <==> UseRouter.CurrentRoute(pages).None?
    ensures hook.warned ==> hook.info == RouteInfo("", None, [], Undefined)
  {
    var route := UseRouter.CurrentRoute(pages);
    if route.None? then Hook(RouteInfo("", None, [], Undefined), true)
    else
      var name := Utils.ExtractSecondPathSegment(route.value);
      var meta := if name in st.routeMeta then Some(st.routeMeta[name]) else None;
      var cache := if name in st.pageCache then Some(st.pageCache[name]) else None;
      var options := if pages == [] then None else pages[|pages| - 1].options;
      Hook(RouteInfo(name, meta, MergedQuery(if cache.Some? then Some(cache.value.query) else None, options),
                     if cache.Some? then cache.value.handlerResult else Undefined),
           false)
  }

  /**
   * What a page reads when it has a route: the name of its route
   * path (default naming, whatever strategy built the registry), the metadata and the cache
   * entry under that same name, the page option over the cached value for every key, and the
   * cached handler result or `undefined`.
   */
  lemma RouteHookReads<G, H>(st: RouterState<G, H>, pages: seq<PageInstance>, key: string)
    ensures var hook := CreateRouteHook(st, pages);
            var route := UseRouter.CurrentRoute(pages);
            var name := hook.info.name;
            var options := TopOptions(pages);
            route.Some? ==>
              && name == Utils.ExtractSecondPathSegment(route.value)
              && (hook.info.meta.Some? <==> name in st.routeMeta)
              && (hook.info.meta.Some? ==> hook.info.meta.value == st.routeMeta[name])
              && hook.info.handlerResult == (if name in st.pageCache then st.pageCache[name].handlerResult else Undefined)
              && Get(hook.info.query, key)
                 == if key in Keys(options) then Get(options, key)
                    else if name in st.pageCache then Get(st.pageCache[name].query, key)
                    else None
  {
    var route := UseRouter.CurrentRoute(pages);
    if route.Some? {
      var name := Utils.ExtractSecondPathSegment(route.value);
      var cached := if name in st.pageCache then Some(st.pageCache[name].query) else None;
      MergedQueryGet(cached, pages[|pages| - 1].options, key);
      assert TopOptions(pages) == pages[|pages| - 1].options.GetOr([]);
      assert Get([], key) == None;
    }
  }

  /**
   * End to end: a push that gets through every stage leaves, for the page that opens at the
   * route's path, the route's metadata, the handler's result and the pushed query under every
   * key the page's own options do not carry.
   */
  lemma LandingPageSeesPush<G, H>(st: RouterState<G, H>, req: UseRouter.Request, env: UseRouter.Env<G, H>,
                                  fuel: nat, route: string, options: Option<Query>, key: string)
    requires req.path != "" && req.path in st.routeMeta
    requires UseRouter.GuardChain(st, req, env).verdict == Continue
    requires UseRouter.Handled(st, req, env).Returned? && UseRouter.Handled(st, req, env).result != Bool(false)
    requires UseRouter.AfterGuards(st, req, env).thrown.None?
    requires env.navigate(UseRouter.Dispatch(st.routeMeta[req.path], req.query.GetOr([]),
                                             Utils.ResolveCloseType(req.close))).None?
    requires req.success.Some? ==> env.callback(req.success.value, UseRouter.Handled(st, req, env).result).None?
    requires Utils.ExtractSecondPathSegment(route) == req.path
    requires key !in Keys(options.GetOr([]))
    ensures var after := st.(pageCache := UseRouter.BasicPushRun(st, req, env, fuel).cache);
            var info := CreateRouteHook(after, [PageInstance(Some(route), options)]).info;
            && info.name == req.path
            && info.meta == Some(st.routeMeta[req.path])
            && info.handlerResult == UseRouter.Handled(st, req, env).result
            && Get(info.query, key) == Get(req.query.GetOr([]), key)
  {
    UseRouter.CommitKeepsEntry(st, req, env, fuel);
    var after := st.(pageCache := UseRouter.BasicPushRun(st, req, env, fuel).cache);
    var pages := [PageInstance(Some(route), options)];
    assert route != "";
    assert UseRouter.CurrentRoute(pages) == Some(route);
    RouteHookReads(after, pages, key);
  }
}
