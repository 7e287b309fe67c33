/**
 * What the `history`-driven routers over `createRoute` routes share: the location they read,
 * their arguments, what they emit, how they parse a search string, how the not-found route
 * reacts to a recalculation, and the pushes a route's `navigate` causes.
 */
module RouterEvents {
  import opened Wrappers
  import opened Js
  import opened Equality
  import Paths
  import RT = RouteTable
  import opened RouterCore

  /** What the router reads from `history.location`. */
  datatype HistoryLocation = HistoryLocation(pathname: string, search: string, hash: string)

  /**
   * The router's arguments. `table` is the remapped route table; `hasNotFound` says whether a
   * not-found route was given; `domainQuery` is the query of the routes' domain, which a
   * domain route shows as its `$query` while open.
   */
  datatype Config = Config(
    platform: Paths.Platform,
    table: seq<RT.Binding>,
    serialize: Option<Paths.QueryCodec>,
    hydrate: bool,
    hasNotFound: bool,
    domainQuery: Record)

  /** What the router emits: calls on routes, its own events, and history pushes. */
  datatype Out =
    | RouteCall(ev: RouteEvent)
    | NotFoundCall(notice: Notice)
    | RouteNotFound
    | Initialized(activeRoutes: seq<nat>, path: string, query: Record)
    | Push(path: string, params: Record, query: Record, replace: bool)
  /** `serialize.read(search)` when a serializer is given, else the entries of `URLSearchParams`. */
  function ParseQuery(cfg: Config, search: string): Record
  {
    match cfg.serialize
    case Some(c) => c.read(search)
    case None => cfg.platform.searchParams.read(search)
  }

  function Match(cfg: Config): Matcher
  {
    (pattern, actualPath) => Paths.MatchPath(cfg.platform, pattern, actualPath)
  }

  /** Results are found by route, `updated` needs a change, and the routes are domain routes. */
  function MethodsRouteRules(cfg: Config): Rules
  {
    Rules(false, UpdateWhenChanged, DomainRoute(cfg.domainQuery))
  }
  function RouteCalls(evs: seq<RouteEvent>): (r: seq<Out>)
    ensures |r| == |evs| && forall k :: 0 <= k < |r| ==> r[k] == RouteCall(evs[k])
  {
    seq(|evs|, k requires 0 <= k < |evs| => RouteCall(evs[k]))
  }

  /** Route calls hold nothing but `RouteCall`s. */
  lemma RouteCallsAreCalls(evs: seq<RouteEvent>)
    ensures forall o :: o in RouteCalls(evs) ==> o.RouteCall? && o.ev in evs
  {
    forall o | o in RouteCalls(evs) ensures o.RouteCall? && o.ev in evs {
      var k :| 0 <= k < |RouteCalls(evs)| && RouteCalls(evs)[k] == o;
    }
  }

  /**
   * Outputs of a recalculation in the order of the newer routers: route calls, `routeNotFound`
   * when nothing matched, calls on the not-found route, route calls, and `initialized` last
   * when it fires. `initialized` occurs exactly when it fires, and only as that one value.
   */
  lemma InitializedLast(opens: seq<RouteEvent>, nfOut: seq<Out>, closes: seq<RouteEvent>, x: Out, nothingMatched: bool, fires: bool)
    requires x.Initialized? && forall o :: o in nfOut ==> o.NotFoundCall?
    ensures var outs := RouteCalls(opens) + (if nothingMatched then [RouteNotFound] else []) + nfOut + RouteCalls(closes) + (if fires then [x] else []);
      (x in outs <==> fires) && (forall o :: o in outs && o.Initialized? ==> o == x)
  {
    RouteCallsAreCalls(opens);
    RouteCallsAreCalls(closes);
  }

  /** In outputs of the same order, the route calls are those of the two passes. */
  lemma RouteCallsFromPasses(opens: seq<RouteEvent>, nfOut: seq<Out>, closes: seq<RouteEvent>, nothingMatched: bool, init: seq<Out>)
    requires forall o :: o in nfOut ==> o.NotFoundCall?
    requires forall o :: o in init ==> o.Initialized?
    ensures var outs := RouteCalls(opens) + (if nothingMatched then [RouteNotFound] else []) + nfOut + RouteCalls(closes) + init;
      forall o :: o in outs && o.RouteCall? ==> o.ev in opens || o.ev in closes
  {
    RouteCallsAreCalls(opens);
    RouteCallsAreCalls(closes);
  }

  /**
   * The not-found route on a recalculation: with nothing matched it gets `updated` if open and
   * `opened` if closed, both with params `{}` and the router's query; with something matched
   * an open one gets `closed`.
   */
  function NotFoundStep(cfg: Config, kind: RouteKind, nf: RouteView, query: Record, nothingMatched: bool): (r: (seq<Out>, RouteView))
    ensures !cfg.hasNotFound ==> r == ([], nf)
    ensures cfg.hasNotFound && nothingMatched && nf.isOpened ==> r.0 == [NotFoundCall(Updated(Some(map[]), query))]
    ensures cfg.hasNotFound && nothingMatched && !nf.isOpened ==> r.0 == [NotFoundCall(Opened(Some(map[]), query))]
    ensures cfg.hasNotFound && nothingMatched ==> r.1.isOpened && r.1.params == map[]
    ensures cfg.hasNotFound && nothingMatched ==> r.1.query == if kind.DomainRoute? then kind.domainQuery else query
    ensures cfg.hasNotFound && !nothingMatched && nf.isOpened ==> r.0 == [NotFoundCall(Closed)] && !r.1.isOpened
    ensures cfg.hasNotFound && !nothingMatched && !nf.isOpened ==> r == ([], nf)
  {
    if !cfg.hasNotFound then ([], nf)
    else if nothingMatched then
      var n := if nf.isOpened then Updated(Some(map[]), query) else Opened(Some(map[]), query);
      assert EqualsFilter(map[], nf.params);
      ([NotFoundCall(n)], React(kind, nf, n))
    else if nf.isOpened then ([NotFoundCall(Closed)], React(kind, nf, Closed))
    else ([], nf)
  }
  /** The not-found step calls nothing but the not-found route. */
  lemma NotFoundStepCalls(cfg: Config, kind: RouteKind, nf: RouteView, query: Record, nothingMatched: bool)
    ensures forall o :: o in NotFoundStep(cfg, kind, nf, query, nothingMatched).0 ==> o.NotFoundCall?
  {
  }

  /** The path binding `j` builds for `params` and `query`. */
  function BindingPath(cfg: Config, j: nat, params: Record, query: Record): string
    requires j < |cfg.table|
  {
    Paths.BuildPath(cfg.platform, cfg.table[j].path, params, query, cfg.serialize)
  }

  /** The paths the bindings of `route` from `i` on build for `params` and `query`. */
  function BuiltPaths(cfg: Config, route: nat, params: Record, query: Record, i: nat): set<string>
  {
    set j | i <= j < |cfg.table| && cfg.table[j].route.id == route :: BindingPath(cfg, j, params, query)
  }

  lemma BuiltPathsStep(cfg: Config, route: nat, params: Record, query: Record, i: nat)
    requires i < |cfg.table|
    ensures cfg.table[i].route.id == route ==>
      BuiltPaths(cfg, route, params, query, i) == {BindingPath(cfg, i, params, query)} + BuiltPaths(cfg, route, params, query, i + 1)
    ensures cfg.table[i].route.id != route ==>
      BuiltPaths(cfg, route, params, query, i) == BuiltPaths(cfg, route, params, query, i + 1)
  {
    var here := BuiltPaths(cfg, route, params, query, i);
    var later := BuiltPaths(cfg, route, params, query, i + 1);
    forall p | p in here
      ensures p in later || (cfg.table[i].route.id == route && p == BindingPath(cfg, i, params, query))
    {
      var j :| i <= j < |cfg.table| && cfg.table[j].route.id == route && p == BindingPath(cfg, j, params, query);
      if j != i {
        assert p in later;
      }
    }
  }

  /** Some binding from the start builds a path exactly when the route is in the table. */
  lemma BuiltPathsExistIff(cfg: Config, route: nat, params: Record, query: Record)
    ensures BuiltPaths(cfg, route, params, query, 0) != {} <==> route in TableRoutes(cfg.table)
  {
    if route in TableRoutes(cfg.table) {
      var b :| b in cfg.table && b.route.id == route;
      var j :| 0 <= j < |cfg.table| && cfg.table[j] == b;
      assert BindingPath(cfg, j, params, query) in BuiltPaths(cfg, route, params, query, 0);
    }
    if BuiltPaths(cfg, route, params, query, 0) != {} {
      var p :| p in BuiltPaths(cfg, route, params, query, 0);
      var j :| 0 <= j < |cfg.table| && cfg.table[j].route.id == route && p == BindingPath(cfg, j, params, query);
      assert cfg.table[j] in cfg.table;
    }
  }

  function NavigatePushes(cfg: Config, route: nat, params: Record, query: Record, replace: bool, i: nat): seq<Out>
    decreases |cfg.table| - i
  {
    if i >= |cfg.table| then []
    else
      var b := cfg.table[i];
      var rest := NavigatePushes(cfg, route, params, query, replace, i + 1);
      if b.route.id == route then [Push(BindingPath(cfg, i, params, query), params, query, replace)] + rest
      else rest
  }

  /** Every navigate push carries the payload and `replace` as given and goes to a path some binding of the route builds. */
  lemma {:induction false} NavigatePushesInBuiltPaths(cfg: Config, route: nat, params: Record, query: Record, replace: bool, i: nat)
    ensures var r := NavigatePushes(cfg, route, params, query, replace, i);
      forall k :: 0 <= k < |r| ==> r[k].Push? && r[k].params == params && r[k].query == query && r[k].replace == replace && r[k].path in BuiltPaths(cfg, route, params, query, i)
    decreases |cfg.table| - i
  {
    if i < |cfg.table| {
      NavigatePushesInBuiltPaths(cfg, route, params, query, replace, i + 1);
      BuiltPathsStep(cfg, route, params, query, i);
      var rest := NavigatePushes(cfg, route, params, query, replace, i + 1);
      var r := NavigatePushes(cfg, route, params, query, replace, i);
      assert NavigatePushes(cfg, route, params, query, replace, i + 1) == rest;
      if cfg.table[i].route.id == route {
        var p := BindingPath(cfg, i, params, query);
        assert r == [Push(p, params, query, replace)] + rest;
        assert p in BuiltPaths(cfg, route, params, query, i);
        forall k | 0 <= k < |r|
          ensures r[k].Push? && r[k].params == params && r[k].query == query && r[k].replace == replace && r[k].path in BuiltPaths(cfg, route, params, query, i)
        {
          if k == 0 {
            assert r[k] == Push(p, params, query, replace);
          } else {
            assert r[k] == NavigatePushes(cfg, route, params, query, replace, i + 1)[k - 1];
          }
        }
      } else {
        assert r == rest;
      }
    }
  }

  /** A navigation pushes something exactly when the route has a binding from `i` on. */
  lemma {:induction false} NavigatePushesExistIff(cfg: Config, route: nat, params: Record, query: Record, replace: bool, i: nat)
    ensures |NavigatePushes(cfg, route, params, query, replace, i)| > 0 <==> BuiltPaths(cfg, route, params, query, i) != {}
    decreases |cfg.table| - i
  {
    if i < |cfg.table| {
      NavigatePushesExistIff(cfg, route, params, query, replace, i + 1);
      BuiltPathsStep(cfg, route, params, query, i);
    } else {
      assert BuiltPaths(cfg, route, params, query, i) == {};
    }
  }

  /**
   * Every navigate push carries the payload and `replace` as given and goes to the path some
   * binding of the route builds, and there is a push exactly when the route has a binding.
   */
  lemma NavigatePushesPerBinding(cfg: Config, route: nat, params: Record, query: Record, replace: bool, i: nat)
    ensures var r := NavigatePushes(cfg, route, params, query, replace, i);
      forall k :: 0 <= k < |r| ==>
        r[k].Push? && r[k].params == params && r[k].query == query && r[k].replace == replace &&
        r[k].path in BuiltPaths(cfg, route, params, query, i)
    ensures |NavigatePushes(cfg, route, params, query, replace, i)| > 0 <==> |BuiltPaths(cfg, route, params, query, i)| > 0
  {
    NavigatePushesInBuiltPaths(cfg, route, params, query, replace, i);
    NavigatePushesExistIff(cfg, route, params, query, replace, i);
  }

}
