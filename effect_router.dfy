/**
 * The `createHistoryRouter` of the methods generation, built on the `recalculateFx` effect:
 * every history change (and, unless hydrating, every new history) re-reads the location and
 * recalculates the whole table; `$path`, `$query`, `$activeRoutes` and the first-check flag
 * take the result, the routes of the matching list get `opened` / `updated`, the routes of
 * the deduplicated mismatching list get `closed`, and the not-found route follows
 * `$activeRoutes`. A route's `navigate` pushes one history entry per binding of the route.
 */
module EffectRouter {
  import opened Wrappers
  import opened Js
  import opened Equality
  import Paths
  import RT = RouteTable
  import opened RouterCore
  import opened RouterEvents

  /**
   * The stores `$path`, `$query`, `$activeRoutes`, `$isFirstCheckPassed`, the per-binding
   * `$isOpenedManually` flags (the set of flagged binding indices), the routes and the
   * not-found route.
   */
  datatype State = State(
    path: string,
    query: Record,
    activeRoutes: seq<nat>,
    firstCheckPassed: bool,
    manual: set<nat>,
    views: map<nat, RouteView>,
    notFound: RouteView)

  function Initial(): State
  {
    State("", map[], [], false, {}, map[], ClosedView)
  }

  function Matching(cfg: Config, loc: Location): seq<Entry>
  {
    Matched(cfg.table, |cfg.table|, loc, Match(cfg), true)
  }

  /** The mismatching list after the null-and-filter dedup: no entry of a matched route is left. */
  function Closing(cfg: Config, loc: Location): seq<Entry>
  {
    WithoutRoutes(Missed(cfg.table, |cfg.table|, loc, Match(cfg), true), RoutesOf(Matching(cfg, loc)))
  }

  /**
   * `recalculateFx.done` with its lists: the stores take the path, the query, the matched
   * routes and `true`; `routesOpened` resets the manual flags before any guard reads them, so
   * no flag is ever seen set. Then the routes of the matching list are gated, `routeNotFound`
   * and the not-found route follow, then the routes of the mismatching list, then
   * `initialized` on the first check's false-to-true edge.
   */
  function Reconcile(cfg: Config, s: State, loc: Location, matching: seq<Entry>, closing: seq<Entry>): (State, seq<Out>)
  {
    var s1 := s.(path := loc.path, query := loc.query, activeRoutes := RouteIds(matching), firstCheckPassed := true, manual := {});
    var rules := MethodsRouteRules(cfg);
    var openPass := GateMatched(rules, cfg.table, matching, s.views, false, 0);
    var notFoundOut: seq<Out> := if |matching| == 0 then [RouteNotFound] else [];
    var nf := NotFoundStep(cfg, MethodsRouteRules(cfg).kind, s.notFound, loc.query, |matching| == 0);
    var closePass := GateMismatched(rules, cfg.table, closing, openPass.1, 0);
    var init: seq<Out> := if !s.firstCheckPassed then [Initialized(s1.activeRoutes, s1.path, s1.query)] else [];
    (s1.(views := closePass.1, notFound := nf.1),
     RouteCalls(openPass.0) + notFoundOut + nf.0 + RouteCalls(closePass.0) + init)
  }

  function Recalculate(cfg: Config, s: State, loc: Location): (State, seq<Out>)
  {
    Reconcile(cfg, s, loc, Matching(cfg, loc), Closing(cfg, loc))
  }

  /** `recheckFx`: the location's path, parsed query and hash, recalculated. */
  function RecheckStep(cfg: Config, s: State, hl: HistoryLocation): (State, seq<Out>)
  {
    Recalculate(cfg, s, Location(hl.pathname, ParseQuery(cfg, hl.search), hl.hash))
  }

  /** `setHistory`: the first-check flag is reset and, unless hydrating, the location is rechecked. */
  function SetHistoryStep(cfg: Config, s: State, hl: HistoryLocation): (State, seq<Out>)
  {
    var s0 := s.(firstCheckPassed := false);
    if cfg.hydrate then (s0, []) else RecheckStep(cfg, s0, hl)
  }

  /** The indices of the route's bindings. */
  function BindingsOf(table: seq<RT.Binding>, route: nat): set<nat>
  {
    set j | 0 <= j < |table| && table[j].route.id == route
  }

  /**
   * `route.navigate.done`: every binding of the route flags itself as opened manually and
   * pushes the path it builds; the path helper of this generation ignores the serializer, and
   * the method is `replace` when `replace ?? false` is truthy.
   */
  function NavigateStep(cfg: Config, s: State, route: nat, params: Record, query: Record, replace: JsValue): (State, seq<Out>)
  {
    var pushes := NavigatePushes(cfg.(serialize := None), route, params, query, Truthy(Coalesce(replace, Bool(false))), 0);
    (s.(manual := s.manual + BindingsOf(cfg.table, route)), pushes)
  }

  // ---------------------------------------------------------------------------------------
  // Properties

  /** After a recalculation every route of the table is open exactly when one of its bindings matched. */
  lemma RecalculationSyncsRoutes(cfg: Config, s: State, loc: Location)
    ensures var s2 := Recalculate(cfg, s, loc).0;
      forall j :: 0 <= j < |cfg.table| ==>
        (ViewOf(s2.views, cfg.table[j].route.id).isOpened <==> cfg.table[j].route.id in RoutesOf(Matching(cfg, loc)))
  {
    ReconcileSyncsRoutes(MethodsRouteRules(cfg), cfg.table, loc, Match(cfg), true, s.views);
  }

  /**
   * `routeNotFound` fires exactly when nothing matched, and with a not-found route that route
   * is open afterwards exactly when nothing matched.
   */
  lemma NotFoundExactlyWhenNothingMatches(cfg: Config, s: State, loc: Location)
    ensures var (s2, outs) := Recalculate(cfg, s, loc);
      (RouteNotFound in outs <==> |Matching(cfg, loc)| == 0) &&
      (cfg.hasNotFound ==> (s2.notFound.isOpened <==> |Matching(cfg, loc)| == 0))
  {
    ReconcileNotFound(cfg, s, loc, Matching(cfg, loc), Closing(cfg, loc));
  }

  /** `NotFoundExactlyWhenNothingMatches` for any matching and mismatching lists. */
  lemma ReconcileNotFound(cfg: Config, s: State, loc: Location, matching: seq<Entry>, closing: seq<Entry>)
    ensures var (s2, outs) := Reconcile(cfg, s, loc, matching, closing);
      (RouteNotFound in outs <==> |matching| == 0) &&
      (cfg.hasNotFound ==> (s2.notFound.isOpened <==> |matching| == 0))
  {
    var rules := MethodsRouteRules(cfg);
    var openPass := GateMatched(rules, cfg.table, matching, s.views, false, 0);
    var nf := NotFoundStep(cfg, rules.kind, s.notFound, loc.query, |matching| == 0);
    var closePass := GateMismatched(rules, cfg.table, closing, openPass.1, 0);
    var notFoundOut: seq<Out> := if |matching| == 0 then [RouteNotFound] else [];
    var (s2, outs) := Reconcile(cfg, s, loc, matching, closing);
    var init: seq<Out> := if !s.firstCheckPassed then [Initialized(s2.activeRoutes, s2.path, s2.query)] else [];
    assert outs == RouteCalls(openPass.0) + notFoundOut + nf.0 + RouteCalls(closePass.0) + init;
    RouteCallsAreCalls(openPass.0);
    RouteCallsAreCalls(closePass.0);
    assert forall o :: o in nf.0 ==> o.NotFoundCall?;
    assert s2.notFound == nf.1;
  }


  /**
   * `initialized` fires exactly on the first recalculation after a history was set, with the
   * stores as they are afterwards.
   */
  lemma InitializedOnFirstCheck(cfg: Config, s: State, loc: Location)
    ensures var (s2, outs) := Recalculate(cfg, s, loc);
      s2.firstCheckPassed &&
      (Initialized(s2.activeRoutes, s2.path, s2.query) in outs <==> !s.firstCheckPassed) &&
      (forall o :: o in outs && o.Initialized? ==> o == Initialized(s2.activeRoutes, s2.path, s2.query))
  {
    ReconcileInitializesOnce(cfg, s, loc, Matching(cfg, loc), Closing(cfg, loc));
  }

  /** `InitializedOnFirstCheck` for any matching and mismatching lists. */
  lemma ReconcileInitializesOnce(cfg: Config, s: State, loc: Location, matching: seq<Entry>, closing: seq<Entry>)
    ensures var (s2, outs) := Reconcile(cfg, s, loc, matching, closing);
      s2.firstCheckPassed &&
      (Initialized(s2.activeRoutes, s2.path, s2.query) in outs <==> !s.firstCheckPassed) &&
      (forall o :: o in outs && o.Initialized? ==> o == Initialized(s2.activeRoutes, s2.path, s2.query))
  {
    var rules := MethodsRouteRules(cfg);
    var openPass := GateMatched(rules, cfg.table, matching, s.views, false, 0);
    var nf := NotFoundStep(cfg, rules.kind, s.notFound, loc.query, |matching| == 0);
    NotFoundStepCalls(cfg, rules.kind, s.notFound, loc.query, |matching| == 0);
    var closePass := GateMismatched(rules, cfg.table, closing, openPass.1, 0);
    InitializedLast(openPass.0, nf.0, closePass.0, Initialized(RouteIds(matching), loc.path, loc.query), |matching| == 0, !s.firstCheckPassed);
  }




  /** Synchronised views, read route by route rather than binding by binding. */
  lemma TableRouteOpenIffMatched(cfg: Config, s2: State, loc: Location, r: nat)
    requires forall j :: 0 <= j < |cfg.table| ==>
      (ViewOf(s2.views, cfg.table[j].route.id).isOpened <==> cfg.table[j].route.id in RoutesOf(Matching(cfg, loc)))
    requires r in TableRoutes(cfg.table)
    ensures ViewOf(s2.views, r).isOpened <==> r in RoutesOf(Matching(cfg, loc))
  {
    var b :| b in cfg.table && b.route.id == r;
    var j :| 0 <= j < |cfg.table| && cfg.table[j] == b;
  }

  /**
   * Rechecking a location a second time is stable: the history routers' calls on routes are
   * then only `updated`, never `opened` or `closed`.
   */
  lemma RecheckIsStable(cfg: Config, s: State, loc: Location)
    ensures var s2 := Recalculate(cfg, s, loc).0;
      forall o :: o in Recalculate(cfg, s2, loc).1 && o.RouteCall? ==> o.ev.notice.Updated?
  {
    var rules := MethodsRouteRules(cfg);
    var matching := Matching(cfg, loc);
    var s2 := Recalculate(cfg, s, loc).0;
    RecheckPassesOnlyUpdate(cfg, s, loc);
    var openPass := GateMatched(rules, cfg.table, matching, s2.views, false, 0);
    var closePass := GateMismatched(rules, cfg.table, Closing(cfg, loc), openPass.1, 0);
    NotFoundStepCalls(cfg, rules.kind, s2.notFound, loc.query, |matching| == 0);
    var init: seq<Out> := if !s2.firstCheckPassed then [Initialized(RouteIds(matching), loc.path, loc.query)] else [];
    RouteCallsFromPasses(openPass.0, NotFoundStep(cfg, rules.kind, s2.notFound, loc.query, |matching| == 0).0, closePass.0, |matching| == 0, init);
  }

  /** On synchronised views the matching pass only updates and the mismatching pass calls nothing. */
  lemma RecheckPassesOnlyUpdate(cfg: Config, s: State, loc: Location)
    ensures var s2 := Recalculate(cfg, s, loc).0;
      var rules := MethodsRouteRules(cfg);
      var openPass := GateMatched(rules, cfg.table, Matching(cfg, loc), s2.views, false, 0);
      (forall ev :: ev in openPass.0 ==> ev.notice.Updated?) &&
      GateMismatched(rules, cfg.table, Closing(cfg, loc), openPass.1, 0).0 == []
  {
    var rules := MethodsRouteRules(cfg);
    var matching := Matching(cfg, loc);
    var closing := Closing(cfg, loc);
    var s2 := Recalculate(cfg, s, loc).0;
    RecalculationSyncsRoutes(cfg, s, loc);
    var openPass := GateMatched(rules, cfg.table, matching, s2.views, false, 0);
    var closePass := GateMismatched(rules, cfg.table, closing, openPass.1, 0);
    GateMatchedScope(rules, cfg.table, matching, s2.views, false, 0);
    GateMatchedOpens(rules, cfg.table, matching, s2.views, false, 0);
    GateMatchedOnlyListed(rules, cfg.table, matching, s2.views, false, 0);
    GateMismatchedEdges(rules, cfg.table, closing, openPass.1, 0);
    GateMismatchedOnlyListed(rules, cfg.table, closing, openPass.1, 0);
    WithoutRoutesMembers(Missed(cfg.table, |cfg.table|, loc, Match(cfg), true), RoutesOf(matching));
    forall ev | ev in openPass.0 ensures ev.notice.Updated? {
      var k :| 0 <= k < |openPass.0| && openPass.0[k] == ev;
      if ev.notice.Opened? {
        TableRouteOpenIffMatched(cfg, s2, loc, ev.route);
        assert false;
      }
    }
    if |closePass.0| > 0 {
      TableRouteOpenIffMatched(cfg, s2, loc, closePass.0[0].route);
      assert false;
    }
  }


  /** Every push of a navigation goes to a path a binding of the route builds, with `replace` as its truthiness. */
  lemma NavigatePushesEachBinding(cfg: Config, s: State, route: nat, params: Record, query: Record, replace: JsValue)
    ensures var (s2, outs) := NavigateStep(cfg, s, route, params, query, replace);
      (forall o :: o in outs ==>
        o.Push? && o.replace == Truthy(replace) && o.path in BuiltPaths(cfg.(serialize := None), route, params, query, 0)) &&
      (|outs| > 0 <==> route in TableRoutes(cfg.table)) &&
      s2.manual == s.manual + BindingsOf(cfg.table, route)
  {
    var c := cfg.(serialize := None);
    var v := Truthy(Coalesce(replace, Bool(false)));
    assert v == Truthy(replace);
    NavigatePushesPerBinding(c, route, params, query, v, 0);
    BuiltPathsExistIff(c, route, params, query);
    var outs := NavigatePushes(c, route, params, query, v, 0);
    forall o | o in outs ensures o.Push? && o.replace == Truthy(replace) && o.path in BuiltPaths(c, route, params, query, 0) {
      var k :| 0 <= k < |outs| && outs[k] == o;
    }
  }


  // ---------------------------------------------------------------------------------------
  // The stores as a class

  class Router {
    const cfg: Config
    var path: string
    var query: Record
    var activeRoutes: seq<nat>
    var firstCheckPassed: bool
    var manual: set<nat>
    var views: map<nat, RouteView>
    var notFound: RouteView

    function Current(): State
      reads this
    {
      State(path, query, activeRoutes, firstCheckPassed, manual, views, notFound)
    }

    constructor (cfg: Config)
      ensures this.cfg == cfg && Current() == Initial()
    {
      this.cfg := cfg;
      path, query, activeRoutes, firstCheckPassed := "", map[], [], false;
      manual, views, notFound := {}, map[], ClosedView;
    }

    /** What `recalculateFx.done` drives, given the effect's lists. */
    method Recalculated(loc: Location, openedList: seq<Entry>, closedList: seq<Entry>) returns (outs: seq<Out>)
      modifies this
      ensures (Current(), outs) == Reconcile(cfg, old(Current()), loc, openedList, closedList)
    {
      var wasPassed := firstCheckPassed;
      path, query, activeRoutes, firstCheckPassed, manual := loc.path, loc.query, RouteIds(openedList), true, {};
      var rules := MethodsRouteRules(cfg);
      var openPass := GateMatched(rules, cfg.table, openedList, views, false, 0);
      views := openPass.1;
      var notFoundOut: seq<Out> := if |openedList| == 0 then [RouteNotFound] else [];
      var nf := NotFoundStep(cfg, MethodsRouteRules(cfg).kind, notFound, loc.query, |openedList| == 0);
      notFound := nf.1;
      var closePass := GateMismatched(rules, cfg.table, closedList, views, 0);
      views := closePass.1;
      var init: seq<Out> := if !wasPassed then [Initialized(activeRoutes, path, query)] else [];
      outs := RouteCalls(openPass.0) + notFoundOut + nf.0 + RouteCalls(closePass.0) + init;
    }

    /** `recheckFx` and `recalculateFx`: the location is read, split and deduplicated. */
    method Recheck(hl: HistoryLocation) returns (outs: seq<Out>)
      modifies this
      ensures (Current(), outs) == RecheckStep(cfg, old(Current()), hl)
    {
      var loc := Location(hl.pathname, ParseQuery(cfg, hl.search), hl.hash);
      var openedList, closedList := Partition(cfg.table, loc, Match(cfg), true);
      closedList := NullAndFilter(closedList, openedList);
      outs := Recalculated(loc, openedList, closedList);
    }

    method SetHistory(hl: HistoryLocation) returns (outs: seq<Out>)
      modifies this
      ensures (Current(), outs) == SetHistoryStep(cfg, old(Current()), hl)
    {
      firstCheckPassed := false;
      if cfg.hydrate {
        outs := [];
      } else {
        outs := Recheck(hl);
      }
    }

    method RouteNavigated(route: nat, params: Record, query: Record, replace: JsValue) returns (outs: seq<Out>)
      modifies this
      ensures (Current(), outs) == NavigateStep(cfg, old(Current()), route, params, query, replace)
    {
      var orFalse := if replace.Null? || replace.Undefined? then Bool(false) else replace;
      outs := NavigatePushes(cfg.(serialize := None), route, params, query, Truthy(orFalse), 0);
      manual := manual + BindingsOf(cfg.table, route);
    }
  }
}
