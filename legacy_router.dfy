/**
 * The first `createHistoryRouter`: every recalculation splits the bindings into entered and
 * left ones with the earliest `matchPath`; `$path`, `$query` and `$activeRoutes` take the result,
 * `routeNotFound` fires when nothing entered, and each binding's guards find their own result
 * (`recheckResult.route === routeObj`) and call `updated` / `opened` / `left` on its route. A
 * route's navigation pushes the built path, and each finished push recalculates with the
 * pushed path and query.
 */
module LegacyRouter {
  import opened Wrappers
  import opened Js
  import Paths
  import RT = RouteTable
  import opened RouterCore
  import opened RouterEvents

  /** The stores `$path`, `$query`, `$activeRoutes` and the routes. */
  datatype State = State(path: string, query: Record, activeRoutes: seq<nat>, views: map<nat, RouteView>)

  function Initial(): State
  {
    State("", map[], [], map[])
  }

  /** Guards per binding, `updated` on every repeated match, first-generation routes. */
  function BindingRules(): Rules
  {
    Rules(true, AlwaysUpdate, LegacyRoute)
  }

  /** The earliest `matchPath`: the raw pattern against the raw path. */
  function LegacyMatch(cfg: Config): Matcher
  {
    (pattern: string, actualPath: string) => Paths.MatchPathLegacy(cfg.platform, pattern, actualPath)
  }

  function Entered(cfg: Config, loc: Location): seq<Entry>
  {
    Matched(cfg.table, |cfg.table|, loc, LegacyMatch(cfg), false)
  }

  function Left(cfg: Config, loc: Location): seq<Entry>
  {
    Missed(cfg.table, |cfg.table|, loc, LegacyMatch(cfg), false)
  }

  /** The routes of the bindings whose pattern matches the location. */
  function HitRoutes(cfg: Config, loc: Location): set<nat>
  {
    set j | 0 <= j < |cfg.table| && Hits(cfg.table, j, loc, LegacyMatch(cfg), false) :: cfg.table[j].route.id
  }

  /**
   * `recalculateFx.done` with a list of results to leave: the stores take the path, the query
   * and the entered routes; `routeNotFound` fires for an empty entered list; then the entered
   * guards of every binding, then the left guards.
   */
  function ReconcileWith(cfg: Config, s: State, loc: Location, leaving: seq<Entry>): (State, seq<Out>)
  {
    var entered := Entered(cfg, loc);
    var notFoundOut: seq<Out> := if |entered| == 0 then [RouteNotFound] else [];
    var openPass := GateMatched(BindingRules(), cfg.table, entered, s.views, false, 0);
    var closePass := GateMismatched(BindingRules(), cfg.table, leaving, openPass.1, 0);
    (State(loc.path, loc.query, RouteIds(entered), closePass.1),
     notFoundOut + RouteCalls(openPass.0) + RouteCalls(closePass.0))
  }

  /** A recalculation as written: every binding that missed reaches its `left` guard. */
  function RecalculateAsWritten(cfg: Config, s: State, loc: Location): (State, seq<Out>)
  {
    ReconcileWith(cfg, s, loc, Left(cfg, loc))
  }

  /** A recalculation whose left list drops the routes that entered through another binding. */
  function Recalculate(cfg: Config, s: State, loc: Location): (State, seq<Out>)
  {
    ReconcileWith(cfg, s, loc, WithoutRoutes(Left(cfg, loc), RoutesOf(Entered(cfg, loc))))
  }

  /** `recheckFx`: the history's pathname and `URLSearchParams` query; the hash takes no part. */
  function RecheckStep(cfg: Config, s: State, hl: HistoryLocation): (State, seq<Out>)
  {
    Recalculate(cfg, s, Location(hl.pathname, cfg.platform.searchParams.read(hl.search), ""))
  }

  /** `pushFx.done`: a recalculation with the pushed path (query string included) and query. */
  function PushedStep(cfg: Config, s: State, path: string, query: Record): (State, seq<Out>)
  {
    Recalculate(cfg, s, Location(path, query, ""))
  }

  /** `setHistory`: the subscription rechecks unless hydrating. */
  function SetHistoryStep(cfg: Config, s: State, hl: HistoryLocation): (State, seq<Out>)
  {
    if cfg.hydrate then (s, []) else RecheckStep(cfg, s, hl)
  }

  /**
   * A route's `navigate` with its normalised params and query: the route opens or updates
   * itself, and `enteredFx` builds one plain push per binding of the route.
   */
  function NavigateStep(cfg: Config, s: State, route: nat, params: Record, query: Record): (State, seq<Out>)
  {
    var v := ViewOf(s.views, route);
    var n := if v.isOpened then Updated(Some(params), query) else Opened(Some(params), query);
    (s.(views := s.views[route := React(LegacyRoute, v, n)]),
     [RouteCall(RouteEvent(route, n))] + NavigatePushes(cfg.(serialize := None), route, params, query, false, 0))
  }

  // ---------------------------------------------------------------------------------------
  // Properties

  /**
   * As written, a route bound to two paths is left closed when one of its bindings matches
   * and the other does not: the first binding opens it, the second one's `left` guard then
   * finds it open and closes it.
   */
  lemma AliasClosedOnPartialMatch(cfg: Config, s: State, loc: Location, i: nat, j: nat)
    requires i < |cfg.table| && j < |cfg.table| && cfg.table[i].route.id == cfg.table[j].route.id
    requires Hits(cfg.table, i, loc, LegacyMatch(cfg), false) && !Hits(cfg.table, j, loc, LegacyMatch(cfg), false)
    ensures cfg.table[i].route.id in RoutesOf(Entered(cfg, loc))
    ensures !ViewOf(RecalculateAsWritten(cfg, s, loc).0.views, cfg.table[i].route.id).isOpened
  {
    var t := cfg.table;
    var m := LegacyMatch(cfg);
    PartitionExact(t, |t|, loc, m, false);
    var entered := Entered(cfg, loc);
    var mid := GateMatched(BindingRules(), t, entered, s.views, false, 0).1;
    assert EntryAt(t, i, loc, m, false) in entered;
    assert EntryAt(t, j, loc, m, false) in Left(cfg, loc);
    assert Lookup(BindingRules(), Left(cfg, loc), t, j).Some?;
    GateMismatchedClosesFound(BindingRules(), t, Left(cfg, loc), mid, 0);
  }

  /** With the left list deduplicated, a route of the table is open exactly when one of its bindings matched. */
  lemma RecalculationSyncsRoutes(cfg: Config, s: State, loc: Location)
    ensures var s2 := Recalculate(cfg, s, loc).0;
      forall j :: 0 <= j < |cfg.table| ==>
        (ViewOf(s2.views, cfg.table[j].route.id).isOpened <==> cfg.table[j].route.id in HitRoutes(cfg, loc))
  {
    var t := cfg.table;
    var m := LegacyMatch(cfg);
    ReconcileSyncsRoutes(BindingRules(), t, loc, m, false, s.views);
    PartitionExact(t, |t|, loc, m, false);
    forall j | 0 <= j < |t| ensures t[j].route.id in RoutesOf(Entered(cfg, loc)) <==> t[j].route.id in HitRoutes(cfg, loc) {
      if t[j].route.id in RoutesOf(Entered(cfg, loc)) {
        var e :| e in Entered(cfg, loc) && e.route == t[j].route.id;
        assert t[e.binding].route.id == t[j].route.id;
      }
    }
  }

  /** `$activeRoutes` holds exactly the routes of the matching bindings. */
  lemma ActiveRoutesAreHits(cfg: Config, s: State, loc: Location)
    ensures var s2 := Recalculate(cfg, s, loc).0;
      forall r :: r in s2.activeRoutes <==> r in HitRoutes(cfg, loc)
  {
    var t := cfg.table;
    var m := LegacyMatch(cfg);
    var entered := Entered(cfg, loc);
    var ids := RouteIds(entered);
    PartitionExact(t, |t|, loc, m, false);
    forall r ensures r in ids <==> r in HitRoutes(cfg, loc) {
      if r in ids {
        var k :| 0 <= k < |ids| && ids[k] == r;
        assert entered[k] in entered;
        assert t[entered[k].binding].route.id == r;
      }
      if r in HitRoutes(cfg, loc) {
        var j :| 0 <= j < |t| && Hits(t, j, loc, m, false) && t[j].route.id == r;
        var e := EntryAt(t, j, loc, m, false);
        assert e in entered;
        var k :| 0 <= k < |entered| && entered[k] == e;
        assert ids[k] == r;
      }
    }
  }

  /** `routeNotFound` fires, and first, exactly when no binding matched. */
  lemma NotFoundExactlyWhenNothingMatches(cfg: Config, s: State, loc: Location)
    ensures var outs := Recalculate(cfg, s, loc).1;
      (RouteNotFound in outs <==> HitRoutes(cfg, loc) == {}) &&
      (HitRoutes(cfg, loc) == {} ==> outs[0] == RouteNotFound)
  {
    ReconcileNotFound(cfg, s, loc, WithoutRoutes(Left(cfg, loc), RoutesOf(Entered(cfg, loc))));
    EnteredEmptyIff(cfg, loc);
  }

  /** `routeNotFound` leads the outputs exactly when nothing entered, whatever the left list. */
  lemma ReconcileNotFound(cfg: Config, s: State, loc: Location, leaving: seq<Entry>)
    ensures var outs := ReconcileWith(cfg, s, loc, leaving).1;
      (RouteNotFound in outs <==> |Entered(cfg, loc)| == 0) &&
      (|Entered(cfg, loc)| == 0 ==> outs[0] == RouteNotFound)
  {
    var entered := Entered(cfg, loc);
    var openPass := GateMatched(BindingRules(), cfg.table, entered, s.views, false, 0);
    var closePass := GateMismatched(BindingRules(), cfg.table, leaving, openPass.1, 0);
    var notFoundOut: seq<Out> := if |entered| == 0 then [RouteNotFound] else [];
    var outs := ReconcileWith(cfg, s, loc, leaving).1;
    assert outs == notFoundOut + RouteCalls(openPass.0) + RouteCalls(closePass.0);
    RouteCallsAreCalls(openPass.0);
    RouteCallsAreCalls(closePass.0);
  }

  /** Nothing entered exactly when no binding's pattern matches. */
  lemma EnteredEmptyIff(cfg: Config, loc: Location)
    ensures |Entered(cfg, loc)| == 0 <==> HitRoutes(cfg, loc) == {}
  {
    var t := cfg.table;
    var m := LegacyMatch(cfg);
    var entered := Entered(cfg, loc);
    PartitionExact(t, |t|, loc, m, false);
    if |entered| > 0 {
      assert entered[0] in entered;
      assert t[entered[0].binding].route.id in HitRoutes(cfg, loc);
    }
    if HitRoutes(cfg, loc) != {} {
      var r :| r in HitRoutes(cfg, loc);
      var j :| 0 <= j < |t| && Hits(t, j, loc, m, false) && t[j].route.id == r;
      assert EntryAt(t, j, loc, m, false) in entered;
    }
  }


  /**
   * A navigation opens the route with the given params and query, and pushes plain pushes, one
   * per binding of the route, at least one of which exists exactly when the route is in the table.
   */
  lemma NavigateOpensAndPushes(cfg: Config, s: State, route: nat, params: Record, query: Record)
    ensures var (s2, outs) := NavigateStep(cfg, s, route, params, query);
      ViewOf(s2.views, route).isOpened && ViewOf(s2.views, route).params == params && ViewOf(s2.views, route).query == query &&
      (forall k :: 1 <= k < |outs| ==>
        (outs[k].Push? && !outs[k].replace && outs[k].params == params && outs[k].query == query &&
         outs[k].path in BuiltPaths(cfg.(serialize := None), route, params, query, 0))) &&
      (|outs| > 1 <==> |BuiltPaths(cfg.(serialize := None), route, params, query, 0)| > 0)
  {
    var c := cfg.(serialize := None);
    NavigatePushesPerBinding(c, route, params, query, false, 0);
    var (s2, outs) := NavigateStep(cfg, s, route, params, query);
    var pushes := NavigatePushes(c, route, params, query, false, 0);
    forall k | 1 <= k < |outs| ensures outs[k] == pushes[k - 1] { }
  }

  // ---------------------------------------------------------------------------------------
  // The stores as a class

  class Router {
    const cfg: Config
    var path: string
    var query: Record
    var activeRoutes: seq<nat>
    var views: map<nat, RouteView>

    function Current(): State
      reads this
    {
      State(path, query, activeRoutes, views)
    }

    constructor (cfg: Config)
      ensures this.cfg == cfg && Current() == Initial()
    {
      this.cfg := cfg;
      path, query, activeRoutes, views := "", map[], [], map[];
    }

    /** `recalculateFx` and its reactions, the left list deduplicated against the entered one. */
    method Recalculated(loc: Location) returns (outs: seq<Out>)
      modifies this
      ensures (Current(), outs) == Recalculate(cfg, old(Current()), loc)
    {
      var entered, leaving := Partition(cfg.table, loc, LegacyMatch(cfg), false);
      leaving := NullAndFilter(leaving, entered);
      path, query, activeRoutes := loc.path, loc.query, RouteIds(entered);
      var notFoundOut: seq<Out> := if |entered| == 0 then [RouteNotFound] else [];
      var openPass := GateMatched(BindingRules(), cfg.table, entered, views, false, 0);
      var closePass := GateMismatched(BindingRules(), cfg.table, leaving, openPass.1, 0);
      views := closePass.1;
      outs := notFoundOut + RouteCalls(openPass.0) + RouteCalls(closePass.0);
    }

    method Recheck(hl: HistoryLocation) returns (outs: seq<Out>)
      modifies this
      ensures (Current(), outs) == RecheckStep(cfg, old(Current()), hl)
    {
      outs := Recalculated(Location(hl.pathname, cfg.platform.searchParams.read(hl.search), ""));
    }

    method Pushed(pushedPath: string, pushedQuery: Record) returns (outs: seq<Out>)
      modifies this
      ensures (Current(), outs) == PushedStep(cfg, old(Current()), pushedPath, pushedQuery)
    {
      outs := Recalculated(Location(pushedPath, pushedQuery, ""));
    }

    method SetHistory(hl: HistoryLocation) returns (outs: seq<Out>)
      modifies this
      ensures (Current(), outs) == SetHistoryStep(cfg, old(Current()), hl)
    {
      if cfg.hydrate {
        outs := [];
      } else {
        outs := Recheck(hl);
      }
    }

    method RouteNavigated(route: nat, params: Record, query: Record) returns (outs: seq<Out>)
      modifies this
      ensures (Current(), outs) == NavigateStep(cfg, old(Current()), route, params, query)
    {
      var v := ViewOf(views, route);
      var n := if v.isOpened then Updated(Some(params), query) else Opened(Some(params), query);
      views := views[route := React(LegacyRoute, v, n)];
      outs := [RouteCall(RouteEvent(route, n))] + NavigatePushes(cfg.(serialize := None), route, params, query, false, 0);
    }
  }
}
