/**
 * The event-based `createHistoryRouter` over first-generation routes, with router controls:
 * every history change recalculates the table; `$path`, `$query` and `$activeRoutes` take the
 * result, `routesOpened` / `routesClosed` fire for non-empty lists, `routeNotFound` for an empty
 * matching list, and `$query` is copied into `controls.$query`, whose changes are pushed to the
 * history unless a route navigation is in flight.
 */
module ControlsRouter {
  import opened Wrappers
  import opened Js
  import opened Equality
  import Paths
  import RT = RouteTable
  import opened RouterCore
  import opened RouterEvents

  /** The stores `$path`, `$query`, `$activeRoutes`, `$isFirstCheckPassed`, `$isRouteNavigateInProgress`, the routes, the not-found route and `controls.$query`. */
  datatype State = State(
    path: string,
    query: Record,
    activeRoutes: seq<nat>,
    firstCheckPassed: bool,
    navInProgress: bool,
    views: map<nat, RouteView>,
    notFound: RouteView,
    controlsQuery: Record)

  function Initial(): State
  {
    State("", map[], [], false, false, map[], ClosedView, map[])
  }

  /** First-generation routes: found by route, `updated` only on a change, own `$params` / `$query`. */
  function LegacyRules(): Rules
  {
    Rules(false, UpdateWhenChanged, LegacyRoute)
  }

  /** This router always parses the search string with `URLSearchParams`. */
  function ReadQuery(cfg: Config, search: string): Record
  {
    cfg.platform.searchParams.read(search)
  }

  function Matching(cfg: Config, loc: Location): seq<Entry>
  {
    Matched(cfg.table, |cfg.table|, loc, Match(cfg), true)
  }

  function Closing(cfg: Config, loc: Location): seq<Entry>
  {
    WithoutRoutes(Missed(cfg.table, |cfg.table|, loc, Match(cfg), true), RoutesOf(Matching(cfg, loc)))
  }

  /**
   * The not-found route as written: `routeNotFound` opens or updates it, and then the closing
   * sample, clocked by every recalculation and filtered only by `$isOpened`, closes it if it
   * is open, whether or not anything matched.
   */
  function NotFoundAsWritten(cfg: Config, nf: RouteView, query: Record, nothingMatched: bool): (seq<Out>, RouteView)
  {
    if !cfg.hasNotFound then ([], nf)
    else
      var first := if nothingMatched then NotFoundStep(cfg, LegacyRoute, nf, query, true) else ([], nf);
      if first.1.isOpened then (first.0 + [NotFoundCall(Closed)], React(LegacyRoute, first.1, Closed)) else first
  }

  /**
   * `recalculated` with its lists and a not-found reaction: the stores take the path, the
   * query and the matched routes; `routesOpened` / `routesClosed` fire for non-empty lists and
   * reset the navigate flag before the guards read it; the matching routes are gated, then
   * the mismatching ones, then the not-found route, then `initialized` while the first check
   * has not passed.
   */
  function ReconcileWith(cfg: Config, s: State, loc: Location, matching: seq<Entry>, closing: seq<Entry>, nf: (seq<Out>, RouteView)): (State, seq<Out>)
  {
    var flag := if |matching| > 0 || |closing| > 0 then false else s.navInProgress;
    var s1 := s.(path := loc.path, query := loc.query, activeRoutes := RouteIds(matching), navInProgress := flag, firstCheckPassed := true);
    var openPass := if |matching| > 0 then GateMatched(LegacyRules(), cfg.table, matching, s.views, flag, 0) else ([], s.views);
    var closePass := if |closing| > 0 then GateMismatched(LegacyRules(), cfg.table, closing, openPass.1, 0) else ([], openPass.1);
    var notFoundOut: seq<Out> := if |matching| == 0 then [RouteNotFound] else [];
    var init: seq<Out> := if !s.firstCheckPassed then [Initialized(s1.activeRoutes, s1.path, s1.query)] else [];
    (s1.(views := closePass.1, notFound := nf.1),
     RouteCalls(openPass.0) + RouteCalls(closePass.0) + notFoundOut + nf.0 + init)
  }

  /** A recalculation as written. */
  function RecalculateAsWritten(cfg: Config, s: State, loc: Location): (State, seq<Out>)
  {
    var matching := Matching(cfg, loc);
    ReconcileWith(cfg, s, loc, matching, Closing(cfg, loc), NotFoundAsWritten(cfg, s.notFound, loc.query, |matching| == 0))
  }

  /** A recalculation whose not-found route is closed only when something matched. */
  function Recalculate(cfg: Config, s: State, loc: Location): (State, seq<Out>)
  {
    var matching := Matching(cfg, loc);
    ReconcileWith(cfg, s, loc, matching, Closing(cfg, loc), NotFoundStep(cfg, LegacyRoute, s.notFound, loc.query, |matching| == 0))
  }

  /** `historyUpdated`: the location's path, `URLSearchParams` query and hash, recalculated. */
  function HistoryUpdatedStep(cfg: Config, s: State, hl: HistoryLocation): (State, seq<Out>)
  {
    Recalculate(cfg, s, Location(hl.pathname, ReadQuery(cfg, hl.search), hl.hash))
  }

  /** `setHistory`: the first-check flag is reset and, unless hydrating, the location is read. */
  function SetHistoryStep(cfg: Config, s: State, hl: HistoryLocation): (State, seq<Out>)
  {
    var s0 := s.(firstCheckPassed := false);
    if cfg.hydrate then (s0, []) else HistoryUpdatedStep(cfg, s0, hl)
  }

  /**
   * A route's `navigate` with its normalised params and query: the route opens or updates
   * itself first; then each binding of it triggers `navigateFromRouteTriggered`, which sets the
   * navigate flag and pushes the built path, always as a plain push.
   */
  function NavigateStep(cfg: Config, s: State, route: nat, params: Record, query: Record): (State, seq<Out>)
  {
    var v := ViewOf(s.views, route);
    var n := if v.isOpened then Updated(Some(params), query) else Opened(Some(params), query);
    var pushes := NavigatePushes(cfg.(serialize := None), route, params, query, false, 0);
    (s.(views := s.views[route := React(LegacyRoute, v, n)], navInProgress := s.navInProgress || |pushes| > 0),
     [RouteCall(RouteEvent(route, n))] + pushes)
  }

  /** The path of a controls push: a `URLSearchParams` object is always truthy, so the `?` is always there. */
  function ControlsPushPath(cfg: Config, path: string, query: Record): (r: string)
    ensures |r| == |path| + 1 + |cfg.platform.searchParams.write(query)|
    ensures r[..|path|] == path && r[|path|] == '?' && r[|path| + 1..] == cfg.platform.searchParams.write(query)
  {
    path + "?" + cfg.platform.searchParams.write(query)
  }

  /**
   * `$query` changed: `controls.$query` takes it unless it is `paramsEqual` to the current
   * value, and a stored change is pushed when no route navigation is in flight.
   */
  function QueryChangedStep(cfg: Config, s: State): (State, seq<Out>)
  {
    if Equals(s.query, s.controlsQuery) then (s, [])
    else
      var s1 := s.(controlsQuery := s.query);
      if s1.navInProgress then (s1, []) else (s1, [Push(ControlsPushPath(cfg, s1.path, s1.query), map[], s1.query, false)])
  }

  // ---------------------------------------------------------------------------------------
  // Properties

  /** A recalculation leaves every route of the table open exactly when one of its bindings matched. */
  lemma RecalculationSyncsRoutes(cfg: Config, s: State, loc: Location)
    ensures var s2 := Recalculate(cfg, s, loc).0;
      forall j :: 0 <= j < |cfg.table| ==>
        (ViewOf(s2.views, cfg.table[j].route.id).isOpened <==> cfg.table[j].route.id in RoutesOf(Matching(cfg, loc)))
  {
    var matching := Matching(cfg, loc);
    ReconcileSyncsRoutes(LegacyRules(), cfg.table, loc, Match(cfg), true, s.views);
    GateOnEmpty(LegacyRules(), cfg.table, s.views, false, 0);
    GateOnEmpty(LegacyRules(), cfg.table, s.views, s.navInProgress, 0);
    var mid := GateMatched(LegacyRules(), cfg.table, matching, s.views, false, 0).1;
    GateOnEmpty(LegacyRules(), cfg.table, mid, false, 0);
  }

  /**
   * As written, a recalculation that matches nothing leaves the not-found route closed: the
   * last call on it is `closed`, right after it was opened or updated.
   */
  lemma NotFoundClosedWhenNothingMatches(cfg: Config, s: State, loc: Location)
    requires cfg.hasNotFound && |Matching(cfg, loc)| == 0
    ensures var (s2, outs) := RecalculateAsWritten(cfg, s, loc);
      !s2.notFound.isOpened && RouteNotFound in outs && outs[|outs| - 1 - (if s.firstCheckPassed then 0 else 1)] == NotFoundCall(Closed)
  {
    var (s2, outs) := RecalculateAsWritten(cfg, s, loc);
    var nf := NotFoundAsWritten(cfg, s.notFound, loc.query, true);
    assert |nf.0| == 2 && nf.0[1] == NotFoundCall(Closed);
    GateOnEmpty(LegacyRules(), cfg.table, s.views, false, 0);
    var closePass := if |Closing(cfg, loc)| > 0 then GateMismatched(LegacyRules(), cfg.table, Closing(cfg, loc), s.views, 0) else ([], s.views);
    var init: seq<Out> := if !s.firstCheckPassed then [Initialized(RouteIds([]), loc.path, loc.query)] else [];
    assert outs == [] + RouteCalls(closePass.0) + [RouteNotFound] + nf.0 + init;
    assert RouteNotFound == outs[|RouteCalls(closePass.0)|];
  }

  /**
   * With the closing sample filtered on a non-empty matching list, `routeNotFound` fires exactly
   * when nothing matched and the not-found route is open afterwards exactly then.
   */
  lemma NotFoundExactlyWhenNothingMatches(cfg: Config, s: State, loc: Location)
    ensures var (s2, outs) := Recalculate(cfg, s, loc);
      (RouteNotFound in outs <==> |Matching(cfg, loc)| == 0) &&
      (cfg.hasNotFound ==> (s2.notFound.isOpened <==> |Matching(cfg, loc)| == 0))
  {
    var matching := Matching(cfg, loc);
    var nf := NotFoundStep(cfg, LegacyRoute, s.notFound, loc.query, |matching| == 0);
    assert forall o :: o in nf.0 ==> o.NotFoundCall?;
    ReconcileWithMarkers(cfg, s, loc, matching, Closing(cfg, loc), nf);
  }

  /**
   * With not-found outputs that are all calls on the not-found route, `routeNotFound` fires
   * exactly on an empty matching list and `initialized` exactly on the first check.
   */
  lemma ReconcileWithMarkers(cfg: Config, s: State, loc: Location, matching: seq<Entry>, closing: seq<Entry>, nf: (seq<Out>, RouteView))
    requires forall o :: o in nf.0 ==> o.NotFoundCall?
    ensures var (s2, outs) := ReconcileWith(cfg, s, loc, matching, closing, nf);
      s2.notFound == nf.1 && s2.firstCheckPassed &&
      (RouteNotFound in outs <==> |matching| == 0) &&
      (Initialized(s2.activeRoutes, s2.path, s2.query) in outs <==> !s.firstCheckPassed) &&
      (forall o :: o in outs && o.Initialized? ==> o == Initialized(s2.activeRoutes, s2.path, s2.query))
  {
    var flag := if |matching| > 0 || |closing| > 0 then false else s.navInProgress;
    var openPass := if |matching| > 0 then GateMatched(LegacyRules(), cfg.table, matching, s.views, flag, 0) else ([], s.views);
    var closePass := if |closing| > 0 then GateMismatched(LegacyRules(), cfg.table, closing, openPass.1, 0) else ([], openPass.1);
    var notFoundOut: seq<Out> := if |matching| == 0 then [RouteNotFound] else [];
    var (s2, outs) := ReconcileWith(cfg, s, loc, matching, closing, nf);
    var init: seq<Out> := if !s.firstCheckPassed then [Initialized(s2.activeRoutes, s2.path, s2.query)] else [];
    var pre := RouteCalls(openPass.0) + RouteCalls(closePass.0) + notFoundOut + nf.0;
    assert outs == pre + init;
    RouteCallsAreCalls(openPass.0);
    RouteCallsAreCalls(closePass.0);
    assert forall o :: o in pre ==> !o.Initialized?;
    assert RouteNotFound in pre <==> |matching| == 0;
  }


  /** `initialized` fires exactly while the first check has not passed, with the stores as they are afterwards. */
  lemma InitializedOnFirstCheck(cfg: Config, s: State, loc: Location)
    ensures var (s2, outs) := Recalculate(cfg, s, loc);
      s2.firstCheckPassed &&
      (Initialized(s2.activeRoutes, s2.path, s2.query) in outs <==> !s.firstCheckPassed) &&
      (forall o :: o in outs && o.Initialized? ==> o == Initialized(s2.activeRoutes, s2.path, s2.query))
  {
    var matching := Matching(cfg, loc);
    var nf := NotFoundStep(cfg, LegacyRoute, s.notFound, loc.query, |matching| == 0);
    assert forall o :: o in nf.0 ==> o.NotFoundCall?;
    ReconcileWithMarkers(cfg, s, loc, matching, Closing(cfg, loc), nf);
  }


  /**
   * A navigation opens the route, and its pushes are plain pushes, one per binding at least
   * one of which exists exactly when the route is in the table.
   */
  lemma NavigateOpensAndPushes(cfg: Config, s: State, route: nat, params: Record, query: Record)
    ensures var (s2, outs) := NavigateStep(cfg, s, route, params, query);
      ViewOf(s2.views, route).isOpened && ViewOf(s2.views, route).params == params && ViewOf(s2.views, route).query == query &&
      (forall k :: 1 <= k < |outs| ==> outs[k].Push? && !outs[k].replace && outs[k].path in BuiltPaths(cfg.(serialize := None), route, params, query, 0)) &&
      (|outs| > 1 <==> |BuiltPaths(cfg.(serialize := None), route, params, query, 0)| > 0)
  {
    var c := cfg.(serialize := None);
    NavigatePushesPerBinding(c, route, params, query, false, 0);
    var (s2, outs) := NavigateStep(cfg, s, route, params, query);
    var pushes := NavigatePushes(c, route, params, query, false, 0);
    forall k | 1 <= k < |outs| ensures outs[k] == pushes[k - 1] { }
  }

  /**
   * Every query change that reaches the controls is pushed back when no navigation is in flight,
   * even one that came from the history: after a recalculation over a non-empty table the flag
   * is clear, so a changed query is pushed as `path?query`.
   */
  lemma HistoryQueryIsPushedBack(cfg: Config, s: State, loc: Location)
    requires |cfg.table| > 0
    requires !Equals(loc.query, s.controlsQuery)
    ensures var s2 := Recalculate(cfg, s, loc).0;
      QueryChangedStep(cfg, s2).1 == [Push(ControlsPushPath(cfg, loc.path, loc.query), map[], loc.query, false)]
  {
    var matching := Matching(cfg, loc);
    SomeBindingListed(cfg, loc);
    ReconcileWithStores(cfg, s, loc, matching, Closing(cfg, loc), NotFoundStep(cfg, LegacyRoute, s.notFound, loc.query, |matching| == 0));
  }

  /** A recalculation stores the location, keeps the controls' query and clears the flag once some list is non-empty. */
  lemma ReconcileWithStores(cfg: Config, s: State, loc: Location, matching: seq<Entry>, closing: seq<Entry>, nf: (seq<Out>, RouteView))
    ensures var s2 := ReconcileWith(cfg, s, loc, matching, closing, nf).0;
      s2.path == loc.path && s2.query == loc.query && s2.controlsQuery == s.controlsQuery &&
      (|matching| > 0 || |closing| > 0 ==> !s2.navInProgress)
  {
  }

  /** With a non-empty table every recalculation lists some binding as matching or as closing. */
  lemma SomeBindingListed(cfg: Config, loc: Location)
    requires |cfg.table| > 0
    ensures |Matching(cfg, loc)| > 0 || |Closing(cfg, loc)| > 0
  {
    PartitionExact(cfg.table, |cfg.table|, loc, Match(cfg), true);
    if |Matching(cfg, loc)| == 0 {
      assert RoutesOf([]) == {};
      WithoutRoutesMembers(Missed(cfg.table, |cfg.table|, loc, Match(cfg), true), {});
      assert Missed(cfg.table, |cfg.table|, loc, Match(cfg), true)[0] in Closing(cfg, loc);
    }
  }


  // ---------------------------------------------------------------------------------------
  // The stores as a class

  class Router {
    const cfg: Config
    var path: string
    var query: Record
    var activeRoutes: seq<nat>
    var firstCheckPassed: bool
    var navInProgress: bool
    var views: map<nat, RouteView>
    var notFound: RouteView
    var controlsQuery: Record

    function Current(): State
      reads this
    {
      State(path, query, activeRoutes, firstCheckPassed, navInProgress, views, notFound, controlsQuery)
    }

    constructor (cfg: Config)
      ensures this.cfg == cfg && Current() == Initial()
    {
      this.cfg := cfg;
      path, query, activeRoutes := "", map[], [];
      firstCheckPassed, navInProgress := false, false;
      views, notFound, controlsQuery := map[], ClosedView, map[];
    }

    /** `recalculated`, given the lists. */
    method Recalculated(loc: Location, openedList: seq<Entry>, closedList: seq<Entry>) returns (outs: seq<Out>)
      modifies this
      ensures (Current(), outs) == ReconcileWith(cfg, old(Current()), loc, openedList, closedList,
        NotFoundStep(cfg, LegacyRoute, old(notFound), loc.query, |openedList| == 0))
    {
      var wasPassed := firstCheckPassed;
      path, query, activeRoutes := loc.path, loc.query, RouteIds(openedList);
      if |openedList| > 0 || |closedList| > 0 {
        navInProgress := false;
      }
      var openPass := if |openedList| > 0 then GateMatched(LegacyRules(), cfg.table, openedList, views, navInProgress, 0) else ([], views);
      views := openPass.1;
      var closePass := if |closedList| > 0 then GateMismatched(LegacyRules(), cfg.table, closedList, views, 0) else ([], views);
      views := closePass.1;
      var notFoundOut: seq<Out> := if |openedList| == 0 then [RouteNotFound] else [];
      var nf := NotFoundStep(cfg, LegacyRoute, notFound, loc.query, |openedList| == 0);
      notFound := nf.1;
      var init: seq<Out> := if !wasPassed then [Initialized(activeRoutes, path, query)] else [];
      firstCheckPassed := true;
      outs := RouteCalls(openPass.0) + RouteCalls(closePass.0) + notFoundOut + nf.0 + init;
    }

    method HistoryUpdated(hl: HistoryLocation) returns (outs: seq<Out>)
      modifies this
      ensures (Current(), outs) == HistoryUpdatedStep(cfg, old(Current()), hl)
    {
      var loc := Location(hl.pathname, ReadQuery(cfg, hl.search), hl.hash);
      var openedList, closedList := Partition(cfg.table, loc, Match(cfg), true);
      closedList := NullAndFilter(closedList, openedList);
      outs := Recalculated(loc, openedList, closedList);
    }

    method SetHistory(hl: HistoryLocation) returns (outs: seq<Out>)
      modifies this
      ensures (Current(), outs) == SetHistoryStep(cfg, old(Current()), hl)
    {
      firstCheckPassed := false;
      if cfg.hydrate {
        outs := [];
      } else {
        outs := HistoryUpdated(hl);
      }
    }

    method RouteNavigated(route: nat, params: Record, query: Record) returns (outs: seq<Out>)
      modifies this
      ensures (Current(), outs) == NavigateStep(cfg, old(Current()), route, params, query)
    {
      var v := ViewOf(views, route);
      var n := if v.isOpened then Updated(Some(params), query) else Opened(Some(params), query);
      views := views[route := React(LegacyRoute, v, n)];
      var pushes := NavigatePushes(cfg.(serialize := None), route, params, query, false, 0);
      if |pushes| > 0 {
        navInProgress := true;
      }
      outs := [RouteCall(RouteEvent(route, n))] + pushes;
    }

    method QueryChanged() returns (outs: seq<Out>)
      modifies this
      ensures (Current(), outs) == QueryChangedStep(cfg, old(Current()))
    {
      if Equals(query, controlsQuery) {
        outs := [];
        return;
      }
      controlsQuery := query;
      if navInProgress {
        outs := [];
      } else {
        outs := [Push(ControlsPushPath(cfg, path, query), map[], query, false)];
      }
    }
  }
}
