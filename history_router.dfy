/**
 * The current `createHistoryRouter`: it listens to a history, recalculates which bindings
 * match the new location, and drives the routes, the not-found route, `initialized` and the
 * query controls. Its stores are the fields of `Router`; each event is a method whose effect
 * is the step function of the same name.
 *
 * Each event's direct store writes land before the guards it triggers read them, and the
 * guards of the bindings run one after the other, each seeing the route calls of the ones
 * before it.
 */
module HistoryRouter {
  import opened Wrappers
  import opened Js
  import opened Equality
  import Paths
  import RT = RouteTable
  import opened RouterCore
  import opened RouterEvents

  /** The stores `$path`, `$query`, `$activeRoutes`, `$isFirstCheckPassed`, `$isRouteNavigateInProgress`, the routes, the not-found route and `controls.$query`. */
  datatype State = State(
    path: string,
    query: Record,
    activeRoutes: seq<nat>,
    firstCheckPassed: bool,
    navInProgress: bool,
    views: map<nat, RouteView>,
    notFound: RouteView,
    controlsQuery: Record)

  function Initial(): State
  {
    State("", map[], [], false, false, map[], ClosedView, map[])
  }

  function Matching(cfg: Config, loc: Location): seq<Entry>
  {
    Matched(cfg.table, |cfg.table|, loc, Match(cfg), true)
  }

  function Missing(cfg: Config, loc: Location): seq<Entry>
  {
    Missed(cfg.table, |cfg.table|, loc, Match(cfg), true)
  }

  /** The mismatching list the code produces: after the splice walk. */
  function ClosingAsWritten(cfg: Config, loc: Location): seq<Entry>
  {
    SpliceFrom(Missing(cfg, loc), RoutesOf(Matching(cfg, loc)), 0)
  }

  /** The mismatching list the comment asks for: every entry whose route also matches removed. */
  function ClosingIntended(cfg: Config, loc: Location): seq<Entry>
  {
    WithoutRoutes(Missing(cfg, loc), RoutesOf(Matching(cfg, loc)))
  }

  /**
   * `recalculated` with its lists: `$activeRoutes` and the navigate flag are written first,
   * then the routes of the matching list are gated (when it is not empty), then `routeNotFound`
   * and the not-found route (when it is empty), then the routes of the mismatching list (when
   * it is not empty), then `initialized` (when the first check has not passed yet).
   */
  function Reconcile(cfg: Config, s: State, matching: seq<Entry>, closing: seq<Entry>): (State, seq<Out>)
  {
    var s1 := s.(activeRoutes := RouteIds(matching),
                 navInProgress := if |matching| > 0 || |closing| > 0 then false else s.navInProgress);
    var rules := MethodsRouteRules(cfg);
    var openPass := if |matching| > 0 then GateMatched(rules, cfg.table, matching, s1.views, s1.navInProgress, 0) else ([], s1.views);
    var notFoundOut: seq<Out> := if |matching| == 0 then [RouteNotFound] else [];
    var nf := NotFoundStep(cfg, MethodsRouteRules(cfg).kind, s1.notFound, s1.query, |matching| == 0);
    var closePass := if |closing| > 0 then GateMismatched(rules, cfg.table, closing, openPass.1, 0) else ([], openPass.1);
    var init: seq<Out> := if !s1.firstCheckPassed then [Initialized(s1.activeRoutes, s1.path, s1.query)] else [];
    (s1.(views := closePass.1, notFound := nf.1, firstCheckPassed := true),
     RouteCalls(openPass.0) + notFoundOut + nf.0 + RouteCalls(closePass.0) + init)
  }

  /**
   * `historyUpdated`: the location is parsed; when neither the path differs from `$path` nor
   * the query from `$query` (under `paramsEqual`) nothing happens. Otherwise `$path` and
   * `$query` take the new values (the query store only when it changes) and the table is
   * recalculated against the path, hash and query.
   */
  function HistoryUpdatedStep(cfg: Config, s: State, hl: HistoryLocation): (State, seq<Out>)
  {
    var parsedQuery := ParseQuery(cfg, hl.search);
    if hl.pathname == s.path && Equals(parsedQuery, s.query) then (s, [])
    else
      var s1 := s.(path := hl.pathname, query := if Equals(parsedQuery, s.query) then s.query else parsedQuery);
      var loc := Location(hl.pathname, parsedQuery, hl.hash);
      Reconcile(cfg, s1, Matching(cfg, loc), ClosingIntended(cfg, loc))
  }

  /** `setHistory`: the first-check flag is reset and, unless hydrating, the new location is read. */
  function SetHistoryStep(cfg: Config, s: State, hl: HistoryLocation): (State, seq<Out>)
  {
    var s0 := s.(firstCheckPassed := false);
    if cfg.hydrate then (s0, []) else HistoryUpdatedStep(cfg, s0, hl)
  }

  /**
   * A route's `navigate`: its pushes (`replace` when the flag is truthy), and the navigate flag
   * set when there is one. The path helper this generation imports takes no serializer: it
   * always writes the query as URLSearchParams text, whatever `serialize` holds.
   */
  function NavigateStep(cfg: Config, s: State, route: nat, params: Record, query: Record, replace: JsValue): (State, seq<Out>)
  {
    var pushes := NavigatePushes(cfg.(serialize := None), route, params, query, Truthy(replace), 0);
    (if |pushes| > 0 then s.(navInProgress := true) else s, pushes)
  }

  /**
   * The path a controls query push goes to: `path` and `?qs` when `qs` is truthy. A custom
   * serializer's empty string is falsy; a URLSearchParams object never is, so without a
   * serializer the `?` is always there.
   */
  function ControlsPushPath(cfg: Config, path: string, query: Record): (r: string)
    ensures cfg.serialize.None? ==> r == path + "?" + cfg.platform.searchParams.write(query)
    ensures cfg.serialize.Some? ==> (r == path <==> cfg.serialize.value.write(query) == "")
    ensures cfg.serialize.Some? && cfg.serialize.value.write(query) != "" ==> r == path + "?" + cfg.serialize.value.write(query)
  {
    match cfg.serialize
    case Some(c) =>
      var qs := c.write(query);
      if qs != "" then path + "?" + qs else path
    case None => path + "?" + cfg.platform.searchParams.write(query)
  }

  /**
   * `controls.$query` receives `q`: the store ignores a `paramsEqual` value; otherwise it is
   * written and a push follows when a route navigation is in flight, when `q` differs from
   * the history's real query, or when it differs from `$query`.
   */
  function ControlsQueryStep(cfg: Config, s: State, q: Record, realSearch: string): (State, seq<Out>)
  {
    if Equals(s.controlsQuery, q) then (s, [])
    else
      var s1 := s.(controlsQuery := q);
      if s1.navInProgress || !Equals(q, ParseQuery(cfg, realSearch)) || !Equals(s1.query, q) then
        (s1, [Push(ControlsPushPath(cfg, s1.path, q), map[], q, false)])
      else (s1, [])
  }

  /** A change of `$query` is copied to `controls.$query` when they differ. */
  function SyncQueryStep(cfg: Config, s: State, realSearch: string): (State, seq<Out>)
  {
    if !Equals(s.controlsQuery, s.query) then ControlsQueryStep(cfg, s, s.query, realSearch) else (s, [])
  }

  // ---------------------------------------------------------------------------------------
  // Properties of a recalculation

  /** `routeNotFound` fires exactly when nothing matched. */
  lemma RouteNotFoundIffNothingMatched(cfg: Config, s: State, matching: seq<Entry>, closing: seq<Entry>)
    ensures RouteNotFound in Reconcile(cfg, s, matching, closing).1 <==> |matching| == 0
  {
    var outs := Reconcile(cfg, s, matching, closing).1;
    if |matching| == 0 {
      assert RouteCalls([]) == [];
      assert outs[0] == RouteNotFound;
    }
  }

  /**
   * `initialized` fires exactly when the first check has not passed, with the active routes,
   * path and query the stores hold after the recalculation; afterwards the check has passed.
   */
  lemma InitializedOnce(cfg: Config, s: State, matching: seq<Entry>, closing: seq<Entry>)
    ensures var (s2, outs) := Reconcile(cfg, s, matching, closing);
      s2.firstCheckPassed &&
      (Initialized(RouteIds(matching), s.path, s.query) in outs <==> !s.firstCheckPassed) &&
      (forall o :: o in outs && o.Initialized? ==> o == Initialized(s2.activeRoutes, s2.path, s2.query))
  {
    var rules := MethodsRouteRules(cfg);
    var flag := if |matching| > 0 || |closing| > 0 then false else s.navInProgress;
    var openPass := if |matching| > 0 then GateMatched(rules, cfg.table, matching, s.views, flag, 0) else ([], s.views);
    var nf := NotFoundStep(cfg, rules.kind, s.notFound, s.query, |matching| == 0);
    NotFoundStepCalls(cfg, rules.kind, s.notFound, s.query, |matching| == 0);
    var closePass := if |closing| > 0 then GateMismatched(rules, cfg.table, closing, openPass.1, 0) else ([], openPass.1);
    InitializedLast(openPass.0, nf.0, closePass.0, Initialized(RouteIds(matching), s.path, s.query), |matching| == 0, !s.firstCheckPassed);
  }



  /** After a recalculation `$activeRoutes` lists the routes of the matching bindings, in table order. */
  lemma ActiveRoutesAreMatches(cfg: Config, s: State, loc: Location)
    ensures var s2 := Reconcile(cfg, s, Matching(cfg, loc), ClosingIntended(cfg, loc)).0;
      |s2.activeRoutes| == |Matching(cfg, loc)| &&
      forall k :: 0 <= k < |s2.activeRoutes| ==>
        var e := Matching(cfg, loc)[k];
        e.binding < |cfg.table| && s2.activeRoutes[k] == cfg.table[e.binding].route.id &&
        Hits(cfg.table, e.binding, loc, Match(cfg), true)
  {
    PartitionExact(cfg.table, |cfg.table|, loc, Match(cfg), true);
    var ms := Matching(cfg, loc);
    forall k | 0 <= k < |ms| ensures ms[k] in ms { }
  }

  /**
   * Every push of a navigation carries the payload and `replace` as its truthiness, and goes to
   * the path `buildPath` makes for one of the route's bindings without a serializer; there is a
   * push exactly when the route is in the table.
   */
  lemma NavigatePushesEachBinding(cfg: Config, s: State, route: nat, params: Record, query: Record, replace: JsValue)
    ensures forall o :: o in NavigateStep(cfg, s, route, params, query, replace).1 ==>
      o.Push? && o.params == params && o.query == query && o.replace == Truthy(replace) &&
      exists j :: 0 <= j < |cfg.table| && cfg.table[j].route.id == route &&
        o.path == Paths.BuildPath(cfg.platform, cfg.table[j].path, params, query, None)
    ensures |NavigateStep(cfg, s, route, params, query, replace).1| > 0 <==> route in TableRoutes(cfg.table)
  {
    var c := cfg.(serialize := None);
    NavigatePushesPerBinding(c, route, params, query, Truthy(replace), 0);
    BuiltPathsExistIff(c, route, params, query);
    forall o | o in NavigatePushes(c, route, params, query, Truthy(replace), 0)
      ensures o.Push? && o.params == params && o.query == query && o.replace == Truthy(replace) &&
        exists j :: 0 <= j < |cfg.table| && cfg.table[j].route.id == route &&
          o.path == Paths.BuildPath(cfg.platform, cfg.table[j].path, params, query, None)
    {
      SerializerlessPush(cfg, route, params, query, Truthy(replace), o);
    }
  }

  /** One navigate push built without a serializer, spelt out as the path `buildPath` makes for one binding. */
  lemma SerializerlessPush(cfg: Config, route: nat, params: Record, query: Record, replace: bool, o: Out)
    requires o in NavigatePushes(cfg.(serialize := None), route, params, query, replace, 0)
    ensures o.Push? && o.params == params && o.query == query && o.replace == replace &&
      exists j :: 0 <= j < |cfg.table| && cfg.table[j].route.id == route &&
        o.path == Paths.BuildPath(cfg.platform, cfg.table[j].path, params, query, None)
  {
    var c := cfg.(serialize := None);
    var outs := NavigatePushes(c, route, params, query, replace, 0);
    NavigatePushesInBuiltPaths(c, route, params, query, replace, 0);
    var k :| 0 <= k < |outs| && outs[k] == o;
    var j :| 0 <= j < |c.table| && c.table[j].route.id == route && o.path == BindingPath(c, j, params, query);
  }

  /** A navigation sets the navigate flag exactly when the route is in the table, and changes no other store. */
  lemma NavigateSetsFlag(cfg: Config, s: State, route: nat, params: Record, query: Record, replace: JsValue)
    ensures var s2 := NavigateStep(cfg, s, route, params, query, replace).0;
      s2.navInProgress == (s.navInProgress || route in TableRoutes(cfg.table)) &&
      s2.(navInProgress := s.navInProgress) == s
  {
    NavigatePushesEachBinding(cfg, s, route, params, query, replace);
  }

  /**
   * The navigate flag never suppresses anything: it is reset by `routesMatched` /
   * `routesMismatched` before their guards read it, so the calls are the same whatever it held.
   */
  lemma NavigationFlagNeverSuppresses(cfg: Config, s: State, matching: seq<Entry>, closing: seq<Entry>, flag: bool)
    ensures Reconcile(cfg, s, matching, closing).1 == Reconcile(cfg, s.(navInProgress := flag), matching, closing).1
  {
  }

  /** Reading a location a second time is quiet: nothing fires and nothing changes. */
  lemma RereadIsQuiet(cfg: Config, s: State, hl: HistoryLocation)
    ensures var s2 := HistoryUpdatedStep(cfg, s, hl).0;
      HistoryUpdatedStep(cfg, s2, hl) == (s2, [])
  {
    var parsedQuery := ParseQuery(cfg, hl.search);
    EqualsReflexive(parsedQuery);
  }

  /** With a non-empty table a recalculation always clears the navigate flag and keeps `$query`. */
  lemma RecalculationClearsFlag(cfg: Config, s: State, loc: Location)
    requires |cfg.table| > 0
    ensures var s2 := Reconcile(cfg, s, Matching(cfg, loc), ClosingIntended(cfg, loc)).0;
      !s2.navInProgress && s2.query == s.query
  {
    SomeBindingListed(cfg, loc);
    ReconcileStores(cfg, s, Matching(cfg, loc), ClosingIntended(cfg, loc));
  }

  /** A recalculation keeps the path and the queries and clears the flag once some list is non-empty. */
  lemma ReconcileStores(cfg: Config, s: State, matching: seq<Entry>, closing: seq<Entry>)
    ensures var s2 := Reconcile(cfg, s, matching, closing).0;
      s2.path == s.path && s2.query == s.query && s2.controlsQuery == s.controlsQuery &&
      (|matching| > 0 || |closing| > 0 ==> !s2.navInProgress)
  {
  }

  /** With a non-empty table every recalculation lists some binding as matching or as closing. */
  lemma SomeBindingListed(cfg: Config, loc: Location)
    requires |cfg.table| > 0
    ensures |Matching(cfg, loc)| > 0 || |ClosingIntended(cfg, loc)| > 0
  {
    PartitionExact(cfg.table, |cfg.table|, loc, Match(cfg), true);
    if |Matching(cfg, loc)| == 0 {
      assert RoutesOf([]) == {};
      WithoutRoutesMembers(Missing(cfg, loc), {});
      assert Missing(cfg, loc)[0] in ClosingIntended(cfg, loc);
    }
  }


  /**
   * With a non-empty table, a query that came from a new location is not pushed back: after the
   * recalculation the navigate flag is clear, and the controls receive the history's query
   * (or one `paramsEqual` to it). Queries hold no `undefined` values here, as every parser
   * yields strings; with one the comparison is not symmetric.
   */
  lemma HistoryQueryIsNotEchoed(cfg: Config, s: State, hl: HistoryLocation)
    requires |cfg.table| > 0
    requires Defined(s.query) && Defined(ParseQuery(cfg, hl.search))
    requires hl.pathname != s.path || !Equals(ParseQuery(cfg, hl.search), s.query)
    ensures var s2 := HistoryUpdatedStep(cfg, s, hl).0;
      SyncQueryStep(cfg, s2, hl.search).1 == []
  {
    var parsedQuery := ParseQuery(cfg, hl.search);
    EqualsReflexive(parsedQuery);
    {
      var s1 := s.(path := hl.pathname, query := if Equals(parsedQuery, s.query) then s.query else parsedQuery);
      var loc := Location(hl.pathname, parsedQuery, hl.hash);
      RecalculationClearsFlag(cfg, s1, loc);
      var s2 := Reconcile(cfg, s1, Matching(cfg, loc), ClosingIntended(cfg, loc)).0;
      assert HistoryUpdatedStep(cfg, s, hl).0 == s2;
      EqualsSymmetricWhenDefined(parsedQuery, s.query);
      assert Equals(s2.query, parsedQuery);
      EqualsReflexive(s2.query);
    }
  }

  // ---------------------------------------------------------------------------------------
  // The alias dedup: as written and as intended

  /**
   * As written, the splice walk can leave a stale alias behind: for a route bound three times
   * whose first pattern matches and whose other two do not, the third binding stays in the
   * mismatching list.
   */
  lemma SpliceLeavesStaleAlias(cfg: Config, loc: Location, r: nat)
    requires |cfg.table| == 3 && forall j :: 0 <= j < 3 ==> cfg.table[j].route.id == r
    requires Hits(cfg.table, 0, loc, Match(cfg), true)
    requires !Hits(cfg.table, 1, loc, Match(cfg), true) && !Hits(cfg.table, 2, loc, Match(cfg), true)
    ensures Matching(cfg, loc) == [EntryAt(cfg.table, 0, loc, Match(cfg), true)]
    ensures ClosingAsWritten(cfg, loc) == [EntryAt(cfg.table, 2, loc, Match(cfg), true)]
    ensures r in RoutesOf(Matching(cfg, loc))
  {
    var t := cfg.table;
    var m := Match(cfg);
    var e0, e1, e2 := EntryAt(t, 0, loc, m, true), EntryAt(t, 1, loc, m, true), EntryAt(t, 2, loc, m, true);
    assert Matched(t, 1, loc, m, true) == [e0];
    assert Matched(t, 3, loc, m, true) == [e0];
    assert Missed(t, 1, loc, m, true) == [];
    assert Missed(t, 3, loc, m, true) == [e1, e2];
    assert e0 in [e0];
    var rs := RoutesOf([e0]);
    assert r in rs;
    assert [e1, e2][..0] + [e1, e2][1..] == [e2];
    assert SpliceFrom([e1, e2], rs, 0) == SpliceFrom([e2], rs, 1) == [e2];
  }

  /** A recalculation whose lists hold the same route on both sides closes it. */
  lemma ReconcileClosesBothSided(cfg: Config, s: State, e0: Entry, e2: Entry, r: nat)
    requires |cfg.table| == 3 && forall j :: 0 <= j < 3 ==> cfg.table[j].route.id == r
    requires e0.route == r && e2.route == r
    ensures var (s2, outs) := Reconcile(cfg, s, [e0], [e2]);
      RouteCall(RouteEvent(r, Closed)) in outs && !ViewOf(s2.views, r).isOpened
  {
    var t := cfg.table;
    var s1 := s.(activeRoutes := RouteIds([e0]), navInProgress := false);
    var rules := MethodsRouteRules(cfg);
    assert e0 in [e0];
    var mid := GateMatched(rules, t, [e0], s1.views, false, 0);
    GateMatchedOpensAll(rules, t, [e0], s1.views, 0);
    assert ViewOf(mid.1, r).isOpened;
    assert e2 in [e2];
    assert Lookup(rules, [e2], t, 0) == Some(e2);
    var vs' := mid.1[r := React(rules.kind, ViewOf(mid.1, r), Closed)];
    var closePass := GateMismatched(rules, t, [e2], mid.1, 0);
    var rest := GateMismatched(rules, t, [e2], vs', 1);
    assert closePass.0 == [RouteEvent(r, Closed)] + rest.0;
    GateMismatchedEdges(rules, t, [e2], vs', 1);
    assert !ViewOf(vs', r).isOpened;
    var (s2, outs) := Reconcile(cfg, s, [e0], [e2]);
    assert outs == RouteCalls(mid.0) + [] + NotFoundStep(cfg, MethodsRouteRules(cfg).kind, s1.notFound, s1.query, false).0 + RouteCalls(closePass.0) +
      (if !s1.firstCheckPassed then [Initialized(s1.activeRoutes, s1.path, s1.query)] else []);
    assert RouteCalls(closePass.0)[0] == RouteCall(RouteEvent(r, Closed));
  }

  /**
   * The consequence: that route is closed by the recalculation although one of its bindings
   * matched.
   */
  lemma SpliceClosesMatchedRoute(cfg: Config, s: State, loc: Location, r: nat)
    requires |cfg.table| == 3 && forall j :: 0 <= j < 3 ==> cfg.table[j].route.id == r
    requires Hits(cfg.table, 0, loc, Match(cfg), true)
    requires !Hits(cfg.table, 1, loc, Match(cfg), true) && !Hits(cfg.table, 2, loc, Match(cfg), true)
    ensures r in RoutesOf(Matching(cfg, loc))
    ensures var (s2, outs) := Reconcile(cfg, s, Matching(cfg, loc), ClosingAsWritten(cfg, loc));
      RouteCall(RouteEvent(r, Closed)) in outs && !ViewOf(s2.views, r).isOpened
  {
    SpliceLeavesStaleAlias(cfg, loc, r);
    ReconcileClosesBothSided(cfg, s, EntryAt(cfg.table, 0, loc, Match(cfg), true), EntryAt(cfg.table, 2, loc, Match(cfg), true), r);
  }

  /**
   * With the intended dedup a recalculation leaves every route of the table open exactly when
   * one of its bindings matched the location.
   */
  lemma IntendedReconcileSyncsRoutes(cfg: Config, s: State, loc: Location)
    ensures var s2 := Reconcile(cfg, s, Matching(cfg, loc), ClosingIntended(cfg, loc)).0;
      forall j :: 0 <= j < |cfg.table| ==>
        (ViewOf(s2.views, cfg.table[j].route.id).isOpened <==> cfg.table[j].route.id in RoutesOf(Matching(cfg, loc)))
  {
    var rules := MethodsRouteRules(cfg);
    var matching := Matching(cfg, loc);
    var closing := ClosingIntended(cfg, loc);
    ReconcileSyncsRoutes(rules, cfg.table, loc, Match(cfg), true, s.views);
    GateOnEmpty(rules, cfg.table, s.views, false, 0);
    GateOnEmpty(rules, cfg.table, s.views, s.navInProgress, 0);
    var mid := GateMatched(rules, cfg.table, matching, s.views, false, 0).1;
    GateOnEmpty(rules, cfg.table, mid, false, 0);
  }

  // ---------------------------------------------------------------------------------------
  // The stores as a class

  class Router {
    const cfg: Config
    var path: string
    var query: Record
    var activeRoutes: seq<nat>
    var firstCheckPassed: bool
    var navInProgress: bool
    var views: map<nat, RouteView>
    var notFound: RouteView
    var controlsQuery: Record

    function Current(): State
      reads this
    {
      State(path, query, activeRoutes, firstCheckPassed, navInProgress, views, notFound, controlsQuery)
    }

    constructor (cfg: Config)
      ensures this.cfg == cfg && Current() == Initial()
    {
      this.cfg := cfg;
      path, query, activeRoutes := "", map[], [];
      firstCheckPassed, navInProgress := false, false;
      views, notFound, controlsQuery := map[], ClosedView, map[];
    }

    /** `recalculated`: the store writes, then the guards in order. */
    method Recalculated(matching: seq<Entry>, closing: seq<Entry>) returns (outs: seq<Out>)
      modifies this
      ensures (Current(), outs) == Reconcile(cfg, old(Current()), matching, closing)
    {
      activeRoutes := RouteIds(matching);
      if |matching| > 0 || |closing| > 0 {
        navInProgress := false;
      }
      var rules := MethodsRouteRules(cfg);
      var openPass := if |matching| > 0 then GateMatched(rules, cfg.table, matching, views, navInProgress, 0) else ([], views);
      views := openPass.1;
      var notFoundOut: seq<Out> := if |matching| == 0 then [RouteNotFound] else [];
      outs := RouteCalls(openPass.0) + notFoundOut;
      var nf := NotFoundStep(cfg, MethodsRouteRules(cfg).kind, notFound, query, |matching| == 0);
      notFound := nf.1;
      outs := outs + nf.0;
      var closePass := if |closing| > 0 then GateMismatched(rules, cfg.table, closing, views, 0) else ([], views);
      views := closePass.1;
      var init: seq<Out> := if !firstCheckPassed then [Initialized(activeRoutes, path, query)] else [];
      outs := outs + RouteCalls(closePass.0) + init;
      firstCheckPassed := true;
    }

    method HistoryUpdated(hl: HistoryLocation) returns (outs: seq<Out>)
      modifies this
      ensures (Current(), outs) == HistoryUpdatedStep(cfg, old(Current()), hl)
    {
      var parsedQuery := ParseQuery(cfg, hl.search);
      if hl.pathname == path && Equals(parsedQuery, query) {
        outs := [];
        return;
      }
      path := hl.pathname;
      if !Equals(parsedQuery, query) {
        query := parsedQuery;
      }
      var loc := Location(hl.pathname, parsedQuery, hl.hash);
      var matching, mismatching := Partition(cfg.table, loc, Match(cfg), true);
      var closing := NullAndFilter(mismatching, matching);
      ghost var s1 := Current();
      assert s1 == old(Current()).(path := hl.pathname, query := if Equals(parsedQuery, old(query)) then old(query) else parsedQuery);
      assert HistoryUpdatedStep(cfg, old(Current()), hl) == Reconcile(cfg, s1, Matching(cfg, loc), ClosingIntended(cfg, loc));
      outs := Recalculated(matching, closing);
    }

    method SetHistory(hl: HistoryLocation) returns (outs: seq<Out>)
      modifies this
      ensures (Current(), outs) == SetHistoryStep(cfg, old(Current()), hl)
    {
      firstCheckPassed := false;
      if cfg.hydrate {
        outs := [];
      } else {
        outs := HistoryUpdated(hl);
      }
    }

    method RouteNavigated(route: nat, params: Record, query: Record, replace: JsValue) returns (outs: seq<Out>)
      modifies this
      ensures (Current(), outs) == NavigateStep(cfg, old(Current()), route, params, query, replace)
    {
      outs := NavigatePushes(cfg.(serialize := None), route, params, query, Truthy(replace), 0);
      if |outs| > 0 {
        navInProgress := true;
      }
    }

    method ControlsQueryChanged(q: Record, realSearch: string) returns (outs: seq<Out>)
      modifies this
      ensures (Current(), outs) == ControlsQueryStep(cfg, old(Current()), q, realSearch)
    {
      if Equals(controlsQuery, q) {
        outs := [];
        return;
      }
      controlsQuery := q;
      if navInProgress || !Equals(q, ParseQuery(cfg, realSearch)) || !Equals(query, q) {
        outs := [Push(ControlsPushPath(cfg, path, q), map[], q, false)];
      } else {
        outs := [];
      }
    }

    method QueryChanged(realSearch: string) returns (outs: seq<Out>)
      modifies this
      ensures (Current(), outs) == SyncQueryStep(cfg, old(Current()), realSearch)
    {
      if !Equals(controlsQuery, query) {
        outs := ControlsQueryChanged(query, realSearch);
      } else {
        outs := [];
      }
    }
  }
}
