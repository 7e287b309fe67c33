/**
 * The prototype `createHistoryRouter`: one binding per route object, no stores of its own. A
 * recheck reads the history's pathname and its search string (first character dropped) through
 * the `qs` parser, splits the bindings into entered and left with the earliest `matchPath`, and
 * each binding's guards call `opened` on a closed entered route and `left` on an open left one.
 * A route's navigation pushes the built path; the finished push rechecks with it.
 */
module PrototypeRouter {
  import opened Wrappers
  import opened Js
  import Paths
  import RT = RouteTable
  import opened RouterCore
  import opened RouterEvents

  /** Guards per binding, no `updated`, first-generation routes. */
  function PrototypeRules(): Rules
  {
    Rules(true, NoUpdate, LegacyRoute)
  }

  function LegacyMatch(cfg: Config): Matcher
  {
    (pattern: string, actualPath: string) => Paths.MatchPathLegacy(cfg.platform, pattern, actualPath)
  }

  function Entered(cfg: Config, loc: Location): seq<Entry>
  {
    Matched(cfg.table, |cfg.table|, loc, LegacyMatch(cfg), false)
  }

  function Left(cfg: Config, loc: Location): seq<Entry>
  {
    Missed(cfg.table, |cfg.table|, loc, LegacyMatch(cfg), false)
  }

  /** `search.slice(1)`: the search string without its leading `?`; empty stays empty. */
  function SearchBody(search: string): (r: string)
    ensures |search| > 0 ==> [search[0]] + r == search
    ensures |search| == 0 ==> r == ""
  {
    if |search| == 0 then "" else search[1..]
  }

  /** `recheckFx` and its guards: the entered guards of every binding, then the left guards. */
  function Recheck(cfg: Config, views: map<nat, RouteView>, loc: Location): (map<nat, RouteView>, seq<Out>)
  {
    var openPass := GateMatched(PrototypeRules(), cfg.table, Entered(cfg, loc), views, false, 0);
    var closePass := GateMismatched(PrototypeRules(), cfg.table, Left(cfg, loc), openPass.1, 0);
    (closePass.1, RouteCalls(openPass.0) + RouteCalls(closePass.0))
  }

  /** `recheck()`: the history's pathname and the `qs` parse of its search body. */
  function HistoryRecheck(cfg: Config, qsParse: string -> Record, views: map<nat, RouteView>, hl: HistoryLocation): (map<nat, RouteView>, seq<Out>)
  {
    Recheck(cfg, views, Location(hl.pathname, qsParse(SearchBody(hl.search)), ""))
  }

  /** A route's `navigate`: the route opens or updates itself, and one plain push follows per binding of it. */
  function NavigateStep(cfg: Config, views: map<nat, RouteView>, route: nat, params: Record, query: Record): (map<nat, RouteView>, seq<Out>)
  {
    var v := ViewOf(views, route);
    var n := if v.isOpened then Updated(Some(params), query) else Opened(Some(params), query);
    (views[route := React(LegacyRoute, v, n)],
     [RouteCall(RouteEvent(route, n))] + NavigatePushes(cfg.(serialize := None), route, params, query, false, 0))
  }

  /** No two bindings share a route: the table is a list of route objects, each with one route. */
  predicate DistinctRoutes(table: seq<RT.Binding>)
  {
    forall i, j :: 0 <= i < |table| && 0 <= j < |table| && table[i].route.id == table[j].route.id ==> i == j
  }

  // ---------------------------------------------------------------------------------------
  // Properties

  /**
   * A recheck calls `opened` only on a route that was closed and `left` only on one that was
   * open; no route is updated.
   */
  lemma RecheckFiresOnlyEdges(cfg: Config, views: map<nat, RouteView>, loc: Location)
    ensures var outs := Recheck(cfg, views, loc).1;
      forall k :: 0 <= k < |outs| ==> outs[k].RouteCall? && (outs[k].ev.notice.Opened? || outs[k].ev.notice.Closed?)
  {
    var t := cfg.table;
    var openPass := GateMatched(PrototypeRules(), t, Entered(cfg, loc), views, false, 0);
    var closePass := GateMismatched(PrototypeRules(), t, Left(cfg, loc), openPass.1, 0);
    GateMatchedOnlyOpens(PrototypeRules(), t, Entered(cfg, loc), views, false, 0);
    GateMismatchedEdges(PrototypeRules(), t, Left(cfg, loc), openPass.1, 0);
    var outs := RouteCalls(openPass.0) + RouteCalls(closePass.0);
    forall k | 0 <= k < |outs| ensures outs[k].RouteCall? && (outs[k].ev.notice.Opened? || outs[k].ev.notice.Closed?) {
      if k >= |openPass.0| {
        assert outs[k] == RouteCall(closePass.0[k - |openPass.0|]);
      }
    }
  }

  /** With one binding per route, a recheck leaves a route open exactly when its pattern matched. */
  lemma RecheckSyncsRoutes(cfg: Config, views: map<nat, RouteView>, loc: Location)
    requires DistinctRoutes(cfg.table)
    ensures var after := Recheck(cfg, views, loc).0;
      forall j :: 0 <= j < |cfg.table| ==>
        (ViewOf(after, cfg.table[j].route.id).isOpened <==> Hits(cfg.table, j, loc, LegacyMatch(cfg), false))
  {
    var t := cfg.table;
    var m := LegacyMatch(cfg);
    var entered := Entered(cfg, loc);
    var left := Left(cfg, loc);
    var mid := GateMatched(PrototypeRules(), t, entered, views, false, 0).1;
    PartitionExact(t, |t|, loc, m, false);
    assert Consistent(t, left);
    GateMatchedOpensFound(PrototypeRules(), t, entered, views, 0);
    GateMismatchedOnlyListed(PrototypeRules(), t, left, mid, 0);
    GateMismatchedClosesFound(PrototypeRules(), t, left, mid, 0);
    forall j | 0 <= j < |t|
      ensures ViewOf(Recheck(cfg, views, loc).0, t[j].route.id).isOpened <==> Hits(t, j, loc, m, false)
    {
      var e := EntryAt(t, j, loc, m, false);
      if Hits(t, j, loc, m, false) {
        assert e in entered;
        assert Lookup(PrototypeRules(), entered, t, j).Some?;
        assert t[j].route.id !in RoutesOf(left);
      } else {
        assert e in left;
        assert Lookup(PrototypeRules(), left, t, j).Some?;
      }
    }
  }

  /** The recheck of a location reads the query from the search string past its first character. */
  lemma HistoryRecheckSkipsMark(cfg: Config, qsParse: string -> Record, views: map<nat, RouteView>, hl: HistoryLocation, body: string)
    requires hl.search == "?" + body
    ensures HistoryRecheck(cfg, qsParse, views, hl) == Recheck(cfg, views, Location(hl.pathname, qsParse(body), ""))
  {
    assert SearchBody(hl.search) == body;
  }

  /**
   * A navigation opens the route, and pushes one plain push per binding of the route, each with
   * a path built from the binding's pattern.
   */
  lemma NavigateOpensAndPushes(cfg: Config, views: map<nat, RouteView>, route: nat, params: Record, query: Record)
    ensures var (after, outs) := NavigateStep(cfg, views, route, params, query);
      ViewOf(after, route).isOpened &&
      (forall k :: 1 <= k < |outs| ==>
        (outs[k].Push? && !outs[k].replace && outs[k].path in BuiltPaths(cfg.(serialize := None), route, params, query, 0))) &&
      (|outs| > 1 <==> |BuiltPaths(cfg.(serialize := None), route, params, query, 0)| > 0)
  {
    var c := cfg.(serialize := None);
    NavigatePushesPerBinding(c, route, params, query, false, 0);
    var (after, outs) := NavigateStep(cfg, views, route, params, query);
    var pushes := NavigatePushes(c, route, params, query, false, 0);
    forall k | 1 <= k < |outs| ensures outs[k] == pushes[k - 1] { }
  }

  // ---------------------------------------------------------------------------------------
  // The routes as a class

  class Router {
    const cfg: Config
    const qsParse: string -> Record
    var views: map<nat, RouteView>

    /** `createHistoryRouter` ends by rechecking the history's current location. */
    constructor (cfg: Config, qsParse: string -> Record, views: map<nat, RouteView>, hl: HistoryLocation)
      ensures this.cfg == cfg && this.qsParse == qsParse
      ensures this.views == HistoryRecheck(cfg, qsParse, views, hl).0
    {
      this.cfg := cfg;
      this.qsParse := qsParse;
      this.views := HistoryRecheck(cfg, qsParse, views, hl).0;
    }

    /** `recheckFx` with a path and query. */
    method Rechecked(loc: Location) returns (outs: seq<Out>)
      modifies this
      ensures (views, outs) == Recheck(cfg, old(views), loc)
    {
      var entered, left := Partition(cfg.table, loc, LegacyMatch(cfg), false);
      var openPass := GateMatched(PrototypeRules(), cfg.table, entered, views, false, 0);
      var closePass := GateMismatched(PrototypeRules(), cfg.table, left, openPass.1, 0);
      views := closePass.1;
      outs := RouteCalls(openPass.0) + RouteCalls(closePass.0);
    }

    /** The history listener. */
    method HistoryChanged(hl: HistoryLocation) returns (outs: seq<Out>)
      modifies this
      ensures (views, outs) == HistoryRecheck(cfg, qsParse, old(views), hl)
    {
      outs := Rechecked(Location(hl.pathname, qsParse(SearchBody(hl.search)), ""));
    }

    /** `pushFx.done`: a recheck with the pushed path and query. */
    method Pushed(path: string, query: Record) returns (outs: seq<Out>)
      modifies this
      ensures (views, outs) == Recheck(cfg, old(views), Location(path, query, ""))
    {
      outs := Rechecked(Location(path, query, ""));
    }

    method RouteNavigated(route: nat, params: Record, query: Record) returns (outs: seq<Out>)
      modifies this
      ensures (views, outs) == NavigateStep(cfg, old(views), route, params, query)
    {
      var v := ViewOf(views, route);
      var n := if v.isOpened then Updated(Some(params), query) else Opened(Some(params), query);
      views := views[route := React(LegacyRoute, v, n)];
      outs := [RouteCall(RouteEvent(route, n))] + NavigatePushes(cfg.(serialize := None), route, params, query, false, 0);
    }
  }
}
