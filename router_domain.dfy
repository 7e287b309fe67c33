/**
 * `createRouterDomain`: a domain keeps the routes registered with it, reads every history change
 * (`recheck`), and tells each route whether the domain closed or opened it (`closedByDomain`
 * for all closed routes first, then `openedByDomain` with the matched params and the shared
 * query). Route navigations become history writes; `$query` changes outside a recheck are
 * written back to the history.
 */
module RouterDomain {
  import opened Wrappers
  import opened Js
  import Paths
  import AttachPaths

  /** A route in `__.routes`, with the `pathPattern` its internals hold when the domain reads them. */
  datatype Registered = Registered(route: nat, pathPattern: string)

  /**
   * An entry of `__.routes`: the route and a reference to its internals `route.__`. A route
   * registers itself when it is created, while its pattern is still `""`; `attachPaths` writes
   * the pattern into the same internals later, and every recheck reads it anew.
   */
  datatype Member = Member(route: nat, internals: AttachPaths.RouteInternals)

  /** The history location the domain reads. */
  datatype HistoryLocation = HistoryLocation(pathname: string, search: string, hash: string)

  /** What the domain does to the outside. */
  datatype Out =
    | ClosedByDomain(route: nat)
    | OpenedByDomain(route: nat, params: Record, query: Record)
    | HistoryWrite(path: string, replace: bool)   // `history.push` / `history.replace`
    | Unsubscribed(callback: nat)                 // the previous history listener is removed
    | Initialized

  /** The base the domain matches and builds with: `config.base ?? ''`. */
  function InternalBase(base: Option<string>): (r: string)
    ensures base.Some? ==> r == base.value
    ensures base.None? ==> r == ""
  {
    base.GetOr("")
  }

  /** The `base` property the domain exposes: `config.base ?? '/'`. */
  function ExposedBase(base: Option<string>): (r: string)
    ensures base.Some? ==> r == base.value
    ensures base.None? ==> r == "/"
  {
    base.GetOr("/")
  }

  /** With no base configured, the base the domain uses is not the one it exposes. */
  lemma DefaultBasesDiffer(base: Option<string>)
    ensures InternalBase(base) == ExposedBase(base) <==> base.Some?
  {
    if base.None? {
      assert InternalBase(base) == "" != "/" == ExposedBase(base);
    }
  }

  // ---------------------------------------------------------------------------------------
  // Recheck

  /** `base + pathPattern` against `pathname + hash`; the search string never takes part. */
  function Probe(p: Paths.Platform, base: string, r: Registered, hl: HistoryLocation): Option<Record>
  {
    p.matcher(base + r.pathPattern, hl.pathname + hl.hash)
  }

  /** The opened list built from the first `n` routes: each matched route with a copy of its params. */
  function OpenedOf(p: Paths.Platform, base: string, routes: seq<Registered>, n: nat, hl: HistoryLocation): seq<(nat, Record)>
    requires n <= |routes|
  {
    if n == 0 then []
    else
      var m := Probe(p, base, routes[n - 1], hl);
      OpenedOf(p, base, routes, n - 1, hl) + (if m.Some? then [(routes[n - 1].route, m.value)] else [])
  }

  /** The closed list built from the first `n` routes. */
  function ClosedOf(p: Paths.Platform, base: string, routes: seq<Registered>, n: nat, hl: HistoryLocation): seq<nat>
    requires n <= |routes|
  {
    if n == 0 then []
    else ClosedOf(p, base, routes, n - 1, hl) + (if Probe(p, base, routes[n - 1], hl).Some? then [] else [routes[n - 1].route])
  }

  /** `Object.fromEntries(new URLSearchParams(search).entries())`. */
  function ReadQuery(p: Paths.Platform, search: string): Record
  {
    p.searchParams.read(search)
  }

  /** `updateRoutesStates`: every `closedByDomain` first, then every `openedByDomain` with the one query. */
  function RouteCalls(closedList: seq<nat>, openedList: seq<(nat, Record)>, query: Record): (r: seq<Out>)
    ensures |r| == |closedList| + |openedList|
    ensures forall k :: 0 <= k < |closedList| ==> r[k] == ClosedByDomain(closedList[k])
    ensures forall k :: 0 <= k < |openedList| ==> r[|closedList| + k] == OpenedByDomain(openedList[k].0, openedList[k].1, query)
  {
    seq(|closedList|, k requires 0 <= k < |closedList| => ClosedByDomain(closedList[k])) +
    seq(|openedList|, k requires 0 <= k < |openedList| => OpenedByDomain(openedList[k].0, openedList[k].1, query))
  }

  lemma RouteCallsSnocClosed(closedList: seq<nat>, k: nat, query: Record)
    requires k < |closedList|
    ensures RouteCalls(closedList[..k + 1], [], query) == RouteCalls(closedList[..k], [], query) + [ClosedByDomain(closedList[k])]
  {
    var a := RouteCalls(closedList[..k + 1], [], query);
    var b := RouteCalls(closedList[..k], [], query) + [ClosedByDomain(closedList[k])];
    assert |a| == |b|;
    forall i | 0 <= i < |a| ensures a[i] == b[i] {
      assert closedList[..k + 1][i] == closedList[i];
    }
  }

  lemma RouteCallsSnocOpened(closedList: seq<nat>, openedList: seq<(nat, Record)>, k: nat, query: Record)
    requires k < |openedList|
    ensures RouteCalls(closedList, openedList[..k + 1], query) ==
      RouteCalls(closedList, openedList[..k], query) + [OpenedByDomain(openedList[k].0, openedList[k].1, query)]
  {
    var a := RouteCalls(closedList, openedList[..k + 1], query);
    var b := RouteCalls(closedList, openedList[..k], query) + [OpenedByDomain(openedList[k].0, openedList[k].1, query)];
    assert |a| == |b|;
    forall i | 0 <= i < |a| ensures a[i] == b[i] {
      if i >= |closedList| {
        assert openedList[..k + 1][i - |closedList|] == openedList[i - |closedList|];
      }
    }
  }

  /** A recheck of a location, as calls to the routes. */
  function RecheckCalls(p: Paths.Platform, base: string, routes: seq<Registered>, hl: HistoryLocation): seq<Out>
  {
    RouteCalls(ClosedOf(p, base, routes, |routes|, hl), OpenedOf(p, base, routes, |routes|, hl), ReadQuery(p, hl.search))
  }

  /**
   * Every registered route lands in exactly one list, the opened one exactly when its full
   * pattern matches, and then with the matched params.
   */
  lemma {:induction false} RecheckPartition(p: Paths.Platform, base: string, routes: seq<Registered>, n: nat, hl: HistoryLocation)
    requires n <= |routes|
    ensures |OpenedOf(p, base, routes, n, hl)| + |ClosedOf(p, base, routes, n, hl)| == n
    ensures forall i :: 0 <= i < n && Probe(p, base, routes[i], hl).Some? ==>
      (routes[i].route, Probe(p, base, routes[i], hl).value) in OpenedOf(p, base, routes, n, hl)
    ensures forall i :: 0 <= i < n && Probe(p, base, routes[i], hl).None? ==> routes[i].route in ClosedOf(p, base, routes, n, hl)
    ensures forall e :: e in OpenedOf(p, base, routes, n, hl) ==>
      exists i :: 0 <= i < n && routes[i].route == e.0 && Probe(p, base, routes[i], hl) == Some(e.1)
    ensures forall r :: r in ClosedOf(p, base, routes, n, hl) ==>
      exists i :: 0 <= i < n && routes[i].route == r && Probe(p, base, routes[i], hl).None?
  {
    if n > 0 {
      RecheckPartition(p, base, routes, n - 1, hl);
      var m := Probe(p, base, routes[n - 1], hl);
      var prevOpened := OpenedOf(p, base, routes, n - 1, hl);
      var prevClosed := ClosedOf(p, base, routes, n - 1, hl);
      forall e | e in OpenedOf(p, base, routes, n, hl)
        ensures exists i :: 0 <= i < n && routes[i].route == e.0 && Probe(p, base, routes[i], hl) == Some(e.1)
      {
        if e !in prevOpened {
          assert routes[n - 1].route == e.0 && m == Some(e.1);
        }
      }
      forall r | r in ClosedOf(p, base, routes, n, hl)
        ensures exists i :: 0 <= i < n && routes[i].route == r && Probe(p, base, routes[i], hl).None?
      {
        if r !in prevClosed {
          assert routes[n - 1].route == r && m.None?;
        }
      }
    }
  }

  /** Locations with the same pathname and hash give the same lists: the search string only feeds the query. */
  lemma {:induction false} RecheckIgnoresSearch(p: Paths.Platform, base: string, routes: seq<Registered>, n: nat, a: HistoryLocation, b: HistoryLocation)
    requires n <= |routes|
    requires a.pathname + a.hash == b.pathname + b.hash
    ensures OpenedOf(p, base, routes, n, a) == OpenedOf(p, base, routes, n, b)
    ensures ClosedOf(p, base, routes, n, a) == ClosedOf(p, base, routes, n, b)
  {
    if n > 0 {
      RecheckIgnoresSearch(p, base, routes, n - 1, a, b);
    }
  }

  /**
   * The calls of a recheck: one per registered route, every close before every open, and every
   * open carrying the query read from the search string.
   */
  lemma RecheckCallsShape(p: Paths.Platform, base: string, routes: seq<Registered>, hl: HistoryLocation)
    ensures var calls := RecheckCalls(p, base, routes, hl);
      |calls| == |routes| &&
      (forall j, k :: 0 <= j < k < |calls| && calls[k].ClosedByDomain? ==> calls[j].ClosedByDomain?) &&
      (forall k :: 0 <= k < |calls| ==> calls[k].ClosedByDomain? || (calls[k].OpenedByDomain? && calls[k].query == ReadQuery(p, hl.search)))
  {
    RecheckPartition(p, base, routes, |routes|, hl);
  }

  // ---------------------------------------------------------------------------------------
  // Navigation and query write-back

  /** The query part of a navigate path: `?qs` exactly when the serialized query is non-empty. */
  function QueryPart(qs: string): (r: string)
    ensures qs == "" ==> r == ""
    ensures qs != "" ==> r == "?" + qs
  {
    if qs == "" then "" else "?" + qs
  }

  /** The data `compile(pathPattern)` is called with as written: `{ params }`, the params object under one key. */
  function CompileDataAsWritten(paramsObject: JsValue): (r: Record)
    ensures forall k :: k != "params" ==> Get(r, k) == Undefined
  {
    map["params" := paramsObject]
  }

  /** As written, a pattern's named parameter (`:postId`) reads `undefined` whatever the params hold. */
  lemma NamedParameterIsUndefined(paramsObject: JsValue, params: Record)
    requires Get(params, "postId") == Str("1")
    ensures Get(CompileDataAsWritten(paramsObject), "postId") == Undefined != Get(params, "postId")
  {
  }

  /** The navigate path with its data as written: `base + compile(pattern)({params}) + ?qs`. */
  function NavigatePathAsWritten(p: Paths.Platform, base: string, pattern: string, paramsObject: JsValue, query: Record): string
  {
    base + p.compile(pattern, CompileDataAsWritten(paramsObject)) + QueryPart(p.searchParams.write(query))
  }

  /** The navigate path: `base + compile(pattern)(params) + ?qs`. */
  function NavigatePath(p: Paths.Platform, base: string, pattern: string, params: Record, query: Record): (r: string)
    ensures |r| >= |base| && r[..|base|] == base
    ensures var qs := p.searchParams.write(query); r[|base|..] == p.compile(pattern, params) + QueryPart(qs)
  {
    var r := base + p.compile(pattern, params) + QueryPart(p.searchParams.write(query));
    assert r[|base|..] == p.compile(pattern, params) + QueryPart(p.searchParams.write(query));
    r
  }

  /** As written, `modifyHistory` prefixes the base again. */
  function HistoryWriteAsWritten(base: string, path: string, replace: bool): Out
  {
    HistoryWrite(base + path, replace)
  }

  /** `modifyHistory` writing a path that already holds the base. */
  function HistoryWriteOf(path: string, replace: bool): Out
  {
    HistoryWrite(path, replace)
  }

  /** `routeNavigateTriggered` as written: the base written twice. */
  function NavigateAsWritten(p: Paths.Platform, base: string, pattern: string, params: Record, query: Record, replace: JsValue): Out
  {
    HistoryWriteAsWritten(base, NavigatePath(p, base, pattern, params, query), Truthy(replace))
  }

  /** `routeNavigateTriggered` with the base prefixed once; `replace` is `Boolean(replace)`. */
  function Navigate(p: Paths.Platform, base: string, pattern: string, params: Record, query: Record, replace: JsValue): Out
  {
    HistoryWriteOf(NavigatePath(p, base, pattern, params, query), Truthy(replace))
  }

  /** As written, a non-empty base appears twice at the head of every navigation's history write. */
  lemma NavigateDoublesBase(p: Paths.Platform, base: string, pattern: string, params: Record, query: Record, replace: JsValue)
    ensures var w := NavigateAsWritten(p, base, pattern, params, query, replace);
      |w.path| >= 2 * |base| && w.path[..2 * |base|] == base + base &&
      w.path == base + Navigate(p, base, pattern, params, query, replace).path
  {
    var path := NavigatePath(p, base, pattern, params, query);
    assert (base + path)[..2 * |base|] == base + path[..|base|];
  }

  /**
   * A navigation writes the base once, then the compiled params, then `?qs` exactly when the
   * serialized query is non-empty; it replaces exactly when `replace` is truthy.
   */
  lemma NavigateWritesBaseOnce(p: Paths.Platform, base: string, pattern: string, params: Record, query: Record, replace: JsValue)
    ensures var w := Navigate(p, base, pattern, params, query, replace);
      w.HistoryWrite? && (w.replace <==> Truthy(replace)) &&
      w.path == base + p.compile(pattern, params) + QueryPart(p.searchParams.write(query)) &&
      ('?' in w.path[|base| + |p.compile(pattern, params)|..] <==> p.searchParams.write(query) != "")
  {
    var w := Navigate(p, base, pattern, params, query, replace);
    var qs := p.searchParams.write(query);
    var tail := w.path[|base| + |p.compile(pattern, params)|..];
    assert tail == QueryPart(qs);
    if qs != "" {
      assert tail[0] == '?';
    }
  }

  /** `manuallyUpdateQuery`: pathname, `?` with the query (a `URLSearchParams` object is always truthy), hash. */
  function QueryWriteBack(p: Paths.Platform, hl: HistoryLocation, query: Record): (r: Out)
    ensures r.HistoryWrite? && !r.replace
    ensures r.path == hl.pathname + "?" + p.searchParams.write(query) + hl.hash
  {
    HistoryWrite(hl.pathname + "?" + p.searchParams.write(query) + hl.hash, false)
  }

  // ---------------------------------------------------------------------------------------
  // The domain as a class

  class Domain {
    const base: string
    const platform: Paths.Platform
    var routes: seq<Member>
    var history: Option<HistoryLocation>   // `$history`, by the location it currently shows
    var query: Record                      // `$query`
    var isUpdating: bool                   // `$isUpdatingRoutesStates`
    var unsubscribe: nat                   // `$unsubscribeCallback`, 0 for the initial stub

    constructor (config: Option<string>, platform: Paths.Platform)
      ensures base == InternalBase(config) && this.platform == platform
      ensures routes == [] && history.None? && query == map[] && !isUpdating && unsubscribe == 0
    {
      base := InternalBase(config);
      this.platform := platform;
      routes, history, query, isUpdating, unsubscribe := [], None, map[], false, 0;
    }

    /** The internals of the registered routes. */
    function Internals(): set<AttachPaths.RouteInternals>
      reads this
    {
      set i | 0 <= i < |routes| :: routes[i].internals
    }

    /** The registered routes with the patterns their internals hold now. */
    function Registry(): (r: seq<Registered>)
      reads this, Internals()
      ensures |r| == |routes|
      ensures forall i :: 0 <= i < |routes| ==> r[i] == Registered(routes[i].route, routes[i].internals.pathPattern)
    {
      seq(|routes|, i reads this, Internals() requires 0 <= i < |routes| => Registered(routes[i].route, routes[i].internals.pathPattern))
    }

    /** A route registering itself with the domain, by reference to its internals. */
    method Register(route: nat, internals: AttachPaths.RouteInternals)
      modifies this
      ensures routes == old(routes) + [Member(route, internals)]
      ensures history == old(history) && query == old(query) && isUpdating == old(isUpdating) && unsubscribe == old(unsubscribe)
    {
      routes := routes + [Member(route, internals)];
    }

    /** The loop of `recheck`: each registered route, by the pattern its internals hold now, into the opened or the closed list. */
    method Split(hl: HistoryLocation) returns (openedList: seq<(nat, Record)>, closedList: seq<nat>)
      ensures openedList == OpenedOf(platform, base, Registry(), |routes|, hl)
      ensures closedList == ClosedOf(platform, base, Registry(), |routes|, hl)
    {
      ghost var reg := Registry();
      openedList, closedList := [], [];
      var i := 0;
      while i < |routes|
        invariant 0 <= i <= |routes|
        invariant openedList == OpenedOf(platform, base, reg, i, hl)
        invariant closedList == ClosedOf(platform, base, reg, i, hl)
      {
        var matched := platform.matcher(base + routes[i].internals.pathPattern, hl.pathname + hl.hash);
        if matched.Some? {
          openedList := openedList + [(routes[i].route, matched.value)];
        } else {
          closedList := closedList + [routes[i].route];
        }
        i := i + 1;
      }
    }

    /** The two loops of `updateRoutesStates`. */
    static method UpdateRoutesStates(closedList: seq<nat>, openedList: seq<(nat, Record)>, q: Record) returns (calls: seq<Out>)
      ensures calls == RouteCalls(closedList, openedList, q)
    {
      calls := [];
      for k := 0 to |closedList|
        invariant calls == RouteCalls(closedList[..k], [], q)
      {
        RouteCallsSnocClosed(closedList, k, q);
        calls := calls + [ClosedByDomain(closedList[k])];
      }
      assert closedList[..|closedList|] == closedList;
      for k := 0 to |openedList|
        invariant calls == RouteCalls(closedList, openedList[..k], q)
      {
        RouteCallsSnocOpened(closedList, openedList, k, q);
        calls := calls + [OpenedByDomain(openedList[k].0, openedList[k].1, q)];
      }
      assert openedList[..|openedList|] == openedList;
    }

    /**
     * `recheck` over the location the history shows: the routes are told their states, and
     * `$query` takes the read query while the updating flag holds back its write-back.
     */
    method Recheck(hl: HistoryLocation) returns (outs: seq<Out>)
      modifies this
      ensures outs == RecheckCalls(platform, base, Registry(), hl)
      ensures query == ReadQuery(platform, hl.search) && !isUpdating
      ensures routes == old(routes) && history == old(history) && unsubscribe == old(unsubscribe)
    {
      ghost var reg := Registry();
      var openedList, closedList := Split(hl);
      assert Registry() == reg;
      var q := ReadQuery(platform, hl.search);
      isUpdating := true;
      query := q;
      // the `clock: $query` write-back is filtered out while `isUpdating` holds
      isUpdating := false;
      outs := UpdateRoutesStates(closedList, openedList, q);
      assert Registry() == reg;
    }

    /**
     * `setHistory`: the previous listener is removed, the new one (`callback`) is kept, the
     * domain is initialized and rechecks the new history's location.
     */
    method SetHistory(hl: HistoryLocation, callback: nat) returns (outs: seq<Out>)
      modifies this
      ensures outs == [Unsubscribed(old(unsubscribe)), Initialized] + RecheckCalls(platform, base, Registry(), hl)
      ensures history == Some(hl) && unsubscribe == callback && query == ReadQuery(platform, hl.search) && !isUpdating
      ensures routes == old(routes)
    {
      var previous := unsubscribe;
      history := Some(hl);
      unsubscribe := callback;
      var calls := Recheck(hl);
      outs := [Unsubscribed(previous), Initialized] + calls;
    }

    /** The history listener: the history moved to `hl`. */
    method HistoryChanged(hl: HistoryLocation) returns (outs: seq<Out>)
      modifies this
      ensures outs == RecheckCalls(platform, base, Registry(), hl)
      ensures history == Some(hl) && query == ReadQuery(platform, hl.search) && !isUpdating
      ensures routes == old(routes) && unsubscribe == old(unsubscribe)
    {
      history := Some(hl);
      outs := Recheck(hl);
    }

    /**
     * Someone else writes `$query`: outside a recheck it is written back to the history; with
     * no history set the write-back fails and writes nothing.
     */
    method QueryWritten(q: Record) returns (outs: seq<Out>)
      modifies this
      ensures routes == old(routes) && history == old(history) && isUpdating == old(isUpdating) && unsubscribe == old(unsubscribe)
      ensures query == q
      ensures outs == if history.Some? && !isUpdating then [QueryWriteBack(platform, history.value, q)] else []
    {
      query := q;
      if history.Some? && !isUpdating {
        outs := [QueryWriteBack(platform, history.value, q)];
      } else {
        outs := [];
      }
    }
  }

  /**
   * A route joins the domain when it is created, while its pattern is still `""`; `attachPaths`
   * writes the pattern into the same internals afterwards, and the next recheck matches with
   * the pattern written.
   */
  method CreateAttachRecheck(d: Domain, route: nat, internals: AttachPaths.RouteInternals, path: string, hl: HistoryLocation)
    returns (outs: seq<Out>)
    requires d.routes == [] && internals.pathPattern == "" && internals.parent == null && !internals.isVirtual
    modifies d, internals
    ensures outs == RecheckCalls(d.platform, d.base, [Registered(route, path)], hl)
  {
    d.Register(route, internals);
    assert d.Registry() == [Registered(route, "")];
    var log := AttachPaths.Attach([AttachPaths.Pair(internals, path)]);
    assert [AttachPaths.Pair(internals, path)][..0] == [];
    assert internals.pathPattern == path;
    outs := d.Recheck(hl);
    assert d.Registry() == [Registered(route, path)];
  }
}
