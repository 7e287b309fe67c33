/**
 * What the history routers share: splitting the route table into the bindings that match the
 * current location and those that do not, removing from the second list the routes that also
 * match through another binding, looking a binding up in a list, and the guards that turn the
 * lists into `opened` / `updated` / `closed` calls on the routes.
 *
 * A binding is identified by its index in the (remapped) route table and a route by its id.
 */
module RouterCore {
  import opened Wrappers
  import opened Js
  import opened Equality
  import Paths
  import RT = RouteTable

  /** The parsed location a recalculation works on. */
  datatype Location = Location(path: string, query: Record, hash: string)

  /** One recalculation result: `{routeObj, params, query}`, with the binding as its table index. */
  datatype Entry = Entry(binding: nat, route: nat, params: Option<Record>, query: Record)

  /** The `matchPath` helper a router uses. */
  type Matcher = (string, string) -> Paths.MatchResult

  // ---------------------------------------------------------------------------------------
  // Splitting the table

  /** The path a binding is matched against: with the hash only when the pattern contains `#`. */
  function ActualPath(pattern: string, loc: Location, useHash: bool): (r: string)
    ensures useHash && '#' in pattern ==> r == loc.path + loc.hash
    ensures !(useHash && '#' in pattern) ==> r == loc.path
  {
    if useHash && '#' in pattern then loc.path + loc.hash else loc.path
  }

  function Outcome(table: seq<RT.Binding>, i: nat, loc: Location, m: Matcher, useHash: bool): Paths.MatchResult
    requires i < |table|
  {
    m(table[i].path, ActualPath(table[i].path, loc, useHash))
  }

  predicate Hits(table: seq<RT.Binding>, i: nat, loc: Location, m: Matcher, useHash: bool)
    requires i < |table|
  {
    Outcome(table, i, loc, m, useHash).matches
  }

  function EntryAt(table: seq<RT.Binding>, i: nat, loc: Location, m: Matcher, useHash: bool): Entry
    requires i < |table|
  {
    Entry(i, table[i].route.id, Outcome(table, i, loc, m, useHash).params, loc.query)
  }

  /** The matching list built from the first `n` bindings. */
  function Matched(table: seq<RT.Binding>, n: nat, loc: Location, m: Matcher, useHash: bool): seq<Entry>
    requires n <= |table|
  {
    if n == 0 then []
    else Matched(table, n - 1, loc, m, useHash) +
         (if Hits(table, n - 1, loc, m, useHash) then [EntryAt(table, n - 1, loc, m, useHash)] else [])
  }

  /** The mismatching list built from the first `n` bindings. */
  function Missed(table: seq<RT.Binding>, n: nat, loc: Location, m: Matcher, useHash: bool): seq<Entry>
    requires n <= |table|
  {
    if n == 0 then []
    else Missed(table, n - 1, loc, m, useHash) +
         (if Hits(table, n - 1, loc, m, useHash) then [] else [EntryAt(table, n - 1, loc, m, useHash)])
  }

  /** The loop over the table pushing each result into one of the two lists. */
  method Partition(table: seq<RT.Binding>, loc: Location, m: Matcher, useHash: bool) returns (matching: seq<Entry>, mismatching: seq<Entry>)
    ensures matching == Matched(table, |table|, loc, m, useHash)
    ensures mismatching == Missed(table, |table|, loc, m, useHash)
  {
    matching, mismatching := [], [];
    var i := 0;
    while i < |table|
      invariant 0 <= i <= |table|
      invariant matching == Matched(table, i, loc, m, useHash)
      invariant mismatching == Missed(table, i, loc, m, useHash)
    {
      var actualPath := if useHash && '#' in table[i].path then loc.path + loc.hash else loc.path;
      var result := m(table[i].path, actualPath);
      var entry := Entry(i, table[i].route.id, result.params, loc.query);
      if result.matches {
        matching := matching + [entry];
      } else {
        mismatching := mismatching + [entry];
      }
      i := i + 1;
    }
  }

  /**
   * Every binding lands in exactly one list, the one its match result selects, and the lists
   * hold nothing else.
   */
  lemma PartitionExact(table: seq<RT.Binding>, n: nat, loc: Location, m: Matcher, useHash: bool)
    requires n <= |table|
    ensures |Matched(table, n, loc, m, useHash)| + |Missed(table, n, loc, m, useHash)| == n
    ensures forall i :: 0 <= i < n ==>
      (EntryAt(table, i, loc, m, useHash) in Matched(table, n, loc, m, useHash) <==> Hits(table, i, loc, m, useHash))
    ensures forall i :: 0 <= i < n ==>
      (EntryAt(table, i, loc, m, useHash) in Missed(table, n, loc, m, useHash) <==> !Hits(table, i, loc, m, useHash))
    ensures forall e :: e in Matched(table, n, loc, m, useHash) ==>
      e.binding < n && Hits(table, e.binding, loc, m, useHash) && e == EntryAt(table, e.binding, loc, m, useHash)
    ensures forall e :: e in Missed(table, n, loc, m, useHash) ==>
      e.binding < n && !Hits(table, e.binding, loc, m, useHash) && e == EntryAt(table, e.binding, loc, m, useHash)
  {
    PartitionLength(table, n, loc, m, useHash);
    MatchedExact(table, n, loc, m, useHash);
    MissedExact(table, n, loc, m, useHash);
  }

  lemma {:induction false} PartitionLength(table: seq<RT.Binding>, n: nat, loc: Location, m: Matcher, useHash: bool)
    requires n <= |table|
    ensures |Matched(table, n, loc, m, useHash)| + |Missed(table, n, loc, m, useHash)| == n
  {
    if n > 0 {
      PartitionLength(table, n - 1, loc, m, useHash);
    }
  }

  /** Entries are told apart by their binding. */
  lemma EntriesDistinct(table: seq<RT.Binding>, n: nat, loc: Location, m: Matcher, useHash: bool)
    requires 0 < n <= |table|
    ensures forall i :: 0 <= i < n - 1 ==> EntryAt(table, i, loc, m, useHash) != EntryAt(table, n - 1, loc, m, useHash)
  {
  }

  lemma {:induction false} MatchedExact(table: seq<RT.Binding>, n: nat, loc: Location, m: Matcher, useHash: bool)
    requires n <= |table|
    ensures forall i :: 0 <= i < n ==>
      (EntryAt(table, i, loc, m, useHash) in Matched(table, n, loc, m, useHash) <==> Hits(table, i, loc, m, useHash))
    ensures forall e :: e in Matched(table, n, loc, m, useHash) ==>
      e.binding < n && Hits(table, e.binding, loc, m, useHash) && e == EntryAt(table, e.binding, loc, m, useHash)
  {
    if n > 0 {
      MatchedExact(table, n - 1, loc, m, useHash);
      EntriesDistinct(table, n, loc, m, useHash);
      var last := EntryAt(table, n - 1, loc, m, useHash);
      var prev := Matched(table, n - 1, loc, m, useHash);
      assert Matched(table, n, loc, m, useHash) == prev + (if Hits(table, n - 1, loc, m, useHash) then [last] else []);
    }
  }

  lemma {:induction false} MissedExact(table: seq<RT.Binding>, n: nat, loc: Location, m: Matcher, useHash: bool)
    requires n <= |table|
    ensures forall i :: 0 <= i < n ==>
      (EntryAt(table, i, loc, m, useHash) in Missed(table, n, loc, m, useHash) <==> !Hits(table, i, loc, m, useHash))
    ensures forall e :: e in Missed(table, n, loc, m, useHash) ==>
      e.binding < n && !Hits(table, e.binding, loc, m, useHash) && e == EntryAt(table, e.binding, loc, m, useHash)
  {
    if n > 0 {
      MissedExact(table, n - 1, loc, m, useHash);
      EntriesDistinct(table, n, loc, m, useHash);
      var last := EntryAt(table, n - 1, loc, m, useHash);
      var prev := Missed(table, n - 1, loc, m, useHash);
      assert Missed(table, n, loc, m, useHash) == prev + (if Hits(table, n - 1, loc, m, useHash) then [] else [last]);
    }
  }


  /**
   * Bindings whose actual paths agree give the same lists up to the query: the query never
   * takes part in matching, and the hash only for patterns containing `#`.
   */
  lemma {:induction false} PartitionIgnoresQuery(table: seq<RT.Binding>, n: nat, l1: Location, l2: Location, m: Matcher, useHash: bool)
    requires n <= |table|
    requires forall i :: 0 <= i < n ==> ActualPath(table[i].path, l1, useHash) == ActualPath(table[i].path, l2, useHash)
    ensures |Matched(table, n, l1, m, useHash)| == |Matched(table, n, l2, m, useHash)|
    ensures forall k :: 0 <= k < |Matched(table, n, l1, m, useHash)| ==>
      Matched(table, n, l1, m, useHash)[k] == Matched(table, n, l2, m, useHash)[k].(query := l1.query)
  {
    if n > 0 {
      PartitionIgnoresQuery(table, n - 1, l1, l2, m, useHash);
      assert Hits(table, n - 1, l1, m, useHash) == Hits(table, n - 1, l2, m, useHash);
    }
  }

  // ---------------------------------------------------------------------------------------
  // Removing from the mismatching list the routes that also match

  function RoutesOf(es: seq<Entry>): set<nat>
  {
    set e | e in es :: e.route
  }

  /** The entries whose route is not in `rs`, in their order. */
  function WithoutRoutes(es: seq<Entry>, rs: set<nat>): (r: seq<Entry>)
    ensures |r| <= |es|
  {
    if es == [] then []
    else WithoutRoutes(es[..|es| - 1], rs) + (if es[|es| - 1].route in rs then [] else [es[|es| - 1]])
  }

  /** The filter keeps exactly the entries whose route is not in `rs`. */
  lemma {:induction false} WithoutRoutesMembers(es: seq<Entry>, rs: set<nat>)
    ensures forall e :: e in WithoutRoutes(es, rs) <==> e in es && e.route !in rs
  {
    if es != [] {
      var init := es[..|es| - 1];
      WithoutRoutesMembers(init, rs);
      assert es == init + [es[|es| - 1]];
    }
  }

  /** `list.some(obj => obj.route === route)`. */
  method AnyWithRoute(es: seq<Entry>, route: nat) returns (b: bool)
    ensures b <==> route in RoutesOf(es)
  {
    b := false;
    var i := 0;
    while i < |es|
      invariant 0 <= i <= |es|
      invariant b <==> exists k :: 0 <= k < i && es[k].route == route
    {
      if es[i].route == route {
        b := true;
      }
      i := i + 1;
    }
    if b {
      var k :| 0 <= k < |es| && es[k].route == route;
      assert es[k] in es;
    }
  }

  /**
   * The null-and-filter form: every closed entry whose route is also opened is replaced by
   * `null`, then the `null`s are filtered out.
   */
  method NullAndFilter(closedList: seq<Entry>, openedList: seq<Entry>) returns (r: seq<Entry>)
    ensures r == WithoutRoutes(closedList, RoutesOf(openedList))
  {
    var slots: seq<Option<Entry>> := [];
    var idx := 0;
    while idx < |closedList|
      invariant 0 <= idx <= |closedList|
      invariant |slots| == idx
      invariant forall k :: 0 <= k < idx ==> slots[k] == if closedList[k].route in RoutesOf(openedList) then None else Some(closedList[k])
    {
      var both := AnyWithRoute(openedList, closedList[idx].route);
      slots := slots + [if both then None else Some(closedList[idx])];
      idx := idx + 1;
    }
    r := [];
    var i := 0;
    while i < |slots|
      invariant 0 <= i <= |slots|
      invariant r == WithoutRoutes(closedList[..i], RoutesOf(openedList))
    {
      assert closedList[..i + 1][..i] == closedList[..i];
      if slots[i].Some? {
        r := r + [slots[i].value];
      }
      i := i + 1;
    }
    assert closedList[..i] == closedList;
  }

  /**
   * The splice form as written: `forEach` visits the indices below the original length that
   * still exist, and `splice(k, 1)` at index `k` moves the next element to `k`, so the walk
   * steps over it.
   */
  function SpliceFrom(arr: seq<Entry>, rs: set<nat>, k: nat): seq<Entry>
    decreases |arr| - k
  {
    if k >= |arr| then arr
    else if arr[k].route in rs then SpliceFrom(arr[..k] + arr[k + 1..], rs, k + 1)
    else SpliceFrom(arr, rs, k + 1)
  }

  method SpliceDedup(mismatching: seq<Entry>, matching: seq<Entry>) returns (r: seq<Entry>)
    ensures r == SpliceFrom(mismatching, RoutesOf(matching), 0)
  {
    var rs := RoutesOf(matching);
    r := mismatching;
    var len := |mismatching|;
    var k := 0;
    while k < len
      invariant |r| <= len
      invariant SpliceFrom(r, rs, k) == SpliceFrom(mismatching, rs, 0)
      decreases len - k
    {
      if k < |r| {
        var both := AnyWithRoute(matching, r[k].route);
        if both {
          r := r[..k] + r[k + 1..];
        }
      }
      k := k + 1;
    }
  }

  /** No route of `rs` sits right after another one from index `k` on. */
  predicate NoAdjacentStale(arr: seq<Entry>, rs: set<nat>, k: nat)
  {
    forall j :: k <= j && j + 1 < |arr| && arr[j].route in rs ==> arr[j + 1].route !in rs
  }

  lemma WithoutRoutesCons(e: Entry, tail: seq<Entry>, rs: set<nat>)
    ensures WithoutRoutes([e] + tail, rs) == (if e.route in rs then [] else [e]) + WithoutRoutes(tail, rs)
    decreases |tail|
  {
    if tail == [] {
      assert [e] + tail == [e];
      assert WithoutRoutes([e], rs) == WithoutRoutes([], rs) + (if e.route in rs then [] else [e]);
    } else {
      var all := [e] + tail;
      assert all[..|all| - 1] == [e] + tail[..|tail| - 1];
      WithoutRoutesCons(e, tail[..|tail| - 1], rs);
    }
  }

  lemma SpliceLiveStep(arr: seq<Entry>, rs: set<nat>, k: nat)
    requires k < |arr| && arr[k].route !in rs
    ensures arr[..k + 1] + WithoutRoutes(arr[k + 1..], rs) == arr[..k] + WithoutRoutes(arr[k..], rs)
  {
    assert arr[k..] == [arr[k]] + arr[k + 1..];
    WithoutRoutesCons(arr[k], arr[k + 1..], rs);
    assert arr[..k + 1] == arr[..k] + [arr[k]];
  }

  lemma SpliceStaleLastStep(arr: seq<Entry>, rs: set<nat>, k: nat)
    requires k + 1 == |arr| && arr[k].route in rs
    ensures arr[..k] + arr[k + 1..] == arr[..k] + WithoutRoutes(arr[k..], rs)
  {
    assert arr[k..] == [arr[k]];
    assert arr[k + 1..] == [];
    assert WithoutRoutes([arr[k]], rs) == WithoutRoutes([], rs);
  }

  lemma SpliceStaleStep(arr: seq<Entry>, rs: set<nat>, k: nat)
    requires k + 1 < |arr| && arr[k].route in rs && arr[k + 1].route !in rs
    ensures var next := arr[..k] + arr[k + 1..];
      next[..k + 1] + WithoutRoutes(next[k + 1..], rs) == arr[..k] + WithoutRoutes(arr[k..], rs)
  {
    var next := arr[..k] + arr[k + 1..];
    assert next[..k + 1] == arr[..k] + [arr[k + 1]];
    assert next[k + 1..] == arr[k + 2..];
    assert arr[k..] == [arr[k]] + ([arr[k + 1]] + arr[k + 2..]);
    WithoutRoutesCons(arr[k], [arr[k + 1]] + arr[k + 2..], rs);
    WithoutRoutesCons(arr[k + 1], arr[k + 2..], rs);
  }

  /** Without two adjacent stale entries the splice walk removes exactly the stale ones. */
  lemma {:induction false} SpliceExactWhenIsolated(arr: seq<Entry>, rs: set<nat>, k: nat)
    requires k <= |arr| && NoAdjacentStale(arr, rs, k)
    ensures SpliceFrom(arr, rs, k) == arr[..k] + WithoutRoutes(arr[k..], rs)
    decreases |arr| - k
  {
    if k == |arr| {
      assert arr[k..] == [];
      assert arr[..k] == arr;
    } else if arr[k].route in rs {
      var next := arr[..k] + arr[k + 1..];
      if k + 1 == |arr| {
        SpliceStaleLastStep(arr, rs, k);
      } else {
        assert NoAdjacentStale(next, rs, k + 1) by {
          forall j | k + 1 <= j && j + 1 < |next| && next[j].route in rs
            ensures next[j + 1].route !in rs
          {
            assert next[j] == arr[j + 1] && next[j + 1] == arr[j + 2];
          }
        }
        SpliceExactWhenIsolated(next, rs, k + 1);
        SpliceStaleStep(arr, rs, k);
      }
    } else {
      SpliceExactWhenIsolated(arr, rs, k + 1);
      SpliceLiveStep(arr, rs, k);
    }
  }

  /** The walk never drops an entry whose route is not stale, and keeps nothing new. */
  lemma {:induction false} SpliceKeepsLive(arr: seq<Entry>, rs: set<nat>, k: nat)
    ensures forall e :: e in SpliceFrom(arr, rs, k) ==> e in arr
    ensures forall e :: e in arr && e.route !in rs ==> e in SpliceFrom(arr, rs, k)
    decreases |arr| - k
  {
    if k < |arr| {
      if arr[k].route in rs {
        var next := arr[..k] + arr[k + 1..];
        SpliceKeepsLive(next, rs, k + 1);
        assert arr == arr[..k] + [arr[k]] + arr[k + 1..];
        forall e | e in arr && e.route !in rs ensures e in next {
          assert e != arr[k];
        }
      } else {
        SpliceKeepsLive(arr, rs, k + 1);
      }
    }
  }

  // ---------------------------------------------------------------------------------------
  // Looking a binding up in a list (`containsCurrentRoute` and the `find` calls)

  /** The first entry for `route`. */
  function FindRoute(es: seq<Entry>, route: nat): (f: Option<Entry>)
    ensures f.None? <==> route !in RoutesOf(es)
    ensures f.Some? ==> f.value in es && f.value.route == route
    ensures f.Some? ==> exists k :: 0 <= k < |es| && es[k] == f.value && forall j :: 0 <= j < k ==> es[j].route != route
  {
    if es == [] then None
    else if es[0].route == route then Some(es[0])
    else
      var f := FindRoute(es[1..], route);
      assert forall e :: e in es[1..] ==> e in es;
      assert forall e :: e in es && e != es[0] ==> e in es[1..];
      if f.Some? then
        ghost var k :| 0 <= k < |es[1..]| && es[1..][k] == f.value && forall j :: 0 <= j < k ==> es[1..][j].route != route;
        assert es[k + 1] == f.value;
        f
      else f
  }

  /** The entry of exactly this binding (`recheckResult.route === routeObj`). */
  function FindBinding(es: seq<Entry>, binding: nat): (f: Option<Entry>)
    ensures f.None? <==> forall e :: e in es ==> e.binding != binding
    ensures f.Some? ==> f.value in es && f.value.binding == binding
  {
    if es == [] then None
    else if es[0].binding == binding then Some(es[0])
    else
      assert forall e :: e in es && e != es[0] ==> e in es[1..];
      FindBinding(es[1..], binding)
  }

  // ---------------------------------------------------------------------------------------
  // Routes as the routers see them

  /** A route's `$isOpened`, `$params` and `$query`. */
  datatype RouteView = RouteView(isOpened: bool, params: Record, query: Record)

  const ClosedView: RouteView := RouteView(false, map[], map[])

  /** Routes the router has not driven yet are closed with empty params and query. */
  function ViewOf(vs: map<nat, RouteView>, route: nat): RouteView
  {
    if route in vs then vs[route] else ClosedView
  }

  /** A call the router makes on a route: `opened`/`updated` with `{params, query}`, or `closed` (`left`). */
  datatype Notice = Opened(params: Option<Record>, query: Record) | Updated(params: Option<Record>, query: Record) | Closed

  datatype RouteEvent = RouteEvent(route: nat, notice: Notice)

  /**
   * How a route reacts. `DomainRoute` is a non-virtual route of `methods/create-route`: its
   * params go through `equalsFilter`, `closed` resets them to `{}`, and its query is the
   * domain's query while open. `LegacyRoute` is the earliest `createRoute`: `opened` and
   * `updated` store params and query, and `left` only clears `$isOpened`.
   */
  datatype RouteKind = DomainRoute(domainQuery: Record) | LegacyRoute

  function React(kind: RouteKind, v: RouteView, n: Notice): (r: RouteView)
    ensures n.Opened? ==> r.isOpened
    ensures n.Updated? && kind.DomainRoute? ==> r.isOpened
    ensures n.Updated? && kind.LegacyRoute? ==> r.isOpened == v.isOpened
    ensures n.Closed? ==> !r.isOpened
    ensures kind.LegacyRoute? && n.Closed? ==> r.params == v.params && r.query == v.query
    ensures kind.DomainRoute? && !n.Closed? ==> r.query == kind.domainQuery
    ensures kind.DomainRoute? && !n.Closed? ==>
      r.params == (if EqualsFilter(n.params.GetOr(map[]), v.params) then n.params.GetOr(map[]) else v.params)
  {
    match kind
    case DomainRoute(dq) =>
      (match n
       case Closed => RouteView(false, map[], map[])
       case _ =>
         var p := n.params.GetOr(map[]);
         RouteView(true, if EqualsFilter(p, v.params) then p else v.params, dq))
    case LegacyRoute =>
      (match n
       case Closed => v.(isOpened := false)
       case Opened(p, q) => RouteView(true, p.GetOr(v.params), q)
       case Updated(p, q) => v.(params := p.GetOr(v.params), query := q))
  }

  /** Whether a router calls `updated` on an open route that matched again. */
  datatype UpdateRule = NoUpdate | AlwaysUpdate | UpdateWhenChanged

  /**
   * A router's guards: whether results are looked up by binding (`=== routeObj`) or by route,
   * when `updated` fires, and what kind of route it drives.
   */
  datatype Rules = Rules(byBinding: bool, update: UpdateRule, kind: RouteKind)

  function Lookup(rules: Rules, es: seq<Entry>, table: seq<RT.Binding>, i: nat): (f: Option<Entry>)
    requires i < |table|
    ensures f.Some? ==> f.value in es
    ensures !rules.byBinding ==> (f.Some? <==> table[i].route.id in RoutesOf(es))
    ensures rules.byBinding ==> (f.Some? <==> exists e :: e in es && e.binding == i)
  {
    if rules.byBinding then FindBinding(es, i) else FindRoute(es, table[i].route.id)
  }

  /** The `updated` filter: params or query differ under `paramsEqual`. */
  predicate Changed(v: RouteView, e: Entry)
  {
    !Equals(v.params, e.params.GetOr(map[])) || !Equals(v.query, e.query)
  }

  /** The guards of one binding found in the matching list. */
  function MatchedNotice(rules: Rules, v: RouteView, e: Entry, openBlocked: bool): (n: Option<Notice>)
    ensures n.Some? ==> n.value == Opened(e.params, e.query) || n.value == Updated(e.params, e.query)
    ensures n == Some(Opened(e.params, e.query)) <==> !v.isOpened && !openBlocked
    ensures n == Some(Updated(e.params, e.query)) <==>
      v.isOpened && (rules.update.AlwaysUpdate? || (rules.update.UpdateWhenChanged? && Changed(v, e)))
    ensures n.None? <==>
      (!v.isOpened && openBlocked) || (v.isOpened && (rules.update.NoUpdate? || (rules.update.UpdateWhenChanged? && !Changed(v, e))))
  {
    if !v.isOpened then (if openBlocked then None else Some(Opened(e.params, e.query)))
    else match rules.update
      case NoUpdate => None
      case AlwaysUpdate => Some(Updated(e.params, e.query))
      case UpdateWhenChanged => if Changed(v, e) then Some(Updated(e.params, e.query)) else None
  }

  /**
   * The matching list reaches the guards of each binding in table order; each call's effect on
   * its route is seen by the guards that follow.
   */
  function GateMatched(rules: Rules, table: seq<RT.Binding>, es: seq<Entry>, vs: map<nat, RouteView>, openBlocked: bool, i: nat): (seq<RouteEvent>, map<nat, RouteView>)
    decreases |table| - i
  {
    if i >= |table| then ([], vs)
    else
      var r := table[i].route.id;
      var f := Lookup(rules, es, table, i);
      var n := if f.Some? then MatchedNotice(rules, ViewOf(vs, r), f.value, openBlocked) else None;
      var vs' := if n.Some? then vs[r := React(rules.kind, ViewOf(vs, r), n.value)] else vs;
      var rest := GateMatched(rules, table, es, vs', openBlocked, i + 1);
      ((if n.Some? then [RouteEvent(r, n.value)] else []) + rest.0, rest.1)
  }

  /** The mismatching list reaches the `closed` guard (route open) of each binding in table order. */
  function GateMismatched(rules: Rules, table: seq<RT.Binding>, es: seq<Entry>, vs: map<nat, RouteView>, i: nat): (seq<RouteEvent>, map<nat, RouteView>)
    decreases |table| - i
  {
    if i >= |table| then ([], vs)
    else
      var r := table[i].route.id;
      var fire := Lookup(rules, es, table, i).Some? && ViewOf(vs, r).isOpened;
      var vs' := if fire then vs[r := React(rules.kind, ViewOf(vs, r), Closed)] else vs;
      var rest := GateMismatched(rules, table, es, vs', i + 1);
      ((if fire then [RouteEvent(r, Closed)] else []) + rest.0, rest.1)
  }

  /** The route ids that occur in the table. */
  function TableRoutes(table: seq<RT.Binding>): set<nat>
  {
    set b | b in table :: b.route.id
  }

  /** `ev` is an `opened` call on route `r`. */
  predicate OpensRoute(ev: RouteEvent, r: nat)
  {
    ev.route == r && ev.notice.Opened?
  }

  /** Some event before index `k` opens route `r`. */
  predicate OpenedBefore(evs: seq<RouteEvent>, k: nat, r: nat)
    requires k <= |evs|
  {
    exists j :: 0 <= j < k && OpensRoute(evs[j], r)
  }

  /** The matching pass calls only `opened` and `updated`, only on routes of the table, and leaves other routes alone. */
  lemma {:induction false} GateMatchedScope(rules: Rules, table: seq<RT.Binding>, es: seq<Entry>, vs: map<nat, RouteView>, openBlocked: bool, i: nat)
    ensures forall k :: 0 <= k < |GateMatched(rules, table, es, vs, openBlocked, i).0| ==>
      var ev := GateMatched(rules, table, es, vs, openBlocked, i).0[k];
      !ev.notice.Closed? && ev.route in TableRoutes(table)
    ensures forall r :: r !in TableRoutes(table) ==> ViewOf(GateMatched(rules, table, es, vs, openBlocked, i).1, r) == ViewOf(vs, r)
    decreases |table| - i
  {
    if i < |table| {
      var r := table[i].route.id;
      var f := Lookup(rules, es, table, i);
      var n := if f.Some? then MatchedNotice(rules, ViewOf(vs, r), f.value, openBlocked) else None;
      var vs' := if n.Some? then vs[r := React(rules.kind, ViewOf(vs, r), n.value)] else vs;
      GateMatchedScope(rules, table, es, vs', openBlocked, i + 1);
      var rest := GateMatched(rules, table, es, vs', openBlocked, i + 1);
      var all := GateMatched(rules, table, es, vs, openBlocked, i);
      assert all.1 == rest.1;
      assert table[i] in table;
      forall k | 0 <= k < |all.0|
        ensures !all.0[k].notice.Closed? && all.0[k].route in TableRoutes(table)
      {
        if n.Some? {
          assert all.0 == [RouteEvent(r, n.value)] + rest.0;
          if k > 0 {
            assert all.0[k] == rest.0[k - 1];
          }
        } else {
          assert all.0 == rest.0;
        }
      }
      forall q | q !in TableRoutes(table) ensures ViewOf(all.1, q) == ViewOf(vs, q) {
        assert q != r;
        assert ViewOf(vs', q) == ViewOf(vs, q);
      }
    }
  }

  /**
   * `opened` reaches only routes that were closed before the pass, never while opening is
   * blocked, and always with the params and query of an entry of the list.
   */
  lemma {:induction false} GateMatchedOpens(rules: Rules, table: seq<RT.Binding>, es: seq<Entry>, vs: map<nat, RouteView>, openBlocked: bool, i: nat)
    ensures forall k :: 0 <= k < |GateMatched(rules, table, es, vs, openBlocked, i).0| ==>
      var ev := GateMatched(rules, table, es, vs, openBlocked, i).0[k];
      ev.notice.Opened? ==>
        !ViewOf(vs, ev.route).isOpened && !openBlocked &&
        exists e :: e in es && ev.notice == Opened(e.params, e.query)
    decreases |table| - i
  {
    if i < |table| {
      var r := table[i].route.id;
      var f := Lookup(rules, es, table, i);
      var n := if f.Some? then MatchedNotice(rules, ViewOf(vs, r), f.value, openBlocked) else None;
      var vs' := if n.Some? then vs[r := React(rules.kind, ViewOf(vs, r), n.value)] else vs;
      GateMatchedOpens(rules, table, es, vs', openBlocked, i + 1);
      var rest := GateMatched(rules, table, es, vs', openBlocked, i + 1).0;
      var evs := GateMatched(rules, table, es, vs, openBlocked, i).0;
      forall k | 0 <= k < |evs| && evs[k].notice.Opened?
        ensures !ViewOf(vs, evs[k].route).isOpened && !openBlocked
        ensures exists e :: e in es && evs[k].notice == Opened(e.params, e.query)
      {
        if n.Some? {
          assert evs == [RouteEvent(r, n.value)] + rest;
          if k == 0 {
            assert f.value in es && n.value == Opened(f.value.params, f.value.query);
          } else {
            assert evs[k] == rest[k - 1];
            assert ViewOf(vs', r).isOpened;
            var q := evs[k].route;
            assert q != r;
            assert ViewOf(vs', q) == ViewOf(vs, q);
          }
        } else {
          assert evs == rest;
        }
      }
    }
  }

  /** `n` is `opened` or `updated` with the params and query of `e`. */
  predicate EntryNotice(e: Entry, n: Notice)
  {
    n == Opened(e.params, e.query) || n == Updated(e.params, e.query)
  }

  predicate CarriesEntry(es: seq<Entry>, n: Notice)
  {
    exists e :: e in es && EntryNotice(e, n)
  }

  /** Every call of the matching pass carries the params and query of an entry of the list. */
  lemma {:induction false} GateMatchedPayloads(rules: Rules, table: seq<RT.Binding>, es: seq<Entry>, vs: map<nat, RouteView>, openBlocked: bool, i: nat)
    ensures forall k :: 0 <= k < |GateMatched(rules, table, es, vs, openBlocked, i).0| ==>
      CarriesEntry(es, GateMatched(rules, table, es, vs, openBlocked, i).0[k].notice)
    decreases |table| - i
  {
    if i < |table| {
      var r := table[i].route.id;
      var f := Lookup(rules, es, table, i);
      var n := if f.Some? then MatchedNotice(rules, ViewOf(vs, r), f.value, openBlocked) else None;
      var vs' := if n.Some? then vs[r := React(rules.kind, ViewOf(vs, r), n.value)] else vs;
      GateMatchedPayloads(rules, table, es, vs', openBlocked, i + 1);
      var rest := GateMatched(rules, table, es, vs', openBlocked, i + 1).0;
      var evs := GateMatched(rules, table, es, vs, openBlocked, i).0;
      forall k | 0 <= k < |evs|
        ensures CarriesEntry(es, evs[k].notice)
      {
        if n.Some? {
          assert evs == [RouteEvent(r, n.value)] + rest;
          if k == 0 {
            assert f.value in es;
            assert EntryNotice(f.value, n.value);
          } else {
            assert evs[k] == rest[k - 1];
          }
        } else {
          assert evs == rest;
        }
      }
    }
  }

  /** `updated` reaches only routes that were open before the pass or were opened earlier in it. */
  lemma {:induction false} GateMatchedUpdates(rules: Rules, table: seq<RT.Binding>, es: seq<Entry>, vs: map<nat, RouteView>, openBlocked: bool, i: nat)
    ensures forall k :: 0 <= k < |GateMatched(rules, table, es, vs, openBlocked, i).0| ==>
      var evs := GateMatched(rules, table, es, vs, openBlocked, i).0;
      evs[k].notice.Updated? ==> ViewOf(vs, evs[k].route).isOpened || OpenedBefore(evs, k, evs[k].route)
    decreases |table| - i
  {
    if i < |table| {
      var r := table[i].route.id;
      var f := Lookup(rules, es, table, i);
      var n := if f.Some? then MatchedNotice(rules, ViewOf(vs, r), f.value, openBlocked) else None;
      var vs' := if n.Some? then vs[r := React(rules.kind, ViewOf(vs, r), n.value)] else vs;
      GateMatchedUpdates(rules, table, es, vs', openBlocked, i + 1);
      var rest := GateMatched(rules, table, es, vs', openBlocked, i + 1).0;
      if n.Some? {
        assert GateMatched(rules, table, es, vs, openBlocked, i).0 == [RouteEvent(r, n.value)] + rest;
        UpdatesAfterCons(RouteEvent(r, n.value), rest, vs, vs');
      } else {
        assert GateMatched(rules, table, es, vs, openBlocked, i).0 == rest;
      }
    }
  }

  /**
   * An `opened` or `updated` in front of events that update only routes open in `vs'` or
   * opened earlier: when `vs'` differs from `vs` only at that event's route and an `updated`
   * there finds the route open, all of them update only routes open in `vs` or opened earlier.
   */
  lemma UpdatesAfterCons(ev0: RouteEvent, rest: seq<RouteEvent>, vs: map<nat, RouteView>, vs': map<nat, RouteView>)
    requires ev0.notice.Opened? || ev0.notice.Updated?
    requires ev0.notice.Updated? ==> ViewOf(vs, ev0.route).isOpened
    requires forall q :: q != ev0.route ==> ViewOf(vs', q) == ViewOf(vs, q)
    requires forall k :: 0 <= k < |rest| && rest[k].notice.Updated? ==>
      ViewOf(vs', rest[k].route).isOpened || OpenedBefore(rest, k, rest[k].route)
    ensures var evs := [ev0] + rest;
      forall k :: 0 <= k < |evs| && evs[k].notice.Updated? ==> ViewOf(vs, evs[k].route).isOpened || OpenedBefore(evs, k, evs[k].route)
  {
    var evs := [ev0] + rest;
    forall k | 0 <= k < |evs| && evs[k].notice.Updated?
      ensures ViewOf(vs, evs[k].route).isOpened || OpenedBefore(evs, k, evs[k].route)
    {
      if k > 0 {
        assert evs[k] == rest[k - 1];
        var q := evs[k].route;
        if q == ev0.route {
          if ev0.notice.Opened? {
            assert OpensRoute(evs[0], q);
          }
        } else if OpenedBefore(rest, k - 1, q) {
          var j :| 0 <= j < k - 1 && OpensRoute(rest[j], q);
          assert OpensRoute(evs[j + 1], q);
        }
      }
    }
  }


  /**
   * `closed` reaches only routes of the table that were open before the pass, and each at
   * most once; no route is opened by it.
   */
  lemma {:induction false} GateMismatchedEdges(rules: Rules, table: seq<RT.Binding>, es: seq<Entry>, vs: map<nat, RouteView>, i: nat)
    ensures forall k :: 0 <= k < |GateMismatched(rules, table, es, vs, i).0| ==>
      var ev := GateMismatched(rules, table, es, vs, i).0[k];
      ev.notice.Closed? && ViewOf(vs, ev.route).isOpened && ev.route in TableRoutes(table)
    ensures forall k, j :: 0 <= j < k < |GateMismatched(rules, table, es, vs, i).0| ==>
      GateMismatched(rules, table, es, vs, i).0[j].route != GateMismatched(rules, table, es, vs, i).0[k].route
    ensures forall r :: ViewOf(GateMismatched(rules, table, es, vs, i).1, r).isOpened ==> ViewOf(vs, r).isOpened
    decreases |table| - i
  {
    if i < |table| {
      var r := table[i].route.id;
      var fire := Lookup(rules, es, table, i).Some? && ViewOf(vs, r).isOpened;
      var vs' := if fire then vs[r := React(rules.kind, ViewOf(vs, r), Closed)] else vs;
      GateMismatchedEdges(rules, table, es, vs', i + 1);
      var rest := GateMismatched(rules, table, es, vs', i + 1);
      var all := GateMismatched(rules, table, es, vs, i);
      assert all.1 == rest.1;
      assert table[i] in table;
      forall q | q != r ensures ViewOf(vs', q) == ViewOf(vs, q) { }
      if fire {
        assert !ViewOf(vs', r).isOpened;
        assert all.0 == [RouteEvent(r, Closed)] + rest.0;
        forall k | 1 <= k < |all.0| ensures all.0[k] == rest.0[k - 1] && all.0[k].route != r { }
      } else {
        assert all.0 == rest.0;
      }
    }
  }

  // ---------------------------------------------------------------------------------------
  // What a full pass leaves behind

  /** Either list reaching the guards empty calls nothing and changes nothing. */
  lemma {:induction false} GateOnEmpty(rules: Rules, table: seq<RT.Binding>, vs: map<nat, RouteView>, openBlocked: bool, i: nat)
    ensures GateMatched(rules, table, [], vs, openBlocked, i) == ([], vs)
    ensures GateMismatched(rules, table, [], vs, i) == ([], vs)
    decreases |table| - i
  {
    if i < |table| {
      assert RoutesOf([]) == {};
      assert Lookup(rules, [], table, i).None?;
      GateOnEmpty(rules, table, vs, openBlocked, i + 1);
      var rest := GateMatched(rules, table, [], vs, openBlocked, i + 1);
      assert rest.0 == [] && rest.1 == vs;
      assert GateMatched(rules, table, [], vs, openBlocked, i) == ([] + rest.0, rest.1);
      assert [] + rest.0 == [];
    }
  }

  /** The matching pass never closes a route. */
  lemma {:induction false} GateMatchedKeepsOpen(rules: Rules, table: seq<RT.Binding>, es: seq<Entry>, vs: map<nat, RouteView>, openBlocked: bool, i: nat)
    ensures forall r :: ViewOf(vs, r).isOpened ==> ViewOf(GateMatched(rules, table, es, vs, openBlocked, i).1, r).isOpened
    decreases |table| - i
  {
    if i < |table| {
      var r := table[i].route.id;
      var f := Lookup(rules, es, table, i);
      var n := if f.Some? then MatchedNotice(rules, ViewOf(vs, r), f.value, openBlocked) else None;
      var vs' := if n.Some? then vs[r := React(rules.kind, ViewOf(vs, r), n.value)] else vs;
      GateMatchedKeepsOpen(rules, table, es, vs', openBlocked, i + 1);
      forall q | ViewOf(vs, q).isOpened ensures ViewOf(vs', q).isOpened {
      }
    }
  }

  /** Without an `updated` guard, the matching pass only ever calls `opened`. */
  lemma {:induction false} GateMatchedOnlyOpens(rules: Rules, table: seq<RT.Binding>, es: seq<Entry>, vs: map<nat, RouteView>, openBlocked: bool, i: nat)
    requires rules.update.NoUpdate?
    ensures forall k :: 0 <= k < |GateMatched(rules, table, es, vs, openBlocked, i).0| ==>
      GateMatched(rules, table, es, vs, openBlocked, i).0[k].notice.Opened?
    decreases |table| - i
  {
    if i < |table| {
      var r := table[i].route.id;
      var f := Lookup(rules, es, table, i);
      var n := if f.Some? then MatchedNotice(rules, ViewOf(vs, r), f.value, openBlocked) else None;
      var vs' := if n.Some? then vs[r := React(rules.kind, ViewOf(vs, r), n.value)] else vs;
      GateMatchedOnlyOpens(rules, table, es, vs', openBlocked, i + 1);
      var rest := GateMatched(rules, table, es, vs', openBlocked, i + 1);
      var all := GateMatched(rules, table, es, vs, openBlocked, i);
      forall k | 0 <= k < |all.0| ensures all.0[k].notice.Opened? {
        if n.Some? {
          assert all.0 == [RouteEvent(r, n.value)] + rest.0;
          if k > 0 {
            assert all.0[k] == rest.0[k - 1];
          }
        } else {
          assert all.0 == rest.0;
        }
      }
    }
  }

  /** Unblocked, the matching pass leaves open the route of every binding whose guard finds an entry. */
  lemma {:induction false} GateMatchedOpensFound(rules: Rules, table: seq<RT.Binding>, es: seq<Entry>, vs: map<nat, RouteView>, i: nat)
    ensures forall j :: i <= j < |table| && Lookup(rules, es, table, j).Some? ==>
      ViewOf(GateMatched(rules, table, es, vs, false, i).1, table[j].route.id).isOpened
    decreases |table| - i
  {
    if i < |table| {
      var r := table[i].route.id;
      var f := Lookup(rules, es, table, i);
      var n := if f.Some? then MatchedNotice(rules, ViewOf(vs, r), f.value, false) else None;
      var vs' := if n.Some? then vs[r := React(rules.kind, ViewOf(vs, r), n.value)] else vs;
      GateMatchedOpensFound(rules, table, es, vs', i + 1);
      GateMatchedKeepsOpen(rules, table, es, vs', false, i + 1);
      if f.Some? {
        assert ViewOf(vs', r).isOpened;
      }
    }
  }

  /** Looked up by route and unblocked, the matching pass leaves every listed route of the table open. */
  lemma GateMatchedOpensAll(rules: Rules, table: seq<RT.Binding>, es: seq<Entry>, vs: map<nat, RouteView>, i: nat)
    requires !rules.byBinding
    ensures forall j :: i <= j < |table| && table[j].route.id in RoutesOf(es) ==>
      ViewOf(GateMatched(rules, table, es, vs, false, i).1, table[j].route.id).isOpened
  {
    GateMatchedOpensFound(rules, table, es, vs, i);
    forall j | i <= j < |table| && table[j].route.id in RoutesOf(es)
      ensures Lookup(rules, es, table, j).Some?
    {
    }
  }

  /** Every entry names a binding of the table and carries that binding's route. */
  predicate Consistent(table: seq<RT.Binding>, es: seq<Entry>)
  {
    forall e :: e in es ==> e.binding < |table| && e.route == table[e.binding].route.id
  }

  /**
   * The matching pass calls and changes only the routes of its list, when it looks up by route
   * or its entries carry their bindings' routes.
   */
  lemma {:induction false} GateMatchedOnlyListed(rules: Rules, table: seq<RT.Binding>, es: seq<Entry>, vs: map<nat, RouteView>, openBlocked: bool, i: nat)
    requires !rules.byBinding || Consistent(table, es)
    ensures forall k :: 0 <= k < |GateMatched(rules, table, es, vs, openBlocked, i).0| ==>
      GateMatched(rules, table, es, vs, openBlocked, i).0[k].route in RoutesOf(es)
    ensures forall r :: r !in RoutesOf(es) ==> ViewOf(GateMatched(rules, table, es, vs, openBlocked, i).1, r) == ViewOf(vs, r)
    decreases |table| - i
  {
    if i < |table| {
      var r := table[i].route.id;
      var f := Lookup(rules, es, table, i);
      var n := if f.Some? then MatchedNotice(rules, ViewOf(vs, r), f.value, openBlocked) else None;
      var vs' := if n.Some? then vs[r := React(rules.kind, ViewOf(vs, r), n.value)] else vs;
      if f.Some? {
        assert f.value.route == r;
      }
      GateMatchedOnlyListed(rules, table, es, vs', openBlocked, i + 1);
      var rest := GateMatched(rules, table, es, vs', openBlocked, i + 1);
      var all := GateMatched(rules, table, es, vs, openBlocked, i);
      assert all.1 == rest.1;
      forall k | 0 <= k < |all.0| ensures all.0[k].route in RoutesOf(es) {
        if n.Some? {
          assert all.0 == [RouteEvent(r, n.value)] + rest.0;
          if k > 0 {
            assert all.0[k] == rest.0[k - 1];
          }
        } else {
          assert all.0 == rest.0;
        }
      }
      forall q | q !in RoutesOf(es) ensures ViewOf(vs', q) == ViewOf(vs, q) {
      }
    }
  }

  /**
   * The mismatching pass calls and changes only the routes of its list, when it looks up by
   * route or its entries carry their bindings' routes.
   */
  lemma {:induction false} GateMismatchedOnlyListed(rules: Rules, table: seq<RT.Binding>, es: seq<Entry>, vs: map<nat, RouteView>, i: nat)
    requires !rules.byBinding || Consistent(table, es)
    ensures forall k :: 0 <= k < |GateMismatched(rules, table, es, vs, i).0| ==>
      GateMismatched(rules, table, es, vs, i).0[k].route in RoutesOf(es)
    ensures forall r :: r !in RoutesOf(es) ==> ViewOf(GateMismatched(rules, table, es, vs, i).1, r) == ViewOf(vs, r)
    decreases |table| - i
  {
    if i < |table| {
      var r := table[i].route.id;
      var fire := Lookup(rules, es, table, i).Some? && ViewOf(vs, r).isOpened;
      var vs' := if fire then vs[r := React(rules.kind, ViewOf(vs, r), Closed)] else vs;
      if fire {
        assert Lookup(rules, es, table, i).value.route == r;
      }
      GateMismatchedOnlyListed(rules, table, es, vs', i + 1);
      var rest := GateMismatched(rules, table, es, vs', i + 1);
      var all := GateMismatched(rules, table, es, vs, i);
      assert all.1 == rest.1;
      forall k | 0 <= k < |all.0| ensures all.0[k].route in RoutesOf(es) {
        if fire {
          assert all.0 == [RouteEvent(r, Closed)] + rest.0;
          if k > 0 {
            assert all.0[k] == rest.0[k - 1];
          }
        } else {
          assert all.0 == rest.0;
        }
      }
      forall q | q !in RoutesOf(es) ensures ViewOf(vs', q) == ViewOf(vs, q) {
      }
    }
  }

  /** The mismatching pass leaves closed the route of every binding whose guard finds an entry. */
  lemma {:induction false} GateMismatchedClosesFound(rules: Rules, table: seq<RT.Binding>, es: seq<Entry>, vs: map<nat, RouteView>, i: nat)
    ensures forall j :: i <= j < |table| && Lookup(rules, es, table, j).Some? ==>
      !ViewOf(GateMismatched(rules, table, es, vs, i).1, table[j].route.id).isOpened
    decreases |table| - i
  {
    if i < |table| {
      var r := table[i].route.id;
      var fire := Lookup(rules, es, table, i).Some? && ViewOf(vs, r).isOpened;
      var vs' := if fire then vs[r := React(rules.kind, ViewOf(vs, r), Closed)] else vs;
      GateMismatchedClosesFound(rules, table, es, vs', i + 1);
      GateMismatchedEdges(rules, table, es, vs', i + 1);
      if Lookup(rules, es, table, i).Some? {
        assert !ViewOf(vs', r).isOpened;
      }
    }
  }

  /**
   * The reconciler's purpose, for the filter form of the dedup and either kind of lookup: after
   * the matching pass and the mismatching pass, a route of the table is open exactly when one
   * of its bindings matched.
   */
  lemma ReconcileSyncsRoutes(rules: Rules, table: seq<RT.Binding>, loc: Location, m: Matcher, useHash: bool, vs: map<nat, RouteView>)
    ensures var matching := Matched(table, |table|, loc, m, useHash);
      var closing := WithoutRoutes(Missed(table, |table|, loc, m, useHash), RoutesOf(matching));
      var after := GateMismatched(rules, table, closing, GateMatched(rules, table, matching, vs, false, 0).1, 0).1;
      forall j :: 0 <= j < |table| ==> (ViewOf(after, table[j].route.id).isOpened <==> table[j].route.id in RoutesOf(matching))
  {
    var matching := Matched(table, |table|, loc, m, useHash);
    var missed := Missed(table, |table|, loc, m, useHash);
    var closing := WithoutRoutes(missed, RoutesOf(matching));
    PartitionExact(table, |table|, loc, m, useHash);
    WithoutRoutesMembers(missed, RoutesOf(matching));
    forall j | 0 <= j < |table| && table[j].route.id !in RoutesOf(matching)
      ensures Lookup(rules, closing, table, j).Some?
    {
      var e := EntryAt(table, j, loc, m, useHash);
      assert e !in matching;
      assert e in missed && e in closing;
    }
    GatesSync(rules, table, matching, closing, vs);
  }

  /**
   * The two passes leave a route of the table open exactly when it is in the matching list,
   * once every binding of another route is found in the mismatching list and that list holds
   * no matching route.
   */
  lemma GatesSync(rules: Rules, table: seq<RT.Binding>, matching: seq<Entry>, closing: seq<Entry>, vs: map<nat, RouteView>)
    requires Consistent(table, matching) && Consistent(table, closing)
    requires forall e :: e in closing ==> e.route !in RoutesOf(matching)
    requires forall j :: 0 <= j < |table| && table[j].route.id !in RoutesOf(matching) ==> Lookup(rules, closing, table, j).Some?
    ensures var after := GateMismatched(rules, table, closing, GateMatched(rules, table, matching, vs, false, 0).1, 0).1;
      forall j :: 0 <= j < |table| ==> (ViewOf(after, table[j].route.id).isOpened <==> table[j].route.id in RoutesOf(matching))
  {
    var mid := GateMatched(rules, table, matching, vs, false, 0).1;
    var after := GateMismatched(rules, table, closing, mid, 0).1;
    GateMatchedOpensFound(rules, table, matching, vs, 0);
    GateMismatchedOnlyListed(rules, table, closing, mid, 0);
    GateMismatchedClosesFound(rules, table, closing, mid, 0);
    forall j | 0 <= j < |table|
      ensures ViewOf(after, table[j].route.id).isOpened <==> table[j].route.id in RoutesOf(matching)
    {
      var q := table[j].route.id;
      if q in RoutesOf(matching) {
        var e :| e in matching && e.route == q;
        assert Lookup(rules, matching, table, e.binding).Some?;
        assert q !in RoutesOf(closing);
      }
    }
  }


  /** The routes of a list, in order (`$activeRoutes`). */
  function RouteIds(es: seq<Entry>): (r: seq<nat>)
    ensures |r| == |es| && forall k :: 0 <= k < |es| ==> r[k] == es[k].route
  {
    if es == [] then [] else [es[0].route] + RouteIds(es[1..])
  }
}
