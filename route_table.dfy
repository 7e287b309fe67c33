/**
 * Route-table normalisation of the history routers (`remapRouteObjects`): every binding of one
 * path pattern to several routes is expanded into one binding per route, every path is prefixed
 * with the base path, and bindings of derived routes are dropped with one error each.
 */
module RouteTable {
  /** A route as the table sees it: its identity and whether it is derived (`settings.derived`). */
  datatype RouteRef = RouteRef(id: nat, derived: bool)

  /** The `route` field of an unmapped route object: one route or an array of routes. */
  datatype Routes = One(route: RouteRef) | Many(routes: seq<RouteRef>)

  /** An unmapped route object `{path, route}` as the router's caller writes it. */
  datatype RouteObject = RouteObject(path: string, routes: Routes)

  /** A mapped route object: one path pattern bound to one route. */
  datatype Binding = Binding(path: string, route: RouteRef)

  /** The bindings one route object stands for. */
  function Bindings(o: RouteObject): seq<Binding>
  {
    match o.routes
    case One(r) => [Binding(o.path, r)]
    case Many(rs) => seq(|rs|, i requires 0 <= i < |rs| => Binding(o.path, rs[i]))
  }

  /** All route objects expanded, in input order. */
  function Expand(objects: seq<RouteObject>): seq<Binding>
  {
    if objects == [] then [] else Bindings(objects[0]) + Expand(objects[1..])
  }

  function Prefixed(base: string, bs: seq<Binding>): (r: seq<Binding>)
    ensures |r| == |bs|
    ensures forall i :: 0 <= i < |bs| ==> r[i] == Binding(base + bs[i].path, bs[i].route)
  {
    if bs == [] then [] else [Binding(base + bs[0].path, bs[0].route)] + Prefixed(base, bs[1..])
  }

  function NonDerived(bs: seq<Binding>): seq<Binding>
  {
    if bs == [] then [] else (if bs[0].route.derived then [] else [bs[0]]) + NonDerived(bs[1..])
  }

  function Derived(bs: seq<Binding>): seq<Binding>
  {
    if bs == [] then [] else (if bs[0].route.derived then [bs[0]] else []) + Derived(bs[1..])
  }

  /** The error a derived binding is reported with; `logPrefix` is the message prefix of the variant. */
  function DerivedMessage(logPrefix: string, b: Binding): string
  {
    logPrefix + "createHistoryRouter: " + b.path + " uses derived route. This won't work"
  }

  function Messages(logPrefix: string, bs: seq<Binding>): (r: seq<string>)
    ensures |r| == |bs|
    ensures forall i :: 0 <= i < |bs| ==> r[i] == DerivedMessage(logPrefix, bs[i])
  {
    if bs == [] then [] else [DerivedMessage(logPrefix, bs[0])] + Messages(logPrefix, bs[1..])
  }

  /** The prefix of the messages in the newer helper file; the other two variants log without one. */
  const LibLogPrefix: string := "[Atomic-Router]: "

  /**
   * The expansion loop: an array-valued `route` becomes one binding per route with the same path,
   * anything else is kept. This loop alone is the earliest router's `remapRouteObjects`.
   */
  method ExpandRouteObjects(objects: seq<RouteObject>) returns (next: seq<Binding>)
    ensures next == Expand(objects)
  {
    next := [];
    var i := 0;
    while i < |objects|
      invariant 0 <= i <= |objects|
      invariant next == Expand(objects[..i])
    {
      var o := objects[i];
      ghost var before := next;
      match o.routes {
        case Many(rs) =>
          var j := 0;
          while j < |rs|
            invariant 0 <= j <= |rs|
            invariant next == before + Bindings(o)[..j]
          {
            assert Bindings(o)[..j + 1] == Bindings(o)[..j] + [Binding(o.path, rs[j])];
            next := next + [Binding(o.path, rs[j])];
            j := j + 1;
          }
          assert Bindings(o)[..j] == Bindings(o);
        case One(r) =>
          next := next + [Binding(o.path, r)];
      }
      ExpandOne(objects[..i], o);
      assert objects[..i + 1] == objects[..i] + [o];
      i := i + 1;
    }
    assert objects[..i] == objects;
  }

  lemma ExpandOne(a: seq<RouteObject>, o: RouteObject)
    ensures Expand(a + [o]) == Expand(a) + Bindings(o)
  {
    ExpandAppend(a, [o]);
    assert [o][1..] == [];
  }

  /**
   * `remapRouteObjects(objects, basePath)`: expand, prefix every path with `basePath`, split on
   * `derived`, log one error per derived binding and return the others.
   */
  method Remap(objects: seq<RouteObject>, basePath: string, logPrefix: string) returns (result: seq<Binding>, log: seq<string>)
    ensures result == NonDerived(Prefixed(basePath, Expand(objects)))
    ensures log == Messages(logPrefix, Derived(Prefixed(basePath, Expand(objects))))
  {
    var next := ExpandRouteObjects(objects);
    var prefixed := PrefixPaths(basePath, next);
    var derived;
    derived, result := SplitDerived(prefixed);
    log := LogDerived(logPrefix, derived);
  }

  /** `next.map(o => ({...o, path: basePath + o.path}))`. */
  method PrefixPaths(basePath: string, next: seq<Binding>) returns (prefixed: seq<Binding>)
    ensures prefixed == Prefixed(basePath, next)
  {
    prefixed := [];
    var i := 0;
    while i < |next|
      invariant 0 <= i <= |next|
      invariant |prefixed| == i
      invariant forall k :: 0 <= k < i ==> prefixed[k] == Binding(basePath + next[k].path, next[k].route)
    {
      prefixed := prefixed + [Binding(basePath + next[i].path, next[i].route)];
      i := i + 1;
    }
  }

  /** The loop that pushes each binding into `derivedRoutes` or `nonDerivedRoutes`. */
  method SplitDerived(bs: seq<Binding>) returns (derived: seq<Binding>, nonDerived: seq<Binding>)
    ensures derived == Derived(bs) && nonDerived == NonDerived(bs)
  {
    derived, nonDerived := [], [];
    var i := 0;
    while i < |bs|
      invariant 0 <= i <= |bs|
      invariant derived == Derived(bs[..i]) && nonDerived == NonDerived(bs[..i])
    {
      assert bs[..i + 1] == bs[..i] + [bs[i]];
      SplitAppend(bs[..i], [bs[i]]);
      if bs[i].route.derived {
        derived := derived + [bs[i]];
      } else {
        nonDerived := nonDerived + [bs[i]];
      }
      i := i + 1;
    }
    assert bs[..i] == bs;
  }

  /** One `console.error` per derived binding, in order. */
  method LogDerived(logPrefix: string, derived: seq<Binding>) returns (log: seq<string>)
    ensures log == Messages(logPrefix, derived)
  {
    log := [];
    var i := 0;
    while i < |derived|
      invariant 0 <= i <= |derived|
      invariant |log| == i
      invariant forall k :: 0 <= k < i ==> log[k] == DerivedMessage(logPrefix, derived[k])
    {
      log := log + [DerivedMessage(logPrefix, derived[i])];
      i := i + 1;
    }
  }

  /**
   * Splitting commutes with concatenation: the survivors of an earlier part come before those
   * of a later part, so both lists keep the input order.
   */
  lemma SplitAppend(a: seq<Binding>, b: seq<Binding>)
    ensures NonDerived(a + b) == NonDerived(a) + NonDerived(b)
    ensures Derived(a + b) == Derived(a) + Derived(b)
  {
    NonDerivedAppend(a, b);
    DerivedAppend(a, b);
  }

  lemma {:induction false} NonDerivedAppend(a: seq<Binding>, b: seq<Binding>)
    ensures NonDerived(a + b) == NonDerived(a) + NonDerived(b)
  {
    if a == [] {
      assert a + b == b;
    } else {
      var c := a + b;
      assert c[0] == a[0] && c[1..] == a[1..] + b;
      NonDerivedAppend(a[1..], b);
      var h: seq<Binding> := if a[0].route.derived then [] else [a[0]];
      assert NonDerived(c) == h + NonDerived(a[1..] + b);
      assert NonDerived(a) == h + NonDerived(a[1..]);
    }
  }

  lemma {:induction false} DerivedAppend(a: seq<Binding>, b: seq<Binding>)
    ensures Derived(a + b) == Derived(a) + Derived(b)
  {
    if a == [] {
      assert a + b == b;
    } else {
      var c := a + b;
      assert c[0] == a[0] && c[1..] == a[1..] + b;
      DerivedAppend(a[1..], b);
      var h: seq<Binding> := if a[0].route.derived then [a[0]] else [];
      assert Derived(c) == h + Derived(a[1..] + b);
      assert Derived(a) == h + Derived(a[1..]);
    }
  }


  lemma {:induction false} ExpandAppend(a: seq<RouteObject>, b: seq<RouteObject>)
    ensures Expand(a + b) == Expand(a) + Expand(b)
  {
    if a == [] {
      assert a + b == b;
    } else {
      assert (a + b)[0] == a[0] && (a + b)[1..] == a[1..] + b;
      ExpandAppend(a[1..], b);
    }
  }

  /** How many bindings one route object stands for. */
  function Width(o: RouteObject): nat
  {
    match o.routes
    case One(_) => 1
    case Many(rs) => |rs|
  }

  function TotalWidth(objects: seq<RouteObject>): nat
  {
    if objects == [] then 0 else Width(objects[0]) + TotalWidth(objects[1..])
  }

  /**
   * Expansion preserves order: the bindings of the i-th object form one block, after those of
   * every earlier object and before those of every later one.
   */
  lemma ExpandBlocks(objects: seq<RouteObject>, i: nat)
    requires i < |objects|
    ensures Expand(objects) == Expand(objects[..i]) + Bindings(objects[i]) + Expand(objects[i + 1..])
  {
    assert objects == objects[..i] + objects[i..];
    ExpandAppend(objects[..i], objects[i..]);
    assert objects[i..][0] == objects[i] && objects[i..][1..] == objects[i + 1..];
  }

  /** One binding per route of every array-valued object, one for every other object. */
  lemma {:induction false} ExpandLength(objects: seq<RouteObject>)
    ensures |Expand(objects)| == TotalWidth(objects)
  {
    if objects != [] {
      ExpandLength(objects[1..]);
    }
  }

  lemma {:induction false} NonDerivedMembers(bs: seq<Binding>)
    ensures forall b :: b in NonDerived(bs) <==> b in bs && !b.route.derived
    ensures forall b :: b in Derived(bs) <==> b in bs && b.route.derived
    ensures |NonDerived(bs)| + |Derived(bs)| == |bs|
  {
    if bs != [] {
      NonDerivedMembers(bs[1..]);
      assert bs == [bs[0]] + bs[1..];
    }
  }

  /**
   * What the router keeps: exactly the expanded bindings of non-derived routes, each path being
   * `basePath` followed by the object's path; one error is logged per dropped binding.
   */
  lemma RemapContents(objects: seq<RouteObject>, basePath: string, logPrefix: string)
    ensures var all := Prefixed(basePath, Expand(objects));
            (forall b :: b in NonDerived(all) <==>
               !b.route.derived && exists e :: e in Expand(objects) && b == Binding(basePath + e.path, e.route)) &&
            |NonDerived(all)| + |Messages(logPrefix, Derived(all))| == |Expand(objects)|
  {
    var next := Expand(objects);
    var all := Prefixed(basePath, next);
    NonDerivedMembers(all);
    PrefixedMembers(basePath, next);
  }

  /** A prefixed binding is a binding of the input with the base in front of its path. */
  lemma PrefixedMembers(base: string, bs: seq<Binding>)
    ensures forall b :: b in Prefixed(base, bs) <==> exists e :: e in bs && b == Binding(base + e.path, e.route)
  {
    var all := Prefixed(base, bs);
    forall b ensures b in all <==> exists e :: e in bs && b == Binding(base + e.path, e.route) {
      if b in all {
        var i :| 0 <= i < |all| && all[i] == b;
        assert bs[i] in bs;
      }
      if exists e :: e in bs && b == Binding(base + e.path, e.route) {
        var e :| e in bs && b == Binding(base + e.path, e.route);
        var i :| 0 <= i < |bs| && bs[i] == e;
        assert all[i] == b;
      }
    }
  }

  /** The default base path is empty, so every path is kept verbatim. */
  lemma DefaultBaseKeepsPaths(bs: seq<Binding>)
    ensures Prefixed("", bs) == bs
  {
    forall i | 0 <= i < |bs| ensures Prefixed("", bs)[i] == bs[i] {
      assert "" + bs[i].path == bs[i].path;
    }
  }
}
