/**
 * `attachPaths`: for each `[route, path]` pair in order, writes the route's internal
 * `pathPattern` in place, prefixed with its parent's pattern as it is at that moment; a pair
 * whose route was created virtual is reported and skipped. That is the intended test: the code
 * as written reads `route.virtual`, which no route object carries (`Write` and
 * `ChainedRouteGetsPatternAsWritten` model that reading).
 */
module AttachPaths {
  /** The internal record `route.__` of a route: its pattern, written in place, and its configuration. */
  class RouteInternals {
    var pathPattern: string
    const parent: RouteInternals?   // `route.__.config.parent`
    const isVirtual: bool            // `route.__.config.virtual`

    constructor (parent: RouteInternals?, isVirtual: bool)
      ensures this.parent == parent && this.isVirtual == isVirtual && pathPattern == ""
    {
      this.parent := parent;
      this.isVirtual := isVirtual;
      pathPattern := "";
    }
  }

  datatype Pair = Pair(route: RouteInternals, path: string)

  /** The `console.error` entry for a virtual route: the message and the route it names. */
  datatype VirtualError = VirtualError(message: string, route: RouteInternals)

  const VirtualMessage: string :=
    "[atomic-router] Virtual routes cannot have paths. Make sure you don't attach path to a chained route. Route: "

  /** The routes of the pairs and their parents: everything the loop reads or writes. */
  ghost function Involved(pairs: seq<Pair>): set<RouteInternals>
  {
    (set i | 0 <= i < |pairs| :: pairs[i].route) + (set i | 0 <= i < |pairs| && pairs[i].route.parent != null :: pairs[i].route.parent)
  }

  ghost function Snapshot(pairs: seq<Pair>): map<RouteInternals, string>
    reads Involved(pairs)
  {
    map r | r in Involved(pairs) :: r.pathPattern
  }

  function Lookup(patterns: map<RouteInternals, string>, r: RouteInternals): string
  {
    if r in patterns then patterns[r] else ""
  }

  /** The write of the `else` branch: the parent's pattern and `/`, when there is a parent, then the path. */
  function Write(patterns: map<RouteInternals, string>, pair: Pair): map<RouteInternals, string>
  {
    var parentPath := if pair.route.parent != null then Lookup(patterns, pair.route.parent) + "/" else "";
    patterns[pair.route := parentPath + pair.path]
  }

  /** One iteration of the loop on a map of patterns, with the virtual test read from the route's configuration. */
  function Step(patterns: map<RouteInternals, string>, pair: Pair): map<RouteInternals, string>
  {
    if pair.route.isVirtual then patterns else Write(patterns, pair)
  }

  /** The patterns after processing the pairs in order. */
  function Run(patterns: map<RouteInternals, string>, pairs: seq<Pair>): map<RouteInternals, string>
  {
    if pairs == [] then patterns else Step(Run(patterns, pairs[..|pairs| - 1]), pairs[|pairs| - 1])
  }

  function Errors(pairs: seq<Pair>): seq<VirtualError>
  {
    if pairs == [] then []
    else
      var last := pairs[|pairs| - 1];
      Errors(pairs[..|pairs| - 1]) + (if last.route.isVirtual then [VirtualError(VirtualMessage, last.route)] else [])
  }

  method Attach(pairs: seq<Pair>) returns (log: seq<VirtualError>)
    modifies set i | 0 <= i < |pairs| :: pairs[i].route
    ensures forall r :: r in Involved(pairs) ==> r.pathPattern == Lookup(Run(old(Snapshot(pairs)), pairs), r)
    ensures log == Errors(pairs)
  {
    ghost var init := Snapshot(pairs);
    log := [];
    var i := 0;
    while i < |pairs|
      invariant 0 <= i <= |pairs|
      invariant forall r :: r in Involved(pairs) ==> r.pathPattern == Lookup(Run(init, pairs[..i]), r)
      invariant log == Errors(pairs[..i])
    {
      RunSnoc(init, pairs, i);
      ghost var after := Step(Run(init, pairs[..i]), pairs[i]);
      var route := pairs[i].route;
      if route.isVirtual {
        log := log + [VirtualError(VirtualMessage, route)];
      } else {
        var parentPath := "";
        if route.parent != null {
          assert route.parent in Involved(pairs);
          parentPath := route.parent.pathPattern + "/";
        }
        assert after == Run(init, pairs[..i])[route := parentPath + pairs[i].path];
        route.pathPattern := parentPath + pairs[i].path;
      }
      i := i + 1;
    }
    assert pairs[..i] == pairs;
  }

  /** One more pair: one more step on the patterns, one more error if its route is virtual. */
  lemma RunSnoc(patterns: map<RouteInternals, string>, pairs: seq<Pair>, i: nat)
    requires i < |pairs|
    ensures Run(patterns, pairs[..i + 1]) == Step(Run(patterns, pairs[..i]), pairs[i])
    ensures Errors(pairs[..i + 1]) ==
      Errors(pairs[..i]) + (if pairs[i].route.isVirtual then [VirtualError(VirtualMessage, pairs[i].route)] else [])
  {
    assert pairs[..i + 1][..i] == pairs[..i];
  }

  predicate Mentions(pairs: seq<Pair>, r: RouteInternals)
  {
    exists i :: 0 <= i < |pairs| && pairs[i].route == r
  }

  /** A virtual route, or one no pair names, keeps its pattern. */
  lemma {:induction false} UntouchedKeepPattern(patterns: map<RouteInternals, string>, pairs: seq<Pair>, r: RouteInternals)
    requires r.isVirtual || !Mentions(pairs, r)
    ensures Lookup(Run(patterns, pairs), r) == Lookup(patterns, r)
  {
    if pairs != [] {
      var n := |pairs| - 1;
      if !r.isVirtual {
        assert !Mentions(pairs[..n], r);
        assert pairs[n].route != r;
      }
      UntouchedKeepPattern(patterns, pairs[..n], r);
    }
  }

  /**
   * The last pair naming a route decides its pattern: later pairs for other routes do not touch
   * it, and the parent's pattern is the one in force when that pair was processed.
   */
  lemma LastPairWins(patterns: map<RouteInternals, string>, before: seq<Pair>, route: RouteInternals, path: string, after: seq<Pair>)
    requires !route.isVirtual && !Mentions(after, route)
    ensures var atThatTime := Run(patterns, before);
            var parentPath := if route.parent != null then Lookup(atThatTime, route.parent) + "/" else "";
            Lookup(Run(patterns, before + [Pair(route, path)] + after), route) == parentPath + path
  {
    RunAppend(patterns, before + [Pair(route, path)], after);
    UntouchedKeepPattern(Run(patterns, before + [Pair(route, path)]), after, route);
    assert (before + [Pair(route, path)])[..|before|] == before;
  }

  lemma {:induction false} RunAppend(patterns: map<RouteInternals, string>, a: seq<Pair>, b: seq<Pair>)
    ensures Run(patterns, a + b) == Run(Run(patterns, a), b)
    decreases |b|
  {
    if b == [] {
      assert a + b == a;
    } else {
      var n := |b| - 1;
      assert (a + b)[..|a + b| - 1] == a + b[..n];
      RunAppend(patterns, a, b[..n]);
    }
  }

  /**
   * Pairs are not sorted parent-first: a child processed before its parent is prefixed with the
   * parent's old pattern, not with the one the parent is given later.
   */
  lemma ParentReadAtProcessingTime(patterns: map<RouteInternals, string>, child: RouteInternals, parent: RouteInternals, c: string, p: string)
    requires child.parent == parent && parent.parent == null && child != parent && !child.isVirtual && !parent.isVirtual
    ensures Lookup(Run(patterns, [Pair(child, c), Pair(parent, p)]), child) == Lookup(patterns, parent) + "/" + c
    ensures Lookup(Run(patterns, [Pair(parent, p), Pair(child, c)]), child) == p + "/" + c
  {
    var childFirst := [Pair(child, c), Pair(parent, p)];
    assert childFirst[..1] == [Pair(child, c)] && childFirst[..1][..0] == [];
    var m1 := Step(patterns, Pair(child, c));
    assert Run(patterns, childFirst[..1]) == m1;
    assert Run(patterns, childFirst) == Step(m1, Pair(parent, p));
    assert Lookup(m1, child) == Lookup(patterns, parent) + "/" + c;
    var parentFirst := [Pair(parent, p), Pair(child, c)];
    assert parentFirst[..1] == [Pair(parent, p)] && parentFirst[..1][..0] == [];
    var m2 := Step(patterns, Pair(parent, p));
    assert Run(patterns, parentFirst[..1]) == m2;
    assert Run(patterns, parentFirst) == Step(m2, Pair(child, c));
    assert Lookup(m2, parent) == p;
  }

  /**
   * As written, the loop tests `route.virtual`; the route objects `createRoute` builds keep the
   * flag in `route.__.config` only, so the test is always falsy and every pair takes the write.
   * A chained route, which `chainRoute` creates virtual, is then given the pattern and no error
   * is logged, where the intended test keeps its pattern and logs the error.
   */
  lemma ChainedRouteGetsPatternAsWritten(patterns: map<RouteInternals, string>, r: RouteInternals, path: string)
    requires r.isVirtual && r.parent == null && Lookup(patterns, r) == "" && path != ""
    ensures Lookup(Write(patterns, Pair(r, path)), r) == path
    ensures Lookup(Step(patterns, Pair(r, path)), r) == ""
    ensures Errors([Pair(r, path)]) == [VirtualError(VirtualMessage, r)]
  {
    assert [Pair(r, path)][..0] == [];
  }
}
