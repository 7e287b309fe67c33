/**
 * `redirect`: on its clock, navigate a route with `params`, `query` (and, in the `methods`
 * version, `replace`), each given as a plain value, a store, or a function of the clock value.
 * Missing values default to `{}` (a store created once) and `false`.
 */
module Redirect {
  import opened Wrappers
  import opened Js
  import RL = RouteLifecycle

  /** An effector store holding an object. */
  class ObjStore {
    var value: Obj
    constructor (v: Obj)
      ensures value == v
    {
      value := v;
    }
  }

  /** An effector store holding a plain value. */
  class ValueStore {
    var value: JsValue
    constructor (v: JsValue)
      ensures value == v
    {
      value := v;
    }
  }

  /** How `params` or `query` is given. */
  datatype ObjSource = Fixed(o: Obj) | Live(store: ObjStore) | Computed(f: JsValue -> Obj)

  /**
   * How `replace` is given. A function is a JS value too: `fnRef` is its identity, the value the
   * payload carries when the function is passed along instead of called.
   */
  datatype ReplaceSource = FixedReplace(v: JsValue) | LiveReplace(store: ValueStore) | ComputedReplace(f: JsValue -> JsValue, fnRef: nat)

  /** Stores an object source reads at clock time. */
  function ObjStores(s: ObjSource): set<object>
  {
    if s.Live? then {s.store} else {}
  }

  function ReplaceStores(s: ReplaceSource): set<object>
  {
    if s.LiveReplace? then {s.store} else {}
  }

  /** `typeof x === 'function' ? x(clock) : x` on the source's current value. */
  function ReadObj(s: ObjSource, clock: JsValue): (r: Obj)
    reads ObjStores(s)
    ensures s.Fixed? ==> r == s.o
    ensures s.Live? ==> r == s.store.value
    ensures s.Computed? ==> r == s.f(clock)
  {
    match s
    case Fixed(o) => o
    case Live(st) => st.value
    case Computed(f) => f(clock)
  }

  /** `toStore(options.replace || false)`: a plain falsy value becomes `false`. */
  function ResolveReplace(r: Option<ReplaceSource>): (s: ReplaceSource)
    ensures r.None? ==> s == FixedReplace(Bool(false))
    ensures r.Some? && r.value.FixedReplace? ==> s == FixedReplace(if Truthy(r.value.v) then r.value.v else Bool(false))
    ensures r.Some? && !r.value.FixedReplace? ==> s == r.value
  {
    match r
    case None => FixedReplace(Bool(false))
    case Some(FixedReplace(v)) => FixedReplace(RL.Or(v, Bool(false)))
    case Some(other) => other
  }

  /** The `replace` of the payload as written: only the store's value, a function is passed along uncalled. */
  function ReplaceAsWritten(s: ReplaceSource, clock: JsValue): (r: JsValue)
    reads ReplaceStores(s)
    ensures s.ComputedReplace? ==> r == Ref(s.fnRef)
  {
    match s
    case FixedReplace(v) => v
    case LiveReplace(st) => st.value
    case ComputedReplace(_, fnRef) => Ref(fnRef)
  }

  /** The `replace` of the payload as intended: a function is called with the clock value, like `params` and `query`. */
  function ReplaceIntended(s: ReplaceSource, clock: JsValue): (r: JsValue)
    reads ReplaceStores(s)
    ensures s.ComputedReplace? ==> r == s.f(clock)
    ensures !s.ComputedReplace? ==> r == ReplaceAsWritten(s, clock)
  {
    match s
    case FixedReplace(v) => v
    case LiveReplace(st) => st.value
    case ComputedReplace(f, _) => f(clock)
  }

  /**
   * A `redirect` unit. `withReplace` tells the `methods` version (which forwards `replace`) from
   * the `utils` one (which has no `replace` option); `callReplace` selects the intended reading
   * of a function-valued `replace` over the one as written.
   */
  class Redirect {
    const params: ObjSource
    const query: ObjSource
    const replace: ReplaceSource
    const withReplace: bool
    const callReplace: bool

    /** Stores the payload is read from. */
    function Footprint(): set<object>
      reads this
    {
      ObjStores(params) + ObjStores(query) + ReplaceStores(replace)
    }

    constructor (params: Option<ObjSource>, query: Option<ObjSource>, replace: Option<ReplaceSource>, withReplace: bool, callReplace: bool)
      ensures params.Some? ==> this.params == params.value
      ensures query.Some? ==> this.query == query.value
      ensures params.None? ==> this.params.Fixed? && fresh(this.params.o) && this.params.o.fields == map[]
      ensures query.None? ==> this.query.Fixed? && fresh(this.query.o) && this.query.o.fields == map[]
      ensures this.replace == ResolveReplace(replace)
      ensures this.withReplace == withReplace && this.callReplace == callReplace
    {
      if params.None? {
        var empty := new Obj(map[]);
        this.params := Fixed(empty);
      } else {
        this.params := params.value;
      }
      if query.None? {
        var empty := new Obj(map[]);
        this.query := Fixed(empty);
      } else {
        this.query := query.value;
      }
      this.replace := ResolveReplace(replace);
      this.withReplace := withReplace;
      this.callReplace := callReplace;
    }

    /** The payload sent to `route.navigate` when the clock fires with `clock`. */
    function Payload(clock: JsValue): (p: RL.NavigatePayload)
      reads this, Footprint()
      ensures p.params == Some(ReadObj(params, clock)) && p.query == Some(ReadObj(query, clock))
      ensures !withReplace ==> p.replace == Undefined
      ensures withReplace && !callReplace ==> p.replace == ReplaceAsWritten(replace, clock)
      ensures withReplace && callReplace ==> p.replace == ReplaceIntended(replace, clock)
    {
      var r := if !withReplace then Undefined
               else if callReplace then ReplaceIntended(replace, clock)
               else ReplaceAsWritten(replace, clock);
      RL.NavigatePayload(Some(ReadObj(params, clock)), Some(ReadObj(query, clock)), r)
    }

    /** The clock fires: the payload is handed to `route.navigate`. */
    method Fire(clock: JsValue, route: RL.Route) returns (n: RL.Notice)
      modifies route
      ensures route.isVirtual ==> (n, route.Current()) == RL.VirtualNavigate(old(route.Current()), route.empties, old(Payload(clock)))
      ensures !route.isVirtual ==> n == RL.NavigateTriggered(old(Payload(clock)).params, old(Payload(clock)).query, RL.Or(old(Payload(clock)).replace, Bool(false)))
      ensures !route.isVirtual ==> route.Current() == old(route.Current())
    {
      var p := RL.NavigatePayload(Some(ReadObj(params, clock)), Some(ReadObj(query, clock)),
                                  if !withReplace then Undefined else if callReplace then ReplaceIntended(replace, clock) else ReplaceAsWritten(replace, clock));
      n := route.Navigate(p);
    }
  }

  /**
   * As written, a function-valued `replace` reaches the route as the function itself: the domain's
   * `Boolean(replace)` is then `true` even for `() => false`, and the payload never equals the
   * function's result.
   */
  lemma ReplaceFunctionNotCalled(f: JsValue -> JsValue, fnRef: nat, clock: JsValue)
    requires f(clock) == Bool(false)
    ensures var r := ReplaceAsWritten(ResolveReplace(Some(ComputedReplace(f, fnRef))), clock);
            Truthy(RL.Or(r, Bool(false))) && r != f(clock)
  {
  }

  /** Intended: the navigation replaces exactly when the function's result is truthy. */
  lemma ReplaceFunctionCalled(f: JsValue -> JsValue, fnRef: nat, clock: JsValue)
    ensures var r := ReplaceIntended(ResolveReplace(Some(ComputedReplace(f, fnRef))), clock);
            Truthy(RL.Or(r, Bool(false))) <==> Truthy(f(clock))
  {
  }

  /** Missing or falsy plain `replace` means a push, a truthy one a replace, under either reading. */
  lemma PlainReplaceTruthiness(v: Option<JsValue>, clock: JsValue)
    ensures var s := ResolveReplace(if v.Some? then Some(FixedReplace(v.value)) else None);
            ReplaceAsWritten(s, clock) == ReplaceIntended(s, clock) &&
            (Truthy(ReplaceAsWritten(s, clock)) <==> (v.Some? && Truthy(v.value)))
  {
  }

  /** Plain `params` (or the default `{}`) are the same object on every firing, so the route's store keeps it by identity. */
  lemma FixedParamsStable(r: Redirect, c1: JsValue, c2: JsValue)
    requires r.params.Fixed?
    ensures r.Payload(c1).params == r.Payload(c2).params
  {
  }
}
