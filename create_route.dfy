/**
 * `createRoute` (the domain-aware generation): a route is a small state machine over the stores
 * `$isOpened`, `$params` and `$query`, driven by the events `opened`, `updated` and `closed`.
 * A virtual route dispatches its own `navigate` to `opened` or `updated`; any other route forwards
 * `navigate` to its router domain and is opened and closed by the domain.
 */
module RouteLifecycle {
  import opened Wrappers
  import opened Js
  import opened Equality

  /** The shared constant objects `EMPTY_PARAMS` and `EMPTY_QUERY`. */
  datatype Empties = Empties(params: Obj, query: Obj)

  /** A `navigate` payload; `None` stands for a missing (undefined) `params` or `query`. */
  datatype NavigatePayload = NavigatePayload(params: Option<Obj>, query: Option<Obj>, replace: JsValue)

  /** What a route call emits. */
  datatype Notice =
    | Opened(params: Option<Obj>, query: Option<Obj>, replace: JsValue)
    | Updated(params: Option<Obj>, query: Option<Obj>, replace: JsValue)
    | Closed
    | NavigateTriggered(params: Option<Obj>, query: Option<Obj>, replace: JsValue)   // to `domain.__.routeNavigateTriggered`

  /** `v || d`. */
  function Or(v: JsValue, d: JsValue): (r: JsValue)
    ensures Truthy(v) ==> r == v
    ensures !Truthy(v) ==> r == d
  {
    if Truthy(v) then v else d
  }

  /**
   * A write to `$params`: the store ignores a value identical to the current one and asks its
   * update filter `equalsFilter(update, current)` whether to accept any other.
   */
  function ParamsStoreNext(current: Obj, update: Obj): (r: Obj)
    ensures r == update || r == current
    ensures r == update <==> (update == current || EqualsFilter(update.fields, current.fields))
  {
    if update != current && EqualsFilter(update.fields, current.fields) then update else current
  }

  /** A write to a store without a filter: `undefined` and identical values are ignored. */
  function StoreNext(current: Obj, update: Option<Obj>): Obj
  {
    if update.Some? then update.value else current
  }

  datatype State = State(isOpened: bool, params: Obj, query: Obj)

  /** A new route: closed, with the empty params and query. */
  function Initial(e: Empties): State
  {
    State(false, e.params, e.query)
  }

  /**
   * `.on([opened, updated])`: open, params become `params || EMPTY_PARAMS` through the filter and,
   * on a virtual route, the query becomes the payload's query (an undefined one is ignored).
   */
  function OnEnter(s: State, e: Empties, params: Option<Obj>, query: Option<Obj>, isVirtual: bool): (r: State)
    ensures r.isOpened
    ensures r.params == ParamsStoreNext(s.params, params.GetOr(e.params))
    ensures isVirtual && query.Some? ==> r.query == query.value
    ensures !isVirtual || query.None? ==> r.query == s.query
  {
    State(true, ParamsStoreNext(s.params, params.GetOr(e.params)), if isVirtual then StoreNext(s.query, query) else s.query)
  }

  /** `.on(closed)`: closed, params back to `EMPTY_PARAMS` and, on a virtual route, the query to `EMPTY_QUERY`. */
  function OnClose(s: State, e: Empties, isVirtual: bool): (r: State)
    ensures !r.isOpened
    ensures |e.params.fields| == 0 ==> r.params == e.params
    ensures r.query == if isVirtual then e.query else s.query
  {
    State(false, ParamsStoreNext(s.params, e.params), if isVirtual then e.query else s.query)
  }

  /** Both empty constants really are `{}`. */
  predicate EmptiesAreEmpty(e: Empties)
  {
    e.params.fields == map[] && e.query.fields == map[]
  }

  /** A virtual route's `navigate`: `updated` if open, else `opened`, with `replace || false`; then the handlers run. */
  function VirtualNavigate(s: State, e: Empties, p: NavigatePayload): (r: (Notice, State))
    ensures r.0.Updated? <==> s.isOpened
    ensures r.0.Opened? <==> !s.isOpened
    ensures r.0.params == p.params && r.0.query == p.query && r.0.replace == Or(p.replace, Bool(false))
    ensures r.1 == OnEnter(s, e, p.params, p.query, true)
  {
    var replace := Or(p.replace, Bool(false));
    var n := if s.isOpened then Updated(p.params, p.query, replace) else Opened(p.params, p.query, replace);
    (n, OnEnter(s, e, p.params, p.query, true))
  }

  /** `open(params)` is `navigate({params, query: EMPTY_QUERY})`. */
  function OpenPayload(e: Empties, params: Option<Obj>): NavigatePayload
  {
    NavigatePayload(params, Some(e.query), Undefined)
  }

  /** Opening a virtual route always resets its query to `EMPTY_QUERY`, whatever it held. */
  lemma OpenResetsQuery(s: State, e: Empties, params: Option<Obj>)
    ensures var r := VirtualNavigate(s, e, OpenPayload(e, params));
            r.1.isOpened && r.1.query == e.query && r.0.replace == Bool(false)
  {
  }

  /** Closing returns a virtual route to the state of a new one, from any state. */
  lemma CloseRestoresInitial(s: State, e: Empties)
    requires EmptiesAreEmpty(e)
    ensures OnClose(s, e, true) == Initial(e)
  {
  }

  /**
   * Re-entering with params that are loosely equal to the current ones (and not empty) keeps the
   * current params object: after an `updated` with `{id: "1"}` over `{id: 1}` the store still
   * holds the old object, so identity-based consumers see no change.
   */
  lemma EqualParamsKeepIdentity(s: State, e: Empties, update: Obj, query: Option<Obj>, isVirtual: bool)
    requires |s.params.fields| > 0 && |update.fields| == |s.params.fields|
    requires forall k :: k in update.fields ==> LooseEq(update.fields[k], Get(s.params.fields, k))
    ensures OnEnter(s, e, Some(update), query, isVirtual).params == s.params
  {
  }

  /** String params that differ in any key always replace the current object. */
  lemma ChangedParamsReplace(s: State, e: Empties, update: Obj, query: Option<Obj>, isVirtual: bool)
    requires StringValued(update.fields) && StringValued(s.params.fields)
    requires update.fields != s.params.fields
    ensures OnEnter(s, e, Some(update), query, isVirtual).params == update
  {
    EqualsFilterOnStrings(update.fields, s.params.fields);
  }

  /** `openedByDomain`: `updated` if open, `opened` if closed; the domain's payload passes through. */
  function DispatchOpenedByDomain(s: State, e: Empties, params: Option<Obj>, query: Option<Obj>): (r: (Notice, State))
    ensures r.0.Updated? <==> s.isOpened
    ensures r.0.Opened? <==> !s.isOpened
    ensures r.0.params == params && r.0.query == query
    ensures r.1.isOpened && r.1.query == s.query
  {
    var n := if s.isOpened then Updated(params, query, Undefined) else Opened(params, query, Undefined);
    (n, OnEnter(s, e, params, query, false))
  }

  /** `closedByDomain`: `closed` only when open; a closed route ignores it. */
  function DispatchClosedByDomain(s: State, e: Empties): (r: (seq<Notice>, State))
    ensures s.isOpened <==> r.0 == [Closed]
    ensures !s.isOpened ==> r.0 == [] && r.1 == s
    ensures !r.1.isOpened
  {
    if s.isOpened then ([Closed], OnClose(s, e, false)) else ([], s)
  }

  /** A domain route's `$query`: the domain's query while open, `EMPTY_QUERY` while closed. */
  function DomainRouteQuery(isOpened: bool, e: Empties, domainQuery: Obj): (r: Obj)
    ensures isOpened ==> r == domainQuery
    ensures !isOpened ==> r == e.query
  {
    if isOpened then domainQuery else e.query
  }

  class Route {
    const isVirtual: bool
    const empties: Empties
    var isOpened: bool
    var params: Obj
    var query: Obj    // the own `$query` store: used by virtual routes only

    function Current(): State
      reads this
    {
      State(isOpened, params, query)
    }

    constructor (isVirtual: bool, empties: Empties)
      ensures this.isVirtual == isVirtual && this.empties == empties
      ensures Current() == Initial(empties)
    {
      this.isVirtual := isVirtual;
      this.empties := empties;
      isOpened := false;
      params := empties.params;
      query := empties.query;
    }

    /** `$query` as the outside sees it, given the domain's current query. */
    function VisibleQuery(domainQuery: Obj): Obj
      reads this
    {
      if isVirtual then query else DomainRouteQuery(isOpened, empties, domainQuery)
    }

    /**
     * `navigate(payload)`: a virtual route opens or updates itself; any other route only forwards
     * `{route, params, query, replace || false}` to its domain and changes nothing.
     */
    method Navigate(p: NavigatePayload) returns (n: Notice)
      modifies this
      ensures isVirtual ==> (n, Current()) == VirtualNavigate(old(Current()), empties, p)
      ensures !isVirtual ==> n == NavigateTriggered(p.params, p.query, Or(p.replace, Bool(false))) && Current() == old(Current())
    {
      var replace := if Truthy(p.replace) then p.replace else Bool(false);
      if isVirtual {
        if isOpened {
          n := Updated(p.params, p.query, replace);
        } else {
          n := Opened(p.params, p.query, replace);
        }
        Enter(p.params, p.query);
      } else {
        n := NavigateTriggered(p.params, p.query, replace);
      }
    }

    /** `open(params)`. */
    method Open(p: Option<Obj>) returns (n: Notice)
      modifies this
      ensures isVirtual ==> (n, Current()) == VirtualNavigate(old(Current()), empties, OpenPayload(empties, p))
      ensures !isVirtual ==> n == NavigateTriggered(p, Some(empties.query), Bool(false)) && Current() == old(Current())
    {
      n := Navigate(NavigatePayload(p, Some(empties.query), Undefined));
    }

    /** The `.on([opened, updated])` handlers. */
    method Enter(p: Option<Obj>, q: Option<Obj>)
      modifies this
      ensures Current() == OnEnter(old(Current()), empties, p, q, isVirtual)
    {
      isOpened := true;
      var update := if p.Some? then p.value else empties.params;
      if update != params && EqualsFilter(update.fields, params.fields) {
        params := update;
      }
      if isVirtual && q.Some? {
        query := q.value;
      }
    }

    /** The `.on(closed)` handlers. */
    method Close()
      modifies this
      ensures Current() == OnClose(old(Current()), empties, isVirtual)
    {
      isOpened := false;
      if empties.params != params && EqualsFilter(empties.params.fields, params.fields) {
        params := empties.params;
      }
      if isVirtual {
        query := empties.query;
      }
    }

    method OpenedByDomain(p: Option<Obj>, q: Option<Obj>) returns (n: Notice)
      requires !isVirtual
      modifies this
      ensures (n, Current()) == DispatchOpenedByDomain(old(Current()), empties, p, q)
    {
      if isOpened {
        n := Updated(p, q, Undefined);
      } else {
        n := Opened(p, q, Undefined);
      }
      Enter(p, q);
    }

    method ClosedByDomain() returns (ns: seq<Notice>)
      requires !isVirtual
      modifies this
      ensures (ns, Current()) == DispatchClosedByDomain(old(Current()), empties)
    {
      if isOpened {
        ns := [Closed];
        Close();
      } else {
        ns := [];
      }
    }
  }
}
