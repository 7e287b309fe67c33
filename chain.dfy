/**
 * The `chainRoute` machine shared by its three generations. The chain keeps a buffer
 * `($params, $query)` of the source route's last `opened`/`updated` payload; `openOn` navigates
 * the chained route with the buffer only while the source route still holds those very objects
 * (`===`); the source's `closed` or `cancelOn` resets the buffer and closes the chained route.
 * The generations differ in what the buffer starts and resets to: two private `{}` objects
 * (`methods`, earliest) or the shared `EMPTY_PARAMS`/`EMPTY_QUERY` (`operators`).
 */
module ChainEngine {
  import opened Wrappers
  import opened Js
  import opened Equality
  import RL = RouteLifecycle

  datatype Buffer = Buffer(params: Obj, query: Obj)

  /** `$params.on(routeOpened)`/`$query.on(routeOpened)`: take the payload's objects; an undefined one is ignored. */
  function OnRouteOpened(b: Buffer, params: Option<Obj>, query: Option<Obj>): (r: Buffer)
    ensures params.Some? ==> r.params == params.value
    ensures params.None? ==> r.params == b.params
    ensures query.Some? ==> r.query == query.value
    ensures query.None? ==> r.query == b.query
  {
    Buffer(params.GetOr(b.params), query.GetOr(b.query))
  }

  /**
   * `openOn` guarded by `$hasSameParams`: the chained route is navigated with the buffered
   * params and query exactly when the source's current params and query are the buffered objects.
   */
  function OnOpenOn(b: Buffer, srcParams: Obj, srcQuery: Obj): (r: Option<RL.NavigatePayload>)
    ensures r.Some? <==> srcParams == b.params && srcQuery == b.query
    ensures r.Some? ==> r.value == RL.NavigatePayload(Some(b.params), Some(b.query), Undefined)
  {
    if srcParams == b.params && srcQuery == b.query then Some(RL.NavigatePayload(Some(b.params), Some(b.query), Undefined)) else None
  }

  /** What the chain emits. */
  datatype Emitted = BeforeOpen(params: Option<Obj>, query: Option<Obj>) | NavigateChained(payload: RL.NavigatePayload) | CloseChained

  class Chain {
    const initial: Buffer
    var buffer: Buffer

    /** `createStore({})` twice: the buffer starts (and resets) to two objects nobody else holds. */
    constructor Private()
      ensures fresh(initial.params) && fresh(initial.query) && buffer == initial
      ensures initial.params.fields == map[] && initial.query.fields == map[]
    {
      var p := new Obj(map[]);
      var q := new Obj(map[]);
      initial := Buffer(p, q);
      buffer := Buffer(p, q);
    }

    /** `createStore(EMPTY_PARAMS)`/`createStore(EMPTY_QUERY)`. */
    constructor Shared(e: RL.Empties)
      ensures initial == Buffer(e.params, e.query) && buffer == initial
    {
      initial := Buffer(e.params, e.query);
      buffer := Buffer(e.params, e.query);
    }

    /** The source's `opened` or `updated`: `beforeOpen` is called with the payload, which is buffered. */
    method RouteOpened(params: Option<Obj>, query: Option<Obj>) returns (out: Emitted)
      modifies this
      ensures out == BeforeOpen(params, query)
      ensures buffer == OnRouteOpened(old(buffer), params, query)
    {
      out := BeforeOpen(params, query);
      if params.Some? {
        buffer := buffer.(params := params.value);
      }
      if query.Some? {
        buffer := buffer.(query := query.value);
      }
    }

    /** `openOn` fires: compare the source route's current stores with the buffer. */
    method OpenOn(src: RL.Route, domainQuery: Obj) returns (out: Option<Emitted>)
      ensures out.Some? <==> src.params == buffer.params && src.VisibleQuery(domainQuery) == buffer.query
      ensures out.Some? ==> out.value == NavigateChained(RL.NavigatePayload(Some(buffer.params), Some(buffer.query), Undefined))
    {
      var q := if src.isVirtual then src.query else if src.isOpened then domainQuery else src.empties.query;
      if src.params == buffer.params && q == buffer.query {
        out := Some(NavigateChained(RL.NavigatePayload(Some(buffer.params), Some(buffer.query), Undefined)));
      } else {
        out := None;
      }
    }

    /** The source's `closed` or `cancelOn`: reset the buffer and close the chained route. */
    method Abort() returns (out: Emitted)
      modifies this
      ensures out == CloseChained && buffer == initial
    {
      buffer := initial;
      out := CloseChained;
    }
  }

  /** The query a source route exposes (its own store, or the domain's while open). */
  function SourceQuery(s: RL.State, isVirtual: bool, e: RL.Empties, domainQuery: Obj): Obj
  {
    if isVirtual then s.query else RL.DomainRouteQuery(s.isOpened, e, domainQuery)
  }

  /**
   * The source opens or updates with params the store accepts: the buffer then holds exactly what
   * the source holds, and `openOn` navigates the chained route with that payload.
   */
  lemma OpenedThenOpenOnNavigates(s: RL.State, e: RL.Empties, b: Buffer, params: Obj, query: Obj, isVirtual: bool, domainQuery: Obj)
    requires RL.ParamsStoreNext(s.params, params) == params
    requires !isVirtual ==> domainQuery == query
    ensures var s2 := RL.OnEnter(s, e, Some(params), Some(query), isVirtual);
            var b2 := OnRouteOpened(b, Some(params), Some(query));
            OnOpenOn(b2, s2.params, SourceQuery(s2, isVirtual, e, domainQuery)) == Some(RL.NavigatePayload(Some(params), Some(query), Undefined))
  {
  }

  /**
   * An `updated` whose params the route's `equalsFilter` rejects (loosely equal to the current
   * params, but a different object) leaves the route holding the old object while the buffer
   * takes the new one, so `openOn` no longer fires for that source.
   */
  lemma FilteredUpdateBlocksOpenOn(s: RL.State, e: RL.Empties, b: Buffer, params: Obj, query: Obj, isVirtual: bool, domainQuery: Obj)
    requires s.params != params && |s.params.fields| > 0 && |params.fields| == |s.params.fields|
    requires forall k :: k in params.fields ==> LooseEq(params.fields[k], Get(s.params.fields, k))
    ensures var s2 := RL.OnEnter(s, e, Some(params), Some(query), isVirtual);
            var b2 := OnRouteOpened(b, Some(params), Some(query));
            s2.params == s.params && OnOpenOn(b2, s2.params, SourceQuery(s2, isVirtual, e, domainQuery)).None?
  {
  }

  /**
   * The `operators` generation as written: once the source has closed and the chain has aborted,
   * the source holds `EMPTY_PARAMS`/`EMPTY_QUERY` and so does the reset buffer, so a late
   * `openOn` (say, the `beforeOpen` effect settling after the user left) still opens the chained route.
   */
  lemma SharedBufferLateOpenOnPasses(s: RL.State, e: RL.Empties, isVirtual: bool, domainQuery: Obj)
    requires RL.EmptiesAreEmpty(e)
    ensures var closed := RL.OnClose(s, e, isVirtual);
            var reset := Buffer(e.params, e.query);
            !closed.isOpened && OnOpenOn(reset, closed.params, SourceQuery(closed, isVirtual, e, domainQuery)).Some?
  {
  }

  /** Likewise before the source was ever opened: a new route and a new shared-buffer chain already agree. */
  lemma SharedBufferOpenOnBeforeOpen(e: RL.Empties, isVirtual: bool, domainQuery: Obj)
    ensures var s := RL.Initial(e);
            OnOpenOn(Buffer(e.params, e.query), s.params, SourceQuery(s, isVirtual, e, domainQuery)).Some?
  {
  }

  /**
   * With the buffer reset to private objects (`methods` and earliest generations) a late
   * `openOn` after the source closed never opens the chained route: what the doc comment promises
   * ("will open chainedRoute if route is still opened").
   */
  lemma PrivateBufferLateOpenOnBlocked(s: RL.State, e: RL.Empties, isVirtual: bool, domainQuery: Obj, initial: Buffer)
    requires RL.EmptiesAreEmpty(e)
    requires initial.params != e.params
    ensures var closed := RL.OnClose(s, e, isVirtual);
            OnOpenOn(initial, closed.params, SourceQuery(closed, isVirtual, e, domainQuery)).None?
  {
  }
}
