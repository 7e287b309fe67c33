/**
 * The first-generation `createRoute`: `navigate` normalises a missing `params` or `query` to a
 * new `{}`, its result becomes `opened` or `updated` by `$isOpened`, only those two events write
 * `$params`/`$query`, and an optional boolean `filter` store opens and closes the route (which
 * makes the route derived).
 */
module LegacyRoute {
  import opened Wrappers
  import opened Js

  datatype Notice = Opened(params: Option<Obj>, query: Option<Obj>) | Updated(params: Option<Obj>, query: Option<Obj>) | Closed

  datatype State = State(isOpened: bool, params: Obj, query: Obj)

  /**
   * `navigate({params, query})`: the payload with `params || {}` and `query || {}` (the `{}` are
   * new objects, passed in), dispatched to `updated` when open and `opened` when closed.
   */
  function Navigate(s: State, params: Option<Obj>, query: Option<Obj>, newParams: Obj, newQuery: Obj): (r: (Notice, State))
    ensures r.0.Updated? <==> s.isOpened
    ensures r.0.Opened? <==> !s.isOpened
    ensures r.0.params == Some(params.GetOr(newParams)) && r.0.query == Some(query.GetOr(newQuery))
    ensures r.1 == State(true, params.GetOr(newParams), query.GetOr(newQuery))
  {
    var p := params.GetOr(newParams);
    var q := query.GetOr(newQuery);
    (if s.isOpened then Updated(Some(p), Some(q)) else Opened(Some(p), Some(q)), State(true, p, q))
  }

  /** `closed` (forwarded to `left`): only `$isOpened` changes; params and query keep their last values. */
  function Close(s: State): (r: State)
    ensures !r.isOpened && r.params == s.params && r.query == s.query
  {
    s.(isOpened := false)
  }

  /**
   * A change of the `filter` store: `true` fires `opened` with the boolean as payload (so the
   * params and query handlers read `undefined` and keep their values), `false` fires `closed`.
   */
  function FilterChanged(s: State, value: bool): (r: (Notice, State))
    ensures value ==> r.0 == Opened(None, None) && r.1 == s.(isOpened := true)
    ensures !value ==> r.0 == Closed && r.1 == Close(s)
  {
    if value then (Opened(None, None), s.(isOpened := true)) else (Closed, Close(s))
  }

  /** Closing and reopening through the filter restores the params and query the route had. */
  lemma FilterCycleKeepsParams(s: State)
    ensures FilterChanged(FilterChanged(s, false).1, true).1 == s.(isOpened := true)
  {
  }

  /** `open(params)`: navigates with `params || {}` and a new empty query, whatever the query was. */
  lemma OpenReplacesQuery(s: State, params: Option<Obj>, newParams: Obj, newQuery: Obj)
    requires newQuery.fields == map[]
    ensures var r := Navigate(s, params, Some(newQuery), newParams, newQuery);
            r.1.isOpened && r.1.query == newQuery && r.1.query.fields == map[]
  {
  }

  class Route {
    const hasFilter: bool
    var isOpened: bool
    var params: Obj
    var query: Obj

    function Current(): State
      reads this
    {
      State(isOpened, params, query)
    }

    constructor (hasFilter: bool)
      ensures this.hasFilter == hasFilter && !isOpened
      ensures params.fields == map[] && query.fields == map[]
    {
      this.hasFilter := hasFilter;
      isOpened := false;
      params := new Obj(map[]);
      query := new Obj(map[]);
    }

    method NavigateTo(p: Option<Obj>, q: Option<Obj>) returns (n: Notice)
      modifies this
      ensures exists newParams: Obj, newQuery: Obj ::
        (n, Current()) == Navigate(old(Current()), p, q, newParams, newQuery) &&
        (p.None? ==> fresh(newParams) && newParams.fields == map[]) &&
        (q.None? ==> fresh(newQuery) && newQuery.fields == map[])
    {
      var newParams, newQuery;
      if p.Some? { newParams := p.value; } else { newParams := new Obj(map[]); }
      if q.Some? { newQuery := q.value; } else { newQuery := new Obj(map[]); }
      if isOpened {
        n := Updated(Some(newParams), Some(newQuery));
      } else {
        n := Opened(Some(newParams), Some(newQuery));
      }
      isOpened, params, query := true, newParams, newQuery;
      assert (n, Current()) == Navigate(old(Current()), p, q, newParams, newQuery);
    }

    method Open(p: Option<Obj>) returns (n: Notice)
      modifies this
      ensures isOpened && query.fields == map[] && fresh(query)
      ensures p.Some? ==> params == p.value
      ensures p.None? ==> params.fields == map[] && fresh(params)
      ensures n == (if old(isOpened) then Updated(Some(params), Some(query)) else Opened(Some(params), Some(query)))
    {
      var q := new Obj(map[]);
      n := NavigateTo(p, Some(q));
    }

    method CloseRoute() returns (n: Notice)
      modifies this
      ensures n == Notice.Closed && Current() == Close(old(Current()))
    {
      n := Notice.Closed;
      isOpened := false;
    }

    method FilterUpdated(value: bool) returns (n: Notice)
      requires hasFilter
      modifies this
      ensures (n, Current()) == FilterChanged(old(Current()), value)
    {
      if value {
        n := Opened(None, None);
        isOpened := true;
      } else {
        n := CloseRoute();
      }
    }
  }
}
