/**
 * `querySync`: keeps a set of field stores and the router's query in step. Push: on the clock,
 * while the guard route is open, the query becomes the current query cleaned up according to
 * the resolved strategy, with every field written over it and empty fields removed. Pull: on a
 * query change, while the guard route is open, each field becomes `query[k] ?? defaultState`.
 */
module QuerySync {
  import opened Wrappers
  import opened Js
  import opened Equality

  /** `QueryCleanupStrategy`. */
  datatype Strategy = Strategy(irrelevant: bool, empty: bool, preserve: seq<string>)

  const All: Strategy := Strategy(true, true, [])
  const Default: Strategy := Strategy(false, true, [])
  const None_: Strategy := Strategy(false, false, [])

  /** The `cleanup` option: absent, a boolean, or an object whose keys (when present) override the default. */
  datatype CleanupArg = Absent | Flag(b: bool) | Partial(irrelevant: Option<bool>, empty: Option<bool>, preserve: Option<seq<string>>)

  function ResolveCleanup(c: CleanupArg): (r: Strategy)
    ensures c.Absent? ==> r == Default
    ensures c == Flag(true) ==> r == All
    ensures c == Flag(false) ==> r == None_
    ensures c.Partial? ==>
      r.irrelevant == c.irrelevant.GetOr(false) && r.empty == c.empty.GetOr(true) && r.preserve == c.preserve.GetOr([])
  {
    match c
    case Absent => Default
    case Flag(b) => if b then All else None_
    case Partial(i, e, p) =>
      Strategy(i.GetOr(Default.irrelevant), e.GetOr(Default.empty), p.GetOr(Default.preserve))
  }

  /** The query the push starts from: only the preserved keys already present, or a copy of the whole query. */
  function Start(st: Strategy, current: Record): Record
  {
    if st.irrelevant then map k | k in current && k in st.preserve :: current[k] else current
  }

  /** Whether the empty-cleanup step removes field `k` from `next`. */
  predicate Removed(st: Strategy, fields: Record, next: Record, k: string)
  {
    st.empty && k in fields && k !in st.preserve && !Truthy(Get(next, k))
  }

  /** The pushed query, as a reference definition. */
  function PushQuery(st: Strategy, fields: Record, current: Record): Record
  {
    var overlaid := Start(st, current) + fields;
    map k | k in overlaid && !Removed(st, fields, overlaid, k) :: overlaid[k]
  }

  /** Lines building the start query: the preserved keys present in the query, or a shallow copy. */
  method StartQuery(st: Strategy, current: Record) returns (next: Record)
    ensures next == Start(st, current)
  {
    if st.irrelevant {
      next := map[];
      var i := 0;
      while i < |st.preserve|
        invariant 0 <= i <= |st.preserve|
        invariant next == map k | k in current && k in st.preserve[..i] :: current[k]
      {
        var key := st.preserve[i];
        assert st.preserve[..i + 1] == st.preserve[..i] + [key];
        if key in current {
          next := next[key := current[key]];
        }
        i := i + 1;
      }
      assert st.preserve[..i] == st.preserve;
    } else {
      next := current;
    }
  }

  /** Writes every field over the start query. */
  method Overlay(start: Record, fields: Record) returns (next: Record)
    ensures next == start + fields
  {
    next := start;
    var todo := fields.Keys;
    while todo != {}
      invariant todo <= fields.Keys
      invariant next == start + map k | k in fields && k !in todo :: fields[k]
      decreases |todo|
    {
      var key :| key in todo;
      next := next[key := fields[key]];
      todo := todo - {key};
    }
  }

  /** Deletes the falsy, non-preserved fields. */
  method RemoveEmpty(st: Strategy, fields: Record, overlaid: Record) returns (next: Record)
    requires st.empty
    ensures next == map k | k in overlaid && !Removed(st, fields, overlaid, k) :: overlaid[k]
  {
    next := overlaid;
    var todo := fields.Keys;
    while todo != {}
      invariant todo <= fields.Keys
      invariant next == map k | k in overlaid && !(k !in todo && Removed(st, fields, overlaid, k)) :: overlaid[k]
      decreases |todo|
    {
      var key :| key in todo;
      if key !in st.preserve && !(key in next && Truthy(next[key])) {
        next := map k | k in next && k != key :: next[k];
      }
      todo := todo - {key};
    }
  }

  /** The push function of the sample: start query, then the fields written over it, then cleanup of empty fields. */
  method Push(st: Strategy, fields: Record, current: Record) returns (next: Record)
    ensures next == PushQuery(st, fields, current)
  {
    var start := StartQuery(st, current);
    next := Overlay(start, fields);
    if st.empty {
      next := RemoveEmpty(st, fields, next);
    }
  }

  /** Every field whose value survives cleanup is written to the query as it is. */
  lemma PushWritesFields(st: Strategy, fields: Record, current: Record, k: string)
    requires k in fields && (!st.empty || k in st.preserve || Truthy(fields[k]))
    ensures var q := PushQuery(st, fields, current); k in q && q[k] == fields[k]
  {
  }

  /** Under `empty`, a falsy field that is not preserved is absent from the pushed query. */
  lemma PushDropsEmptyFields(st: Strategy, fields: Record, current: Record, k: string)
    requires st.empty && k in fields && k !in st.preserve && !Truthy(fields[k])
    ensures k !in PushQuery(st, fields, current)
  {
  }

  /**
   * Keys that are not fields are never removed by the empty step: they keep the start query's
   * value, that is the current one unless `irrelevant` drops them (a preserved key survives).
   */
  lemma PushKeepsOtherKeys(st: Strategy, fields: Record, current: Record, k: string)
    requires k !in fields
    ensures var q := PushQuery(st, fields, current);
            (k in q <==> k in current && (!st.irrelevant || k in st.preserve)) &&
            (k in q ==> q[k] == current[k])
  {
  }

  /** Pull for one field: `query[k] ?? defaultState`. */
  function PullField(query: Record, k: string, default: JsValue): (r: JsValue)
    ensures !(Get(query, k).Null? || Get(query, k).Undefined?) ==> r == query[k]
    ensures (Get(query, k).Null? || Get(query, k).Undefined?) ==> r == default
  {
    Coalesce(Get(query, k), default)
  }

  /** Pull for all fields; `defaults` maps each field key to its store's default state. */
  function Pull(defaults: Record, query: Record): (r: Record)
    ensures r.Keys == defaults.Keys
    ensures forall k :: k in defaults ==> r[k] == PullField(query, k, defaults[k])
  {
    map k | k in defaults :: PullField(query, k, defaults[k])
  }

  /**
   * Round trip: pushing the fields and pulling them back gives the fields again, as long as no
   * field is `null`/`undefined` and no field is removed by the empty step.
   */
  lemma PushThenPull(st: Strategy, fields: Record, current: Record, defaults: Record)
    requires fields.Keys == defaults.Keys
    requires forall k :: k in fields ==> !fields[k].Null? && !fields[k].Undefined?
    requires forall k :: k in fields ==> !st.empty || k in st.preserve || Truthy(fields[k])
    ensures Pull(defaults, PushQuery(st, fields, current)) == fields
  {
    var q := PushQuery(st, fields, current);
    forall k | k in fields ensures Pull(defaults, q)[k] == fields[k] {
      PushWritesFields(st, fields, current, k);
    }
  }

  /** A removed empty field comes back as its default state. */
  lemma RemovedFieldPullsDefault(st: Strategy, fields: Record, current: Record, defaults: Record, k: string)
    requires k in defaults && st.empty && k in fields && k !in st.preserve && !Truthy(fields[k])
    ensures Pull(defaults, PushQuery(st, fields, current))[k] == defaults[k]
  {
    PushDropsEmptyFields(st, fields, current, k);
  }

  /** The strategy `none` keeps the whole query and overlays the fields. */
  lemma NoneOverlays(fields: Record, current: Record)
    ensures PushQuery(None_, fields, current) == current + fields
  {
  }

  /**
   * One `querySync` instance: the field stores, the router's query store it reads and writes,
   * and whether that store drops writes that `equals` its value (the controls' `$query` does;
   * a domain's `$query` does not).
   */
  class Sync {
    const strategy: Strategy
    const defaults: Record
    const filteredTarget: bool
    var fields: Record
    var query: Record

    constructor (cleanup: CleanupArg, defaults: Record, query: Record, filteredTarget: bool)
      ensures strategy == ResolveCleanup(cleanup) && this.defaults == defaults && this.filteredTarget == filteredTarget
      ensures fields == defaults && this.query == query
    {
      strategy := ResolveCleanup(cleanup);
      this.defaults := defaults;
      this.filteredTarget := filteredTarget;
      fields := defaults;
      this.query := query;
    }

    /**
     * The push clock fires (by default, any field change). `routeOpened` is the guard route's
     * `$isOpened`, `None` when no route is given (a constant `true`). Returns whether the query
     * store took a new value, which is what makes the query's watchers run.
     */
    method Clock(routeOpened: Option<bool>) returns (queryChanged: bool)
      modifies this`query
      ensures var next := PushQuery(strategy, fields, old(query));
              queryChanged == (routeOpened.GetOr(true) && !(filteredTarget && Equals(old(query), next))) &&
              query == (if queryChanged then next else old(query))
    {
      queryChanged := false;
      if routeOpened.GetOr(true) {
        var next := Push(strategy, fields, query);
        if !(filteredTarget && Equals(query, next)) {
          query := next;
          queryChanged := true;
        }
      }
    }

    /** The query store changed (from history, or by a push): pull into the fields while the guard is open. */
    method QueryChanged(routeOpened: Option<bool>)
      modifies this`fields
      ensures fields == if routeOpened.GetOr(true) then Pull(defaults, query) else old(fields)
    {
      if routeOpened.GetOr(true) {
        fields := map k | k in defaults :: Coalesce(Get(query, k), defaults[k]);
      }
    }
  }
}
