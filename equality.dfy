/**
 * The two record comparisons of the router: `equals` (exported as `paramsEqual` to the
 * history routers and the controls' query store) and `equalsFilter`, the update filter of a
 * route's `$params` store.
 */
module Equality {
  import opened Wrappers
  import opened Js

  /**
   * `equals(a, b)`: same number of keys, and every key of `a` holds a value `===` to `b[k]`
   * (a key missing from `b` reads as `undefined`).
   */
  predicate Equals(a: Record, b: Record)
  {
    |a| == |b| && forall k :: k in a ==> a[k] == Get(b, k)
  }

  /**
   * `equalsFilter(prev, next)`: true (accept the update) when the key counts differ, when
   * `prev` has no keys, or when some key of `prev` differs loosely (`!=`) from `next[k]`.
   */
  predicate EqualsFilter(prev: Record, next: Record)
  {
    if |prev| != |next| then true
    else if |prev| == 0 then true
    else exists k :: k in prev && !LooseEq(prev[k], Get(next, k))
  }

  /** No key is bound to `undefined`. */
  predicate Defined(r: Record)
  {
    forall k :: k in r ==> r[k] != Undefined
  }

  /** Every value is a string, as for path params and parsed query strings. */
  predicate StringValued(r: Record)
  {
    forall k :: k in r ==> r[k].Str?
  }

  lemma {:induction false} SubsetOfSameSize<T>(a: set<T>, b: set<T>)
    requires a <= b && |a| == |b|
    ensures a == b
    decreases |a|
  {
    if a != {} {
      var x :| x in a;
      SubsetOfSameSize(a - {x}, b - {x});
      assert a == (a - {x}) + {x};
      assert b == (b - {x}) + {x};
    }
  }

  /** Without `undefined` values, `equals` is exactly equality of the two records. */
  lemma EqualsIsRecordEquality(a: Record, b: Record)
    requires Defined(a) && Defined(b)
    ensures Equals(a, b) <==> a == b
  {
    if Equals(a, b) {
      assert a.Keys <= b.Keys by {
        forall k | k in a ensures k in b {
          assert a[k] == Get(b, k) && a[k] != Undefined;
        }
      }
      SubsetOfSameSize(a.Keys, b.Keys);
      forall k | k in a ensures a[k] == b[k] {
        assert a[k] == Get(b, k);
      }
    }
  }

  /** Hence on such records `equals` is symmetric. */
  lemma EqualsSymmetricWhenDefined(a: Record, b: Record)
    requires Defined(a) && Defined(b)
    ensures Equals(a, b) ==> Equals(b, a)
  {
    EqualsIsRecordEquality(a, b);
    EqualsIsRecordEquality(b, a);
  }

  lemma EqualsReflexive(a: Record)
    ensures Equals(a, a)
  {
  }

  /**
   * With `undefined` values the scan of `a`'s keys alone is not symmetric:
   * `{x: undefined, y: 1}` equals `{y: 1, z: 5}`, but not the other way round.
   */
  lemma EqualsNotSymmetricWithUndefined()
    ensures var a := map["x" := Undefined, "y" := Num(1)];
            var b := map["y" := Num(1), "z" := Num(5)];
            Equals(a, b) && !Equals(b, a)
  {
    var a := map["x" := Undefined, "y" := Num(1)];
    var b := map["y" := Num(1), "z" := Num(5)];
    assert a.Keys == {"x", "y"} && b.Keys == {"y", "z"};
    assert "z" in b && b["z"] != Get(a, "z");
  }

  /** On string-valued records the filter rejects exactly a non-empty update equal to the current value. */
  lemma EqualsFilterOnStrings(prev: Record, next: Record)
    requires StringValued(prev) && StringValued(next)
    ensures !EqualsFilter(prev, next) <==> (prev == next && |prev| > 0)
  {
    if !EqualsFilter(prev, next) {
      assert prev.Keys <= next.Keys by {
        forall k | k in prev ensures k in next {
          assert LooseEq(prev[k], Get(next, k));
        }
      }
      SubsetOfSameSize(prev.Keys, next.Keys);
      forall k | k in prev ensures prev[k] == next[k] {
        assert LooseEq(prev[k], next[k]);
      }
    }
  }

  /** An empty update is always accepted, even over an empty store. */
  lemma EqualsFilterEmptyAccepts(next: Record)
    ensures EqualsFilter(map[], next)
  {
  }

  /** `"1" != 1` is false, so replacing `{id: 1}` by `{id: "1"}` is filtered out. */
  lemma EqualsFilterLooseNumeric()
    ensures !EqualsFilter(map["id" := Str("1")], map["id" := Num(1)])
  {
    var prev := map["id" := Str("1")];
    assert prev.Keys == {"id"};
    assert DigitsValue("1") == 1 by {
      assert "1"[..0] == "";
    }
    assert StrToNumber("1") == Some(1);
  }

  /** What `equals` calls equal, the filter never accepts (unless the update is empty). */
  lemma StrictEqualityIsFilteredOut(prev: Record, next: Record)
    requires Equals(prev, next) && |prev| > 0
    ensures !EqualsFilter(prev, next)
  {
    forall k | k in prev ensures LooseEq(prev[k], Get(next, k)) {
      LooseEqReflexive(prev[k]);
    }
  }
}
