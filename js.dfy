/**
 * The JavaScript values the router handles: route params and query fields are strings,
 * numbers, booleans, `null`, `undefined` or objects (compared by identity). A plain
 * object is a finite map from keys to values; reading a missing key gives `undefined`.
 */
module Js {
  import opened Wrappers

  datatype JsValue =
    | Str(s: string)
    | Num(n: int)
    | Bool(b: bool)
    | Null
    | Undefined
    | Ref(id: nat)   // an object or array value, equal only to itself

  type Record = map<string, JsValue>

  /** `obj[k]`. */
  function Get(r: Record, k: string): JsValue
  {
    if k in r then r[k] else Undefined
  }

  /** `Boolean(v)`; numbers are integers, so NaN does not arise. */
  predicate Truthy(v: JsValue)
  {
    match v
    case Str(s) => s != ""
    case Num(n) => n != 0
    case Bool(b) => b
    case Null => false
    case Undefined => false
    case Ref(_) => true
  }

  /** `v ?? d`: the default replaces only `null` and `undefined`. */
  function Coalesce(v: JsValue, d: JsValue): JsValue
  {
    if v.Null? || v.Undefined? then d else v
  }

  predicate IsDigit(c: char) { '0' <= c <= '9' }

  function DigitsValue(s: string): nat
    requires forall i :: 0 <= i < |s| ==> IsDigit(s[i])
  {
    if s == [] then 0
    else
      var c := s[|s| - 1];
      assert IsDigit(c);
      10 * DigitsValue(s[..|s| - 1]) + (c as int - '0' as int)
  }

  /** `Number(s)` restricted to the empty string and optionally signed decimal integers; anything else is NaN. */
  function StrToNumber(s: string): Option<int>
  {
    if s == [] then Some(0)
    else if (s[0] == '-' || s[0] == '+') && |s| > 1 && forall i :: 1 <= i < |s| ==> IsDigit(s[i]) then
      var v := DigitsValue(s[1..]);
      Some(if s[0] == '-' then -(v as int) else v)
    else if forall i :: 0 <= i < |s| ==> IsDigit(s[i]) then Some(DigitsValue(s))
    else None
  }

  /** The abstract equality `a == b` (so `a != b` is its negation). */
  predicate LooseEq(a: JsValue, b: JsValue)
  {
    match (a, b)
    case (Null, Null) => true
    case (Null, Undefined) => true
    case (Undefined, Null) => true
    case (Undefined, Undefined) => true
    case (Null, _) => false
    case (Undefined, _) => false
    case (_, Null) => false
    case (_, Undefined) => false
    case (Str(x), Str(y)) => x == y
    case (Num(x), Num(y)) => x == y
    case (Bool(x), Bool(y)) => x == y
    case (Ref(x), Ref(y)) => x == y
    case (Num(x), Str(y)) => StrToNumber(y) == Some(x)
    case (Str(x), Num(y)) => StrToNumber(x) == Some(y)
    case (Bool(x), Str(y)) => StrToNumber(y) == Some(if x then 1 else 0)
    case (Str(x), Bool(y)) => StrToNumber(x) == Some(if y then 1 else 0)
    case (Bool(x), Num(y)) => y == (if x then 1 else 0)
    case (Num(x), Bool(y)) => x == (if y then 1 else 0)
    case (_, _) => false   // an object against a primitive: its string conversion is not modelled
  }

  lemma LooseEqReflexive(v: JsValue)
    ensures LooseEq(v, v)
  {
  }

  /** Strict equality and loose equality coincide on strings. */
  lemma LooseEqOnStrings(x: string, y: string)
    ensures LooseEq(Str(x), Str(y)) <==> x == y
  {
  }

  /**
   * A plain object with identity: two `Obj` references are `===` exactly when they are the same
   * reference, whatever their fields hold.
   */
  class Obj {
    const fields: Record

    constructor (f: Record)
      ensures fields == f
    {
      fields := f;
    }
  }
}
