/**
 * JavaScript runtime values, and the `isJson` type guard that both core files
 * (packages/json-schema/src/index.ts and packages/async-api/src/index.ts) define
 * identically.
 */
module JsValues {

  /** A JavaScript number. Finite doubles are kept as reals: rounding is not modelled. */
  datatype Number = Finite(r: real) | NaN | Infinity(negative: bool)

  /**
   * The values a TypeScript `unknown` can hold. `Obj` is a non-array object
   * seen through its own enumerable string keys (what `Object.keys` and the
   * spread operator see).
   */
  datatype Value =
    | Undefined
    | Null
    | Bool(b: bool)
    | Num(n: Number)
    | BigInt(i: int)
    | Str(s: string)
    | Symbol(description: string)
    | Function
    | Arr(elems: seq<Value>)
    | Obj(fields: map<string, Value>)

  /** The JavaScript number holding the integer `n`. */
  function Int(n: int): Value {
    Num(Finite(n as real))
  }

  predicate IsNaN(n: Number) {
    n.NaN?
  }

  predicate IsFinite(n: Number) {
    n.Finite?
  }

  /** A value that is not an object: `+` converts it without calling any method of its own. */
  predicate IsPrimitive(u: Value) {
    !u.Arr? && !u.Obj? && !u.Function?
  }

  /** `isRecord` from @effect/data: a non-null object that is not an array. */
  predicate IsRecord(u: Value) {
    u.Obj?
  }

  predicate IsJsonArray(u: Value)
    decreases u, 0
  {
    u.Arr? && forall i :: 0 <= i < |u.elems| ==> IsJson(u.elems[i])
  }

  predicate IsJsonObject(u: Value)
    decreases u, 0
  {
    IsRecord(u) && forall key :: key in u.fields ==> IsJson(u.fields[key])
  }

  /** `isJson`: null, strings, finite numbers, booleans, and arrays and records of those. */
  predicate IsJson(u: Value)
    decreases u, 1
  {
    || u.Null?
    || u.Str?
    || (u.Num? && !IsNaN(u.n) && IsFinite(u.n))
    || u.Bool?
    || IsJsonArray(u)
    || IsJsonObject(u)
  }

  /** A JSON text value in the sense of RFC 8259 (section 6 rules out NaN and the infinities). */
  datatype Json =
    | JNull
    | JBool(b: bool)
    | JNumber(r: real)
    | JString(s: string)
    | JArray(items: seq<Json>)
    | JObject(members: map<string, Json>)

  /** The JavaScript value that represents a JSON value. */
  function ToValue(j: Json): Value {
    match j
    case JNull => Null
    case JBool(b) => Bool(b)
    case JNumber(r) => Num(Finite(r))
    case JString(s) => Str(s)
    case JArray(items) => Arr(seq(|items|, i requires 0 <= i < |items| => ToValue(items[i])))
    case JObject(members) => Obj(map key | key in members :: ToValue(members[key]))
  }

  /** What passing `isJson` says about each kind of value. */
  lemma IsJsonCases(u: Value)
    requires IsJson(u)
    ensures u.Null? || u.Str? || u.Bool? || u.Num? || u.Arr? || u.Obj?
    ensures u.Num? ==> u.n.Finite?
    ensures u.Arr? ==> forall i :: 0 <= i < |u.elems| ==> IsJson(u.elems[i])
    ensures u.Obj? ==> forall key :: key in u.fields ==> IsJson(u.fields[key])
  {
    assert IsJsonArray(u) ==> u.Arr?;
    assert IsJsonObject(u) ==> u.Obj?;
  }

  /** Reads a value that passed `isJson` back as a JSON value. */
  function FromValue(u: Value): Json
    requires IsJson(u)
  {
    IsJsonCases(u);
    if u.Null? then JNull
    else if u.Bool? then JBool(u.b)
    else if u.Num? then JNumber(u.n.r)
    else if u.Str? then JString(u.s)
    else if u.Arr? then
      JArray(seq(|u.elems|, i requires 0 <= i < |u.elems| => FromValue(u.elems[i])))
    else
      JObject(map key | key in u.fields :: FromValue(u.fields[key]))
  }

  /** Every JSON value passes `isJson`. */
  lemma {:induction false} IsJsonSound(j: Json)
    ensures IsJson(ToValue(j))
  {
    match j
    case JArray(items) =>
      forall i | 0 <= i < |items| {
        IsJsonSound(items[i]);
      }
    case JObject(members) =>
      forall key | key in members {
        IsJsonSound(members[key]);
      }
    case _ =>
  }

  /** Every value that passes `isJson` is the representation of a JSON value: the guard is exact. */
  lemma {:induction false} IsJsonComplete(u: Value)
    requires IsJson(u)
    ensures ToValue(FromValue(u)) == u
  {
    match u
    case Arr(elems) =>
      assert IsJsonArray(u);
      forall i | 0 <= i < |elems| {
        IsJsonComplete(elems[i]);
      }
    case Obj(fields) =>
      assert IsJsonObject(u);
      forall key | key in fields {
        IsJsonComplete(fields[key]);
      }
      assert ToValue(FromValue(u)).fields == fields;
    case _ =>
  }

  /** Scalars: null, strings and booleans are JSON; a number is JSON exactly when it is neither NaN nor infinite. */
  lemma IsJsonScalars(s: string, b: bool, n: Number, i: int, d: string)
    ensures IsJson(Null) && IsJson(Str(s)) && IsJson(Bool(b))
    ensures IsJson(Num(n)) <==> n.Finite?
    ensures !IsJson(Undefined) && !IsJson(BigInt(i)) && !IsJson(Symbol(d)) && !IsJson(Function)
  {
  }

  /** An array is JSON exactly when every element is. */
  lemma IsJsonArrayIff(elems: seq<Value>)
    ensures IsJson(Arr(elems)) <==> forall i :: 0 <= i < |elems| ==> IsJson(elems[i])
  {
  }

  /** A record is JSON exactly when every value under its keys is. */
  lemma IsJsonRecordIff(fields: map<string, Value>)
    ensures IsJson(Obj(fields)) <==> forall key :: key in fields ==> IsJson(fields[key])
  {
  }
}
