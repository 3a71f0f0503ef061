/**
 * The two cases of `go` in packages/json-schema/src/index.ts (and its copy in
 * packages/async-api/src/index.ts) that build their output step by step: the
 * array schema of a `Tuple` and the object schema of a `TypeLiteral`. Each has
 * a declarative specification (`TupleSchema`, `ObjectSchema`) and a method
 * with the source's loop (`BuildTuple`, `BuildObject`) proved equal to it.
 * Both receive the children already compiled, as the source compiles them
 * with `map` before its loop.
 */
module Builders {
  import opened Wrappers
  import opened JsValues
  import opened Annotations
  import opened SchemaAst

  /** A JSON Schema object, as the keys and values of a JavaScript object. */
  type Schema = map<string, Value>

  /** Compiled children as JavaScript values. */
  function Embed(schemas: seq<Schema>): (vs: seq<Value>)
    ensures |vs| == |schemas|
    ensures forall i :: 0 <= i < |schemas| ==> vs[i] == Obj(schemas[i])
  {
    seq(|schemas|, i requires 0 <= i < |schemas| => Obj(schemas[i]))
  }

  /** Names as JavaScript strings. */
  function Strings(names: seq<string>): (vs: seq<Value>)
    ensures |vs| == |names|
    ensures forall i :: 0 <= i < |names| ==> vs[i] == Str(names[i])
  {
    seq(|names|, i requires 0 <= i < |names| => Str(names[i]))
  }

  /** `output.x === undefined`. */
  predicate IsUndefined(output: Schema, key: string) {
    key !in output || output[key] == Undefined
  }

  /**
   * `v + 1` in JavaScript on a primitive: string concatenation for a string,
   * numeric addition after `ToNumber` otherwise (`null` is 0, booleans 0 or
   * 1, `undefined` NaN), and a `TypeError` for a bigint or a symbol.
   */
  function Plus1(v: Value): (r: Result<Value, CompileError>)
    requires IsPrimitive(v)
    ensures r.Failure? <==> v.BigInt? || v.Symbol?
    ensures r.Success? ==> r.value.Num? || r.value.Str?
  {
    match v
    case Num(n) => Success(Num(if n.Finite? then Finite(n.r + 1.0) else n))
    case Str(s) => Success(Str(s + "1"))
    case Null => Success(Int(1))
    case Bool(b) => Success(Int(if b then 2 else 1))
    case Undefined => Success(Num(NaN))
    case BigInt(_) => Failure(MixedBigIntTypeError)
    case Symbol(_) => Failure(SymbolToNumberTypeError)
  }

  // ---------------------------------------------------------------------------
  // Tuple
  // ---------------------------------------------------------------------------

  /** The number of tuple elements that are not optional. */
  function RequiredCount(elements: seq<Element>): nat {
    if elements == [] then 0
    else
      var n := |elements| - 1;
      RequiredCount(elements[..n]) + if elements[n].isOptional then 0 else 1
  }

  /** The non-optional elements are at most all of them, and all of them exactly when none is optional. */
  lemma {:induction false} RequiredCountBounds(elements: seq<Element>)
    ensures RequiredCount(elements) <= |elements|
    ensures RequiredCount(elements) == |elements| <==> forall i :: 0 <= i < |elements| ==> !elements[i].isOptional
  {
    if elements != [] {
      var n := |elements| - 1;
      RequiredCountBounds(elements[..n]);
      assert forall i :: 0 <= i < n ==> elements[..n][i] == elements[i];
    }
  }

  /** A prefix has no more required elements than the whole, and one required element makes the count positive. */
  lemma {:induction false} RequiredCountPrefix(elements: seq<Element>, k: nat)
    requires k <= |elements|
    ensures RequiredCount(elements[..k]) <= RequiredCount(elements)
    ensures k > 0 && !elements[k - 1].isOptional ==> RequiredCount(elements[..k]) > 0
    decreases |elements|
  {
    if k < |elements| {
      var n := |elements| - 1;
      assert elements[..n][..k] == elements[..k];
      RequiredCountPrefix(elements[..n], k);
    } else {
      assert elements[..k] == elements;
      if k > 0 {
        assert elements[..k][..k - 1] == elements[..k - 1];
      }
    }
  }

  /** `{ ...annotations, type: 'array' }`. */
  function ArrayBase(annotations: AnnotationRecord): (base: Schema)
    ensures BoundsArePrimitive(base)
  {
    annotations["type" := Str("array")]
  }

  /** A bound as the loop first reads it: set to 0 when undefined, else the value it already has. */
  function InitialBound(base: Schema, key: string): (v: Value)
    requires BoundsArePrimitive(base) && (key == "minItems" || key == "maxItems")
    ensures IsPrimitive(v) && v != Undefined
  {
    if IsUndefined(base, key) then Int(0) else base[key]
  }

  /** A bound after `n` required elements: `+ 1` applied `n` times, which throws on the first step or never. */
  function AddRequired(v: Value, n: nat): (r: Result<Value, CompileError>)
    requires IsPrimitive(v)
    ensures n == 0 ==> r == Success(v)
    ensures n > 0 ==> (r.Failure? <==> v.BigInt? || v.Symbol?)
    ensures n > 0 && r.Failure? ==> r == Plus1(v)
    ensures n > 0 && r.Success? ==> r.value.Num? || r.value.Str?
  {
    if n == 0 then Success(v)
    else
      var w :- AddRequired(v, n - 1);
      Plus1(w)
  }

  /** From a finite number, each required element adds one. */
  lemma {:induction false} AddRequiredFromNumber(k: int, n: nat)
    ensures AddRequired(Int(k), n) == Success(Int(k + n))
  {
    if n > 0 {
      AddRequiredFromNumber(k, n - 1);
      assert (k + n - 1) as real + 1.0 == (k + n) as real;
    }
  }

  /**
   * `items` after the loop: created empty when undefined, then every element
   * pushed onto it if it is an array; any other value is left alone.
   */
  function Items(base: Schema, compiled: seq<Schema>): Value {
    if IsUndefined(base, "items") then Arr(Embed(compiled))
    else if base["items"].Arr? then Arr(base["items"].elems + Embed(compiled))
    else base["items"]
  }

  /** The array schema once the fixed elements are in, or the `TypeError` of a bound. */
  function WithElements(base: Schema, elements: seq<Element>, compiled: seq<Schema>): Result<Schema, CompileError>
    requires BoundsArePrimitive(base)
  {
    var count := RequiredCount(elements);
    var minItems :- AddRequired(InitialBound(base, "minItems"), count);
    var maxItems :- AddRequired(InitialBound(base, "maxItems"), count);
    Success(base["minItems" := minItems]["maxItems" := maxItems]["items" := Items(base, compiled)])
  }

  /**
   * The array schema of a tuple with fixed elements `elements` (compiled to
   * `compiled`) and compiled rest members `rest`.
   */
  function TupleSchema(annotations: AnnotationRecord, elements: seq<Element>, compiled: seq<Schema>,
                       rest: seq<Schema>): Result<Schema, CompileError>
  {
    var base := ArrayBase(annotations);
    var fixed :- if elements == [] then Success(base) else WithElements(base, elements, compiled);
    if rest == [] then Success(fixed)
    else if !IsUndefined(fixed, "items") then Success((fixed - {"maxItems"})["additionalItems" := Obj(rest[0])])
    else Success(fixed["items" := Obj(rest[0])])
  }

  /** The keys the `Tuple` case writes or deletes. */
  const TupleKeys: set<string> := {"type", "minItems", "maxItems", "items", "additionalItems"}

  /** A bound that makes `+ 1` throw. */
  predicate Unaddable(v: Value) {
    v.BigInt? || v.Symbol?
  }

  /**
   * A tuple schema fails exactly when a required element meets a bigint or
   * symbol bound in the annotations, and then with the error of `minItems`
   * if that bound throws, else of `maxItems`.
   */
  lemma TupleSchemaFailure(annotations: AnnotationRecord, elements: seq<Element>, compiled: seq<Schema>, rest: seq<Schema>)
    ensures var r := TupleSchema(annotations, elements, compiled, rest);
      var lo, hi := InitialBound(annotations, "minItems"), InitialBound(annotations, "maxItems");
      && (r.Failure? <==> RequiredCount(elements) > 0 && (Unaddable(lo) || Unaddable(hi)))
      && (r.Failure? ==> r.error == if Unaddable(lo) then Plus1(lo).error else Plus1(hi).error)
  {
    var base := ArrayBase(annotations);
    assert InitialBound(base, "minItems") == InitialBound(annotations, "minItems");
    assert InitialBound(base, "maxItems") == InitialBound(annotations, "maxItems");
  }

  /**
   * A tuple schema that compiles is the annotations with `type: 'array'`:
   * every annotation key the case does not write is kept, only `maxItems`
   * can be deleted, and every other key is one the case writes.
   */
  lemma TupleSchemaBase(annotations: AnnotationRecord, elements: seq<Element>, compiled: seq<Schema>, rest: seq<Schema>)
    requires TupleSchema(annotations, elements, compiled, rest).Success?
    ensures var r := TupleSchema(annotations, elements, compiled, rest).value;
      && "type" in r && r["type"] == Str("array")
      && (forall key :: key in annotations && key !in TupleKeys ==> key in r && r[key] == annotations[key])
      && (forall key :: key in annotations && key != "maxItems" ==> key in r)
      && (forall key :: key in r ==> key in annotations || key in TupleKeys)
  {
  }

  /**
   * With fixed elements, `minItems` is the annotation's bound (0 when
   * undefined) plus the number of required elements, and `items` is the
   * annotation's `items` array with every element's schema appended (a fresh
   * array when undefined). Then either `maxItems` counts the same way or,
   * with a rest element, is deleted and `additionalItems` is the first rest
   * member.
   */
  lemma TupleSchemaElements(annotations: AnnotationRecord, elements: seq<Element>, compiled: seq<Schema>, rest: seq<Schema>)
    requires TupleSchema(annotations, elements, compiled, rest).Success? && elements != []
    ensures var r := TupleSchema(annotations, elements, compiled, rest).value; var count := RequiredCount(elements);
      && "minItems" in r && r["minItems"] == AddRequired(InitialBound(annotations, "minItems"), count).value
      && "items" in r && r["items"] == Items(annotations, compiled)
      && (rest == [] ==>
        && "maxItems" in r && r["maxItems"] == AddRequired(InitialBound(annotations, "maxItems"), count).value
        && ("additionalItems" in r <==> "additionalItems" in annotations))
      && (rest != [] ==> "maxItems" !in r && "additionalItems" in r && r["additionalItems"] == Obj(rest[0]))
  {
    var base := ArrayBase(annotations);
    assert InitialBound(base, "minItems") == InitialBound(annotations, "minItems");
    assert InitialBound(base, "maxItems") == InitialBound(annotations, "maxItems");
    assert Items(base, compiled) == Items(annotations, compiled);
  }

  /**
   * Without fixed elements the bounds are the annotations' own. A rest
   * element goes to `items` when the annotations have none, and otherwise to
   * `additionalItems`, deleting `maxItems`.
   */
  lemma TupleSchemaRestOnly(annotations: AnnotationRecord, compiled: seq<Schema>, rest: seq<Schema>)
    ensures var r := TupleSchema(annotations, [], compiled, rest);
      && r.Success?
      && (rest == [] ==> r.value == ArrayBase(annotations))
      && (rest != [] && IsUndefined(annotations, "items") ==> r.value == ArrayBase(annotations)["items" := Obj(rest[0])])
      && (rest != [] && !IsUndefined(annotations, "items") ==>
            r.value == (ArrayBase(annotations) - {"maxItems"})["additionalItems" := Obj(rest[0])])
  {
  }

  /**
   * Annotations without bounds or `items` give the plain array schema: both
   * bounds count the required elements and `items` lists every element's
   * schema in order.
   */
  lemma TupleSchemaPlain(annotations: AnnotationRecord, elements: seq<Element>, compiled: seq<Schema>, rest: seq<Schema>)
    requires "minItems" !in annotations && "maxItems" !in annotations && "items" !in annotations
    ensures var r := TupleSchema(annotations, elements, compiled, rest);
      && r.Success?
      && (elements != [] ==>
        && r.value["minItems"] == Int(RequiredCount(elements))
        && r.value["items"] == Arr(Embed(compiled))
        && (rest == [] ==> r.value["maxItems"] == Int(RequiredCount(elements))))
      && (elements == [] ==> "minItems" !in r.value && "maxItems" !in r.value)
      && (elements == [] && rest != [] ==> r.value["items"] == Obj(rest[0]))
  {
    var count := RequiredCount(elements);
    AddRequiredFromNumber(0, count);
    if elements != [] {
      TupleSchemaElements(annotations, elements, compiled, rest);
    }
  }

  /** The `Tuple` case: the array base, the loop over the fixed elements, then the rest-element step. */
  method BuildTuple(annotations: AnnotationRecord, elements: seq<Element>, compiled: seq<Schema>, rest: seq<Schema>)
    returns (r: Result<Schema, CompileError>)
    requires |compiled| == |elements|
    ensures r == TupleSchema(annotations, elements, compiled, rest)
  {
    var base := ArrayBase(annotations);
    var fixed := AddElements(base, elements, compiled);
    if fixed.Failure? {
      return fixed;
    }
    var output := fixed.value;
    if rest != [] {
      var head := rest[0];
      if !IsUndefined(output, "items") {
        output := output - {"maxItems"};
        output := output["additionalItems" := Obj(head)];
      } else {
        output := output["items" := Obj(head)];
      }
    }
    r := Success(output);
  }

  /** One element's effect on the bounds: both set to 0 when undefined, then 1 added to each if it is required. */
  function CountStep(output: Schema, required: bool): Result<Schema, CompileError>
    requires BoundsArePrimitive(output)
  {
    var lo, hi := InitialBound(output, "minItems"), InitialBound(output, "maxItems");
    if !required then Success(output["minItems" := lo]["maxItems" := hi])
    else
      var minItems :- Plus1(lo);
      var maxItems :- Plus1(hi);
      Success(output["minItems" := minItems]["maxItems" := maxItems])
  }

  /** The bounds part of one iteration of the element loop. */
  method CountElement(output: Schema, required: bool) returns (r: Result<Schema, CompileError>)
    requires BoundsArePrimitive(output)
    ensures r == CountStep(output, required)
  {
    ghost var lo, hi := InitialBound(output, "minItems"), InitialBound(output, "maxItems");
    var out := output;
    if IsUndefined(out, "minItems") {
      out := out["minItems" := Int(0)];
    }
    if IsUndefined(out, "maxItems") {
      out := out["maxItems" := Int(0)];
    }
    assert out == output["minItems" := lo]["maxItems" := hi];
    if required {
      var minItems := Plus1(out["minItems"]);
      if minItems.Failure? {
        return Failure(minItems.error);
      }
      out := out["minItems" := minItems.value];
      assert out["maxItems"] == hi;
      var maxItems := Plus1(out["maxItems"]);
      if maxItems.Failure? {
        return Failure(maxItems.error);
      }
      out := out["maxItems" := maxItems.value];
      assert out == output["minItems" := minItems.value]["maxItems" := maxItems.value];
    }
    r := Success(out);
  }

  /** The `items` part of one iteration: create the array when undefined, push onto it when it is one. */
  method PushElement(output: Schema, schema: Schema) returns (out: Schema)
    ensures out == output["items" := Items(output, [schema])]
  {
    assert Embed([schema]) == [Obj(schema)];
    out := output;
    if IsUndefined(out, "items") {
      out := out["items" := Arr([])];
      assert out["items"].elems + [Obj(schema)] == [Obj(schema)];
      out := out["items" := Arr(out["items"].elems + [Obj(schema)])];
      assert out == output["items" := Arr([Obj(schema)])];
    } else if out["items"].Arr? {
      out := out["items" := Arr(out["items"].elems + [Obj(schema)])];
    } else {
      assert out == output["items" := output["items"]];
    }
  }

  /** The state of the element loop after the first `i` elements. */
  predicate LoopState(base: Schema, elements: seq<Element>, compiled: seq<Schema>, i: nat, output: Schema)
    requires BoundsArePrimitive(base) && i <= |elements| == |compiled|
  {
    if i == 0 then output == base
    else WithElements(base, elements[..i], compiled[..i]) == Success(output)
  }

  /** Every state of the loop keeps the bounds primitive. */
  lemma LoopStatePrimitive(base: Schema, elements: seq<Element>, compiled: seq<Schema>, i: nat, output: Schema)
    requires BoundsArePrimitive(base) && i <= |elements| == |compiled|
    requires LoopState(base, elements, compiled, i, output)
    ensures BoundsArePrimitive(output)
  {
  }

  /** A bound that throws in the element loop makes the whole tuple throw that error. */
  lemma StepFailure(base: Schema, elements: seq<Element>, compiled: seq<Schema>, i: nat, output: Schema)
    requires BoundsArePrimitive(base) && BoundsArePrimitive(output) && i < |elements| == |compiled|
    requires LoopState(base, elements, compiled, i, output)
    requires CountStep(output, !elements[i].isOptional).Failure?
    ensures WithElements(base, elements, compiled) == Failure(CountStep(output, !elements[i].isOptional).error)
  {
    var lo, hi := InitialBound(base, "minItems"), InitialBound(base, "maxItems");
    RequiredCountPrefix(elements, i + 1);
    if i > 0 {
      var count := RequiredCount(elements[..i]);
      assert InitialBound(output, "minItems") == AddRequired(lo, count).value;
      assert InitialBound(output, "maxItems") == AddRequired(hi, count).value;
    }
  }

  /** Pushing the next element's schema onto `items` extends `Items` by that element. */
  lemma ItemsStep(base: Schema, compiled: seq<Schema>, i: nat, current: Schema)
    requires i < |compiled|
    requires i == 0 ==>
      && IsUndefined(current, "items") == IsUndefined(base, "items")
      && (!IsUndefined(base, "items") ==> current["items"] == base["items"])
    requires i > 0 ==> "items" in current && current["items"] == Items(base, compiled[..i])
    ensures Items(current, [compiled[i]]) == Items(base, compiled[..i + 1])
  {
    var c := compiled[i];
    assert Embed([c]) == [Obj(c)];
    assert Embed(compiled[..i + 1]) == Embed(compiled[..i]) + [Obj(c)];
    if i == 0 {
      assert compiled[..1] == [c];
    } else if !IsUndefined(base, "items") && base["items"].Arr? {
      assert base["items"].elems + Embed(compiled[..i]) + [Obj(c)] == base["items"].elems + Embed(compiled[..i + 1]);
    }
  }

  /** After one more element, the bounds are those the first `i + 1` elements give. */
  lemma BoundsStep(base: Schema, elements: seq<Element>, compiled: seq<Schema>, i: nat, output: Schema)
    requires BoundsArePrimitive(base) && BoundsArePrimitive(output) && i < |elements| == |compiled|
    requires LoopState(base, elements, compiled, i, output)
    requires CountStep(output, !elements[i].isOptional).Success?
    ensures var counted := CountStep(output, !elements[i].isOptional).value;
      var next := RequiredCount(elements[..i + 1]);
      && AddRequired(InitialBound(base, "minItems"), next).Success?
      && AddRequired(InitialBound(base, "maxItems"), next).Success?
      && counted == (if i == 0 then base else output)
           ["minItems" := AddRequired(InitialBound(base, "minItems"), next).value]
           ["maxItems" := AddRequired(InitialBound(base, "maxItems"), next).value]
  {
    var lo, hi := InitialBound(base, "minItems"), InitialBound(base, "maxItems");
    var count := RequiredCount(elements[..i]);
    assert elements[..i + 1][..i] == elements[..i];
    assert RequiredCount(elements[..i + 1]) == count + if elements[i].isOptional then 0 else 1;
    if i == 0 {
      assert InitialBound(output, "minItems") == lo && InitialBound(output, "maxItems") == hi;
    } else {
      assert InitialBound(output, "minItems") == AddRequired(lo, count).value;
      assert InitialBound(output, "maxItems") == AddRequired(hi, count).value;
    }
  }

  /** One iteration of the element loop moves its state from `i` to `i + 1` elements. */
  lemma StepSuccess(base: Schema, elements: seq<Element>, compiled: seq<Schema>, i: nat, output: Schema)
    requires BoundsArePrimitive(base) && BoundsArePrimitive(output) && i < |elements| == |compiled|
    requires LoopState(base, elements, compiled, i, output)
    requires CountStep(output, !elements[i].isOptional).Success?
    ensures var counted := CountStep(output, !elements[i].isOptional).value;
      LoopState(base, elements, compiled, i + 1, counted["items" := Items(counted, [compiled[i]])])
  {
    var counted := CountStep(output, !elements[i].isOptional).value;
    BoundsStep(base, elements, compiled, i, output);
    ItemsStep(base, compiled, i, counted);
    WithElementsSuccess(base, elements[..i + 1], compiled[..i + 1]);
    var next := RequiredCount(elements[..i + 1]);
    var minItems := AddRequired(InitialBound(base, "minItems"), next).value;
    var maxItems := AddRequired(InitialBound(base, "maxItems"), next).value;
    if i > 0 {
      WithElementsSuccess(base, elements[..i], compiled[..i]);
      Overwrite(base, output["minItems"], output["maxItems"], output["items"], minItems, maxItems, Items(counted, [compiled[i]]));
    }
  }

  /** Setting the three tuple keys again overwrites what was set before. */
  lemma Overwrite(m: Schema, a0: Value, b0: Value, c0: Value, a: Value, b: Value, c: Value)
    ensures m["minItems" := a0]["maxItems" := b0]["items" := c0]["minItems" := a]["maxItems" := b]["items" := c]
         == m["minItems" := a]["maxItems" := b]["items" := c]
  {
  }

  /** When neither bound throws, the fixed elements set both bounds and `items`. */
  lemma WithElementsSuccess(base: Schema, elements: seq<Element>, compiled: seq<Schema>)
    requires BoundsArePrimitive(base)
    requires AddRequired(InitialBound(base, "minItems"), RequiredCount(elements)).Success?
    requires AddRequired(InitialBound(base, "maxItems"), RequiredCount(elements)).Success?
    ensures WithElements(base, elements, compiled) == Success(base
      ["minItems" := AddRequired(InitialBound(base, "minItems"), RequiredCount(elements)).value]
      ["maxItems" := AddRequired(InitialBound(base, "maxItems"), RequiredCount(elements)).value]
      ["items" := Items(base, compiled)])
  {
  }

  /**
   * The loop over the fixed elements: each one sets both bounds to 0 when
   * they are undefined, adds 1 to both when it is required, creates `items`
   * when undefined and pushes its schema when `items` is an array.
   */
  method AddElements(base: Schema, elements: seq<Element>, compiled: seq<Schema>) returns (r: Result<Schema, CompileError>)
    requires |compiled| == |elements| && BoundsArePrimitive(base)
    ensures r == if elements == [] then Success(base) else WithElements(base, elements, compiled)
  {
    var output := base;
    var i := 0;
    while i < |elements|
      invariant 0 <= i <= |elements|
      invariant LoopState(base, elements, compiled, i, output)
    {
      LoopStatePrimitive(base, elements, compiled, i, output);
      var counted := CountElement(output, !elements[i].isOptional);
      if counted.Failure? {
        StepFailure(base, elements, compiled, i, output);
        return Failure(counted.error);
      }
      StepSuccess(base, elements, compiled, i, output);
      output := PushElement(counted.value, compiled[i]);
      i := i + 1;
    }
    assert elements[..i] == elements && compiled[..i] == compiled;
    r := Success(output);
  }

  // ---------------------------------------------------------------------------
  // TypeLiteral
  // ---------------------------------------------------------------------------

  predicate AllStringKeys(props: seq<PropertySignature>) {
    forall j :: 0 <= j < |props| ==> props[j].name.StringKey?
  }

  /** The first property name that is not a string, in declaration order. */
  function FirstNonStringKey(props: seq<PropertySignature>): (r: Option<PropertyKey>)
    ensures r.None? <==> AllStringKeys(props)
    ensures forall i :: 0 <= i < |props| && !props[i].name.StringKey? && AllStringKeys(props[..i]) ==>
      r == Some(props[i].name)
  {
    if props == [] then None
    else if !props[0].name.StringKey? then Some(props[0].name)
    else
      var r := FirstNonStringKey(props[1..]);
      assert forall i :: 1 <= i < |props| && AllStringKeys(props[..i]) ==> AllStringKeys(props[1..][..i - 1]) by {
        forall i | 1 <= i < |props| && AllStringKeys(props[..i]) ensures AllStringKeys(props[1..][..i - 1]) {
          var prefix, tail := props[..i], props[1..][..i - 1];
          forall j | 0 <= j < |tail| ensures tail[j].name.StringKey? {
            assert tail[j] == prefix[j + 1];
          }
        }
      }
      r
  }

  /** `required`: the names of the non-optional properties, in declaration order. */
  function RequiredNames(props: seq<PropertySignature>): seq<string>
    requires AllStringKeys(props)
  {
    if props == [] then []
    else
      var last := props[|props| - 1];
      RequiredNames(props[..|props| - 1]) + if last.isOptional then [] else [last.name.name]
  }

  /**
   * `output.properties[name] = schema` on an ordinary object: an own property,
   * except that the name `__proto__` runs the inherited setter, which replaces
   * the prototype and adds no own property.
   */
  function SetProperty(properties: map<string, Value>, name: string, schema: Schema): map<string, Value> {
    if name == "__proto__" then properties else properties[name := Obj(schema)]
  }

  /** `properties`: each name mapped to its compiled type; a repeated name keeps its last one. */
  function Properties(props: seq<PropertySignature>, compiled: seq<Schema>): map<string, Value>
    requires AllStringKeys(props) && |compiled| == |props|
  {
    if props == [] then map[]
    else
      var n := |props| - 1;
      SetProperty(Properties(props[..n], compiled[..n]), props[n].name.name, compiled[n])
  }

  /** `additionalProperties`: closed without index signatures, else every index signature's type must hold. */
  function AdditionalProperties(compiledIndex: seq<Schema>): Value {
    if |compiledIndex| > 0 then Obj(map["allOf" := Arr(Embed(compiledIndex))]) else Bool(false)
  }

  /**
   * The object schema of a type literal whose property types compiled to
   * `compiledProps` and index signature types to `compiledIndex`; it fails on
   * the first property name that is not a string.
   */
  function ObjectSchema(annotations: AnnotationRecord, props: seq<PropertySignature>, compiledProps: seq<Schema>,
                        compiledIndex: seq<Schema>): Result<Schema, CompileError>
    requires |compiledProps| == |props|
  {
    match FirstNonStringKey(props)
    case Some(key) => Failure(PropertyKeyUnsupported(key))
    case None =>
      Success(annotations + map[
        "type" := Str("object"),
        "required" := Arr(Strings(RequiredNames(props))),
        "properties" := Obj(Properties(props, compiledProps)),
        "additionalProperties" := AdditionalProperties(compiledIndex)])
  }

  /** The keys the `TypeLiteral` case writes. */
  const ObjectKeys: set<string> := {"type", "required", "properties", "additionalProperties"}

  /** The `TypeLiteral` case's loop over the property signatures and its index-signature step. */
  method BuildObject(annotations: AnnotationRecord, props: seq<PropertySignature>, compiledProps: seq<Schema>,
                     compiledIndex: seq<Schema>) returns (r: Result<Schema, CompileError>)
    requires |compiledProps| == |props|
    ensures r == ObjectSchema(annotations, props, compiledProps, compiledIndex)
  {
    // `output.required` and `output.properties` start empty whatever the
    // annotations hold, so they are kept in locals and put in at the end.
    var required: seq<string> := [];
    var properties: map<string, Value> := map[];
    var additionalProperties := Bool(false);
    var i := 0;
    while i < |compiledProps|
      invariant 0 <= i <= |props|
      invariant AllStringKeys(props[..i])
      invariant required == RequiredNames(props[..i])
      invariant properties == Properties(props[..i], compiledProps[..i])
    {
      var name := props[i].name;
      if name.StringKey? {
        properties := SetProperty(properties, name.name, compiledProps[i]);
        if !props[i].isOptional {
          required := required + [name.name];
        }
      } else {
        return Failure(PropertyKeyUnsupported(name));
      }
      assert props[..i + 1][..i] == props[..i];
      assert compiledProps[..i + 1][..i] == compiledProps[..i];
      i := i + 1;
    }
    assert props[..i] == props && compiledProps[..i] == compiledProps;
    if |compiledIndex| > 0 {
      additionalProperties := Obj(map["allOf" := Arr(Embed(compiledIndex))]);
    }
    r := Success(annotations + map[
      "type" := Str("object"),
      "required" := Arr(Strings(required)),
      "properties" := Obj(properties),
      "additionalProperties" := additionalProperties]);
  }

  /** A name is required exactly when some non-optional property has it. */
  lemma {:induction false} RequiredNamesMembers(props: seq<PropertySignature>, name: string)
    requires AllStringKeys(props)
    ensures name in RequiredNames(props) <==>
      exists j :: 0 <= j < |props| && props[j].name == StringKey(name) && !props[j].isOptional
  {
    if props != [] {
      var n := |props| - 1;
      RequiredNamesMembers(props[..n], name);
      assert forall j :: 0 <= j < n ==> props[..n][j] == props[j];
    }
  }

  /** Required names follow declaration order: the names of a concatenation are the concatenated names. */
  lemma {:induction false} RequiredNamesAppend(a: seq<PropertySignature>, b: seq<PropertySignature>)
    requires AllStringKeys(a) && AllStringKeys(b)
    ensures AllStringKeys(a + b)
    ensures RequiredNames(a + b) == RequiredNames(a) + RequiredNames(b)
    decreases |b|
  {
    if b != [] {
      var n := |b| - 1;
      assert (a + b)[..|a + b| - 1] == a + b[..n];
      RequiredNamesAppend(a, b[..n]);
    } else {
      assert a + b == a;
    }
  }

  /** With no optional property, `required` lists every name in order. */
  lemma {:induction false} RequiredNamesAllRequired(props: seq<PropertySignature>)
    requires AllStringKeys(props)
    requires forall j :: 0 <= j < |props| ==> !props[j].isOptional
    ensures |RequiredNames(props)| == |props|
    ensures forall j :: 0 <= j < |props| ==> RequiredNames(props)[j] == props[j].name.name
  {
    if props != [] {
      RequiredNamesAllRequired(props[..|props| - 1]);
    }
  }

  /** `properties` has a key exactly for each property name other than `__proto__`. */
  lemma {:induction false} PropertiesKeys(props: seq<PropertySignature>, compiled: seq<Schema>)
    requires AllStringKeys(props) && |compiled| == |props|
    ensures forall name :: name in Properties(props, compiled) <==>
      name != "__proto__" && exists j :: 0 <= j < |props| && props[j].name == StringKey(name)
  {
    if props != [] {
      var n := |props| - 1;
      PropertiesKeys(props[..n], compiled[..n]);
      forall name ensures name in Properties(props, compiled) <==>
        name != "__proto__" && exists j :: 0 <= j < |props| && props[j].name == StringKey(name)
      {
        if name != props[n].name.name && name in Properties(props, compiled) {
          var j :| 0 <= j < n && props[..n][j].name == StringKey(name);
          assert props[j].name == StringKey(name);
        }
        if exists j :: 0 <= j < |props| && props[j].name == StringKey(name) {
          var j :| 0 <= j < |props| && props[j].name == StringKey(name);
          if j < n {
            assert props[..n][j].name == StringKey(name);
          }
        }
      }
    }
  }

  /** Under a name other than `__proto__`, `properties` holds the compiled type of the last property carrying it. */
  lemma {:induction false} PropertiesLookup(props: seq<PropertySignature>, compiled: seq<Schema>)
    requires AllStringKeys(props) && |compiled| == |props|
    ensures forall j ::
      (0 <= j < |props| && props[j].name.name != "__proto__" && forall j' :: j < j' < |props| ==> props[j'].name != props[j].name)
      ==> props[j].name.name in Properties(props, compiled) && Properties(props, compiled)[props[j].name.name] == Obj(compiled[j])
  {
    if props != [] {
      var n := |props| - 1;
      PropertiesLookup(props[..n], compiled[..n]);
      forall j | 0 <= j < |props| && props[j].name.name != "__proto__"
        && (forall j' :: j < j' < |props| ==> props[j'].name != props[j].name)
        ensures props[j].name.name in Properties(props, compiled)
        ensures Properties(props, compiled)[props[j].name.name] == Obj(compiled[j])
      {
        if j < n {
          assert props[..n][j] == props[j];
          assert props[n].name != props[j].name;
        }
      }
    }
  }

  /**
   * The object schema is the annotations plus the four object keys, which
   * replace any annotation of the same name; it fails exactly when a name is
   * not a string.
   */
  lemma ObjectSchemaShape(annotations: AnnotationRecord, props: seq<PropertySignature>, compiledProps: seq<Schema>,
                          compiledIndex: seq<Schema>)
    requires |compiledProps| == |props|
    ensures var r := ObjectSchema(annotations, props, compiledProps, compiledIndex);
      && (r.Success? <==> AllStringKeys(props))
      && (r.Success? ==>
        && r.value.Keys == annotations.Keys + ObjectKeys
        && (forall key :: key in annotations && key !in ObjectKeys ==> r.value[key] == annotations[key])
        && r.value["type"] == Str("object")
        && r.value["required"] == Arr(Strings(RequiredNames(props)))
        && r.value["properties"] == Obj(Properties(props, compiledProps))
        && (r.value["additionalProperties"] == Bool(false) <==> compiledIndex == [])
        && (compiledIndex != [] ==> r.value["additionalProperties"] == Obj(map["allOf" := Arr(Embed(compiledIndex))])))
  {
  }
}
