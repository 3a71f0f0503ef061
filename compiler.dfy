/**
 * `go`, the recursive compiler from a schema AST to a JSON Schema (draft-07)
 * object, of which the repository holds two copies:
 * packages/json-schema/src/index.ts, which spreads each node's resolved
 * annotations into its schema, and packages/async-api/src/index.ts, which
 * spreads none. Apart from that the two copies are the same case for case, so
 * both are `Compile` here, told apart by `annotate`. A thrown `Error` is a
 * `Failure`, which aborts the whole compilation.
 */
module Compiler {
  import opened Wrappers
  import opened JsValues
  import opened Annotations
  import opened SchemaAst
  import opened Builders

  /** The annotations spread into a node's schema: resolved by json-schema, none in async-api. */
  function NodeAnnotations(meta: Metadata, annotate: bool): AnnotationRecord {
    if annotate then EffectiveAnnotations(meta) else map[]
  }

  /** `{ ...schema, ...override }` when the node carries a JSON Schema override, else `schema` unchanged. */
  function WithOverride(schema: Schema, meta: Metadata): Schema {
    if meta.jsonSchema.Some? then schema + meta.jsonSchema.value else schema
  }

  /** `indexSignatures.filter((is) => is.parameter._tag === 'StringKeyword').length`. */
  function CountStringParameters(indexSignatures: seq<IndexSignature>): nat {
    if indexSignatures == [] then 0
    else (if indexSignatures[0].parameter.StringKeyword? then 1 else 0) + CountStringParameters(indexSignatures[1..])
  }

  /** `enums.map(([_, value]) => ({ const: value }))`. */
  function EnumConsts(enums: seq<EnumMember>): (vs: seq<Value>)
    ensures |vs| == |enums|
    ensures forall i :: 0 <= i < |enums| ==> vs[i] == Obj(map["const" := EnumToValue(enums[i].value)])
  {
    seq(|enums|, i requires 0 <= i < |enums| => Obj(map["const" := EnumToValue(enums[i].value)]))
  }

  /** `go`. */
  function Compile(ast: Ast, annotate: bool): Result<Schema, CompileError>
    decreases ast, 1
  {
    var annotations := NodeAnnotations(ast.meta, annotate);
    match ast
    case Declaration(typeAst, meta) =>
      var schema :- Compile(typeAst, annotate);
      Success(WithOverride(schema, meta))
    case Literal(literal, _) =>
      if literal.BigIntLiteral? then Success(map[])
      else if literal.NullLiteral? then Success(map["type" := Str("null")])
      else Success(annotations["const" := LiteralToValue(literal)])
    case UniqueSymbol(_) => Failure(UniqueSymbolUnsupported)
    case UndefinedKeyword(_) => Failure(UndefinedUnsupported)
    case VoidKeyword(_) => Failure(VoidUnsupported)
    case NeverKeyword(_) => Failure(NeverUnsupported)
    case UnknownKeyword(_) => Success(annotations)
    case AnyKeyword(_) => Success(annotations)
    case StringKeyword(_) => Success(annotations["type" := Str("string")])
    case NumberKeyword(_) => Success(annotations["type" := Str("number")])
    case BooleanKeyword(_) => Success(annotations["type" := Str("boolean")])
    case BigIntKeyword(_) => Failure(BigIntUnsupported)
    case SymbolKeyword(_) => Failure(SymbolUnsupported)
    case ObjectKeyword(_) => Success(annotations)
    case Tuple(elements, rest, _) =>
      var compiled :- CompileElements(elements, annotate);
      // every rest member is compiled, though only the first is used
      var compiledRest :- CompileAll(rest, annotate);
      TupleSchema(annotations, elements, compiled, compiledRest)
    case TypeLiteral(propertySignatures, indexSignatures, _) =>
      if |indexSignatures| < CountStringParameters(indexSignatures) then
        Failure(IndexSignatureUnsupported)
      else
        var compiledProps :- CompileProperties(propertySignatures, annotate);
        var compiledIndex :- CompileIndexSignatures(indexSignatures, annotate);
        ObjectSchema(annotations, propertySignatures, compiledProps, compiledIndex)
    case Union(types, _) =>
      var compiled :- CompileAll(types, annotate);
      Success(annotations["anyOf" := Arr(Embed(compiled))])
    case Enums(enums, _) =>
      Success(annotations["anyOf" := Arr(EnumConsts(enums))])
    case Refinement(from, meta) =>
      var schema :- Compile(from, annotate);
      Success(WithOverride(schema, meta))
    case TemplateLiteral(_, _) => Failure(Unhandled(Tag(ast)))
    case Lazy(_) => Failure(Unhandled(Tag(ast)))
    case Transform(_, _, _) => Failure(Unhandled(Tag(ast)))
  }

  /** `go(e.type)` for one tuple element. */
  function CompileElement(e: Element, annotate: bool): Result<Schema, CompileError>
    decreases e, 2
  {
    Compile(e.typeAst, annotate)
  }

  /** `go(ps.type)` for one property signature. */
  function CompileProperty(ps: PropertySignature, annotate: bool): Result<Schema, CompileError>
    decreases ps, 2
  {
    Compile(ps.typeAst, annotate)
  }

  /** `go(is.type)` for one index signature `is`. */
  function CompileIndexSignature(sig: IndexSignature, annotate: bool): Result<Schema, CompileError>
    decreases sig, 2
  {
    Compile(sig.typeAst, annotate)
  }

  /** `types.map(go)`: fails with the first failing member, else compiles each member in place. */
  function CompileAll(types: seq<Ast>, annotate: bool): (r: Result<seq<Schema>, CompileError>)
    ensures r.Success? ==> |r.value| == |types|
    decreases types, 0
  {
    if types == [] then Success([])
    else
      var head :- Compile(types[0], annotate);
      var tail :- CompileAll(types[1..], annotate);
      Success([head] + tail)
  }

  /** `elements.map((e) => go(e.type))`. */
  function CompileElements(elements: seq<Element>, annotate: bool): (r: Result<seq<Schema>, CompileError>)
    ensures r.Success? ==> |r.value| == |elements|
    decreases elements, 0
  {
    if elements == [] then Success([])
    else
      var head :- CompileElement(elements[0], annotate);
      var tail :- CompileElements(elements[1..], annotate);
      Success([head] + tail)
  }

  /** `propertySignatures.map((ps) => go(ps.type))`. */
  function CompileProperties(props: seq<PropertySignature>, annotate: bool): (r: Result<seq<Schema>, CompileError>)
    ensures r.Success? ==> |r.value| == |props|
    decreases props, 0
  {
    if props == [] then Success([])
    else
      var head :- CompileProperty(props[0], annotate);
      var tail :- CompileProperties(props[1..], annotate);
      Success([head] + tail)
  }

  /** `indexSignatures.map((is) => go(is.type))`. */
  function CompileIndexSignatures(indexes: seq<IndexSignature>, annotate: bool): (r: Result<seq<Schema>, CompileError>)
    ensures r.Success? ==> |r.value| == |indexes|
    decreases indexes, 0
  {
    if indexes == [] then Success([])
    else
      var head :- CompileIndexSignature(indexes[0], annotate);
      var tail :- CompileIndexSignatures(indexes[1..], annotate);
      Success([head] + tail)
  }

  /** `map(go)` over a list succeeds exactly when every member compiles, and then keeps each member's schema in place. */
  lemma {:induction false} CompileAllSpec(types: seq<Ast>, annotate: bool)
    ensures CompileAll(types, annotate).Success? <==> forall i :: 0 <= i < |types| ==> Compile(types[i], annotate).Success?
    ensures CompileAll(types, annotate).Success? ==>
      forall i :: 0 <= i < |types| ==> CompileAll(types, annotate).value[i] == Compile(types[i], annotate).value
  {
    if types != [] {
      CompileAllSpec(types[1..], annotate);
      assert forall i :: 1 <= i < |types| ==> types[i] == types[1..][i - 1];
    }
  }

  /** As `CompileAllSpec`, for the element types of a tuple. */
  lemma {:induction false} CompileElementsSpec(elements: seq<Element>, annotate: bool)
    ensures CompileElements(elements, annotate).Success? <==>
      forall i :: 0 <= i < |elements| ==> Compile(elements[i].typeAst, annotate).Success?
    ensures CompileElements(elements, annotate).Success? ==>
      forall i :: 0 <= i < |elements| ==> CompileElements(elements, annotate).value[i] == Compile(elements[i].typeAst, annotate).value
  {
    if elements != [] {
      CompileElementsSpec(elements[1..], annotate);
      assert forall i :: 1 <= i < |elements| ==> elements[i] == elements[1..][i - 1];
    }
  }

  /** As `CompileAllSpec`, for the property types of a type literal. */
  lemma {:induction false} CompilePropertiesSpec(props: seq<PropertySignature>, annotate: bool)
    ensures CompileProperties(props, annotate).Success? <==>
      forall i :: 0 <= i < |props| ==> Compile(props[i].typeAst, annotate).Success?
    ensures CompileProperties(props, annotate).Success? ==>
      forall i :: 0 <= i < |props| ==> CompileProperties(props, annotate).value[i] == Compile(props[i].typeAst, annotate).value
  {
    if props != [] {
      CompilePropertiesSpec(props[1..], annotate);
      assert forall i :: 1 <= i < |props| ==> props[i] == props[1..][i - 1];
    }
  }

  /** As `CompileAllSpec`, for the value types of index signatures. */
  lemma {:induction false} CompileIndexSignaturesSpec(indexes: seq<IndexSignature>, annotate: bool)
    ensures CompileIndexSignatures(indexes, annotate).Success? <==>
      forall i :: 0 <= i < |indexes| ==> Compile(indexes[i].typeAst, annotate).Success?
    ensures CompileIndexSignatures(indexes, annotate).Success? ==>
      forall i :: 0 <= i < |indexes| ==> CompileIndexSignatures(indexes, annotate).value[i] == Compile(indexes[i].typeAst, annotate).value
  {
    if indexes != [] {
      CompileIndexSignaturesSpec(indexes[1..], annotate);
      assert forall i :: 1 <= i < |indexes| ==> indexes[i] == indexes[1..][i - 1];
    }
  }

  // ---------------------------------------------------------------------------
  // What each case of `go` produces
  // ---------------------------------------------------------------------------

  /**
   * The `TypeLiteral` guard compares the number of index signatures with the
   * number of those whose parameter is `string`; a filter never yields more
   * than it was given, so the guard never throws.
   */
  lemma {:induction false} IndexGuardNeverFires(indexSignatures: seq<IndexSignature>)
    ensures CountStringParameters(indexSignatures) <= |indexSignatures|
  {
    if indexSignatures != [] {
      IndexGuardNeverFires(indexSignatures[1..]);
    }
  }

  /**
   * Unique symbols, `undefined`, `void`, `never`, `bigint` and `symbol` are
   * rejected, each with its own message.
   */
  lemma RejectsUnrepresentable(ast: Ast, annotate: bool)
    requires ast.UniqueSymbol? || ast.UndefinedKeyword? || ast.VoidKeyword? || ast.NeverKeyword?
      || ast.BigIntKeyword? || ast.SymbolKeyword?
    ensures var r := Compile(ast, annotate);
      && r.Failure?
      && (ast.UniqueSymbol? ==> Message(r.error) == "cannot convert a unique symbol to JSON Schema")
      && (ast.UndefinedKeyword? ==> Message(r.error) == "cannot convert `undefined` to JSON Schema")
      && (ast.VoidKeyword? ==> Message(r.error) == "cannot convert `void` to JSON Schema")
      && (ast.NeverKeyword? ==> Message(r.error) == "cannot convert `never` to JSON Schema")
      && (ast.BigIntKeyword? ==> Message(r.error) == "cannot convert `bigint` to JSON Schema")
      && (ast.SymbolKeyword? ==> Message(r.error) == "cannot convert `symbol` to JSON Schema")
  {
    match ast
    case UniqueSymbol(_) => assert Compile(ast, annotate) == Failure(UniqueSymbolUnsupported);
    case UndefinedKeyword(_) => assert Compile(ast, annotate) == Failure(UndefinedUnsupported);
    case VoidKeyword(_) => assert Compile(ast, annotate) == Failure(VoidUnsupported);
    case NeverKeyword(_) => assert Compile(ast, annotate) == Failure(NeverUnsupported);
    case BigIntKeyword(_) => assert Compile(ast, annotate) == Failure(BigIntUnsupported);
    case SymbolKeyword(_) => assert Compile(ast, annotate) == Failure(SymbolUnsupported);
  }

  /** Template literals, lazy and transform nodes reach the end of `go`: `unhandled <tag>`. */
  lemma RejectsUnhandled(ast: Ast, annotate: bool)
    requires ast.TemplateLiteral? || ast.Lazy? || ast.Transform?
    ensures Compile(ast, annotate).Failure? && Message(Compile(ast, annotate).error) == "unhandled " + Tag(ast)
  {
  }

  /**
   * `string`, `number` and `boolean` give the node's annotations plus the
   * matching `type`, which is written after the annotations and so replaces
   * an annotated `type`; `unknown`, `any` and `object` give the annotations
   * alone, an unconstrained schema.
   */
  lemma KeywordCompile(ast: Ast, annotate: bool)
    requires ast.StringKeyword? || ast.NumberKeyword? || ast.BooleanKeyword?
      || ast.UnknownKeyword? || ast.AnyKeyword? || ast.ObjectKeyword?
    ensures var r := Compile(ast, annotate); var a := NodeAnnotations(ast.meta, annotate);
      && r.Success?
      && (ast.UnknownKeyword? || ast.AnyKeyword? || ast.ObjectKeyword? ==> r.value == a)
      && (ast.StringKeyword? || ast.NumberKeyword? || ast.BooleanKeyword? ==>
        && r.value.Keys == a.Keys + {"type"}
        && (forall key :: key in a && key != "type" ==> r.value[key] == a[key])
        && r.value["type"] == Str(if ast.StringKeyword? then "string" else if ast.NumberKeyword? then "number" else "boolean"))
  {
  }

  /**
   * A `bigint` literal gives the empty schema and `null` gives `{ type: 'null' }`,
   * both without the node's annotations; any other literal gives the
   * annotations plus `const` holding its value, replacing an annotated one.
   */
  lemma LiteralCompile(literal: LiteralValue, meta: Metadata, annotate: bool)
    ensures var r := Compile(Literal(literal, meta), annotate); var a := NodeAnnotations(meta, annotate);
      && r.Success?
      && (literal.BigIntLiteral? ==> r.value == map[])
      && (literal.NullLiteral? ==> r.value == map["type" := Str("null")])
      && (!literal.BigIntLiteral? && !literal.NullLiteral? ==>
        && r.value.Keys == a.Keys + {"const"}
        && (forall key :: key in a && key != "const" ==> r.value[key] == a[key])
        && r.value["const"] == LiteralToValue(literal))
  {
  }

  /**
   * A tuple compiles exactly when every element type and every rest member
   * compiles and no required element meets a bigint or symbol bound among the
   * node's annotations; such a bound throws the `TypeError` of `+ 1`, the
   * one of `minItems` first.
   */
  lemma TupleCompiles(elements: seq<Element>, rest: seq<Ast>, meta: Metadata, annotate: bool)
    ensures var a := NodeAnnotations(meta, annotate);
      var lo, hi := InitialBound(a, "minItems"), InitialBound(a, "maxItems");
      var childrenCompile :=
        && (forall i :: 0 <= i < |elements| ==> Compile(elements[i].typeAst, annotate).Success?)
        && (forall i :: 0 <= i < |rest| ==> Compile(rest[i], annotate).Success?);
      var boundThrows := RequiredCount(elements) > 0 && (Unaddable(lo) || Unaddable(hi));
      var r := Compile(Tuple(elements, rest, meta), annotate);
      && (r.Success? <==> childrenCompile && !boundThrows)
      && (childrenCompile && boundThrows ==> r == Failure(if Unaddable(lo) then Plus1(lo).error else Plus1(hi).error))
  {
    CompileElementsSpec(elements, annotate);
    CompileAllSpec(rest, annotate);
    var compiled, compiledRest := CompileElements(elements, annotate), CompileAll(rest, annotate);
    if compiled.Success? && compiledRest.Success? {
      TupleSchemaFailure(NodeAnnotations(meta, annotate), elements, compiled.value, compiledRest.value);
    }
  }

  /**
   * A compiled tuple is an array schema over the node's annotations. With
   * fixed elements, `minItems` is the annotated bound (0 when undefined) plus
   * the number of required elements, and `items` the annotated array with
   * every element's schema pushed (a fresh array when undefined); `maxItems`
   * counts the same way unless there is a rest element, which deletes it and
   * goes to `additionalItems`. Without fixed elements the bounds are the
   * annotations' own, and a rest element goes to `items` when none is
   * annotated and to `additionalItems` otherwise.
   */
  lemma TupleCompile(elements: seq<Element>, rest: seq<Ast>, meta: Metadata, annotate: bool)
    requires Compile(Tuple(elements, rest, meta), annotate).Success?
    ensures CompileElements(elements, annotate).Success? && CompileAll(rest, annotate).Success?
    ensures var s := Compile(Tuple(elements, rest, meta), annotate).value; var a := NodeAnnotations(meta, annotate);
      var count := RequiredCount(elements); var compiled := CompileElements(elements, annotate).value;
      var lo, hi := InitialBound(a, "minItems"), InitialBound(a, "maxItems");
      && "type" in s && s["type"] == Str("array")
      && (forall key :: key in a && key !in TupleKeys ==> key in s && s[key] == a[key])
      && (forall key :: key in a && key != "maxItems" ==> key in s)
      && (forall key :: key in s ==> key in a || key in TupleKeys)
      && (rest != [] ==> Compile(rest[0], annotate).Success?)
      && (elements != [] ==>
        && AddRequired(lo, count).Success? && AddRequired(hi, count).Success?
        && "minItems" in s && s["minItems"] == AddRequired(lo, count).value
        && "items" in s && s["items"] == Items(a, compiled)
        && (rest == [] ==>
              && "maxItems" in s && s["maxItems"] == AddRequired(hi, count).value
              && ("additionalItems" in s <==> "additionalItems" in a))
        && (rest != [] ==>
              "maxItems" !in s && "additionalItems" in s && s["additionalItems"] == Obj(Compile(rest[0], annotate).value)))
      && (elements == [] ==>
        && (rest == [] ==> s == ArrayBase(a))
        && (rest != [] && IsUndefined(a, "items") ==> s == ArrayBase(a)["items" := Obj(Compile(rest[0], annotate).value)])
        && (rest != [] && !IsUndefined(a, "items") ==>
              s == (ArrayBase(a) - {"maxItems"})["additionalItems" := Obj(Compile(rest[0], annotate).value)]))
  {
    TupleSchemaOf(elements, rest, meta, annotate);
    var a := NodeAnnotations(meta, annotate);
    var compiled := CompileElements(elements, annotate).value;
    var compiledRest := CompileAll(rest, annotate).value;
    TupleSchemaBase(a, elements, compiled, compiledRest);
    TupleSchemaFailure(a, elements, compiled, compiledRest);
    if elements != [] {
      TupleSchemaElements(a, elements, compiled, compiledRest);
    } else {
      TupleSchemaRestOnly(a, compiled, compiledRest);
    }
    CompileAllSpec(rest, annotate);
  }

  /**
   * With no bounds and no `items` among the node's annotations (always the
   * case in the async-api copy), both bounds count the required elements and
   * `items` lists every element's schema in order.
   */
  lemma TupleCompilePlain(elements: seq<Element>, rest: seq<Ast>, meta: Metadata, annotate: bool)
    requires Compile(Tuple(elements, rest, meta), annotate).Success?
    requires var a := NodeAnnotations(meta, annotate); "minItems" !in a && "maxItems" !in a && "items" !in a
    ensures var s := Compile(Tuple(elements, rest, meta), annotate).value;
      && (elements != [] ==>
        && "minItems" in s && s["minItems"] == Int(RequiredCount(elements))
        && "items" in s && s["items"].Arr? && |s["items"].elems| == |elements|
        && (forall i :: 0 <= i < |elements| ==>
              Compile(elements[i].typeAst, annotate).Success? && s["items"].elems[i] == Obj(Compile(elements[i].typeAst, annotate).value))
        && (rest == [] ==> "maxItems" in s && s["maxItems"] == s["minItems"]))
      && (elements == [] ==> "minItems" !in s && "maxItems" !in s)
  {
    TupleSchemaOf(elements, rest, meta, annotate);
    var a := NodeAnnotations(meta, annotate);
    var compiled := CompileElements(elements, annotate).value;
    var compiledRest := CompileAll(rest, annotate).value;
    TupleSchemaPlain(a, elements, compiled, compiledRest);
    CompileElementsSpec(elements, annotate);
  }

  /** A compiled tuple is `TupleSchema` of its compiled element types and rest members. */
  lemma TupleSchemaOf(elements: seq<Element>, rest: seq<Ast>, meta: Metadata, annotate: bool)
    requires Compile(Tuple(elements, rest, meta), annotate).Success?
    ensures CompileElements(elements, annotate).Success? && CompileAll(rest, annotate).Success?
    ensures Compile(Tuple(elements, rest, meta), annotate) ==
      TupleSchema(NodeAnnotations(meta, annotate), elements, CompileElements(elements, annotate).value,
                  CompileAll(rest, annotate).value)
  {
  }

  /**
   * Rest members after the first are compiled, so they can make the tuple
   * fail, but once everything compiles they leave no trace in the schema.
   */
  lemma TupleRestTailDiscarded(elements: seq<Element>, rest: seq<Ast>, meta: Metadata, annotate: bool)
    requires rest != []
    requires Compile(Tuple(elements, rest, meta), annotate).Success?
    ensures Compile(Tuple(elements, rest[..1], meta), annotate) == Compile(Tuple(elements, rest, meta), annotate)
  {
    CompileAllSpec(rest, annotate);
    CompileAllSpec(rest[..1], annotate);
  }

  /** A compiled type literal is `ObjectSchema` of its compiled property and index signature types. */
  lemma ObjectSchemaOf(props: seq<PropertySignature>, indexes: seq<IndexSignature>, meta: Metadata, annotate: bool)
    ensures var r := Compile(TypeLiteral(props, indexes, meta), annotate);
      var compiledProps := CompileProperties(props, annotate);
      var compiledIndex := CompileIndexSignatures(indexes, annotate);
      && (compiledProps.Failure? ==> r == Failure(compiledProps.error))
      && (compiledProps.Success? && compiledIndex.Failure? ==> r == Failure(compiledIndex.error))
      && (compiledProps.Success? && compiledIndex.Success? ==>
            r == ObjectSchema(NodeAnnotations(meta, annotate), props, compiledProps.value, compiledIndex.value))
  {
    IndexGuardNeverFires(indexes);
  }

  /**
   * A type literal compiles exactly when every property type and every index
   * signature type compiles and every property name is a string; when only
   * the names are at fault, the error names the first symbol key.
   */
  lemma TypeLiteralCompiles(props: seq<PropertySignature>, indexes: seq<IndexSignature>, meta: Metadata, annotate: bool)
    ensures var childrenCompile :=
        && (forall i :: 0 <= i < |props| ==> Compile(props[i].typeAst, annotate).Success?)
        && (forall i :: 0 <= i < |indexes| ==> Compile(indexes[i].typeAst, annotate).Success?);
      var r := Compile(TypeLiteral(props, indexes, meta), annotate);
      && (r.Success? <==> childrenCompile && AllStringKeys(props))
      && (childrenCompile && !AllStringKeys(props) ==> r == Failure(PropertyKeyUnsupported(FirstNonStringKey(props).value)))
  {
    ObjectSchemaOf(props, indexes, meta, annotate);
    CompilePropertiesSpec(props, annotate);
    CompileIndexSignaturesSpec(indexes, annotate);
    if CompileProperties(props, annotate).Success? && CompileIndexSignatures(indexes, annotate).Success? {
      ObjectSchemaShape(NodeAnnotations(meta, annotate), props, CompileProperties(props, annotate).value,
                        CompileIndexSignatures(indexes, annotate).value);
    }
  }

  /** A compiled type literal is `ObjectSchema` of its compiled children, all of whose names are strings. */
  lemma TypeLiteralSchemaOf(props: seq<PropertySignature>, indexes: seq<IndexSignature>, meta: Metadata, annotate: bool)
    requires Compile(TypeLiteral(props, indexes, meta), annotate).Success?
    ensures AllStringKeys(props)
    ensures CompileProperties(props, annotate).Success? && CompileIndexSignatures(indexes, annotate).Success?
    ensures Compile(TypeLiteral(props, indexes, meta), annotate) ==
      ObjectSchema(NodeAnnotations(meta, annotate), props, CompileProperties(props, annotate).value,
                   CompileIndexSignatures(indexes, annotate).value)
  {
    ObjectSchemaOf(props, indexes, meta, annotate);
    ObjectSchemaShape(NodeAnnotations(meta, annotate), props, CompileProperties(props, annotate).value,
                      CompileIndexSignatures(indexes, annotate).value);
  }

  /**
   * A compiled type literal is the node's annotations plus, replacing any
   * annotated ones, `type: 'object'`, `required` (the non-optional names in
   * order), `properties` and
   * `additionalProperties`: `false` exactly when there is no index signature,
   * else `{ allOf }` of the index signature schemas in order.
   */
  lemma TypeLiteralCompile(props: seq<PropertySignature>, indexes: seq<IndexSignature>, meta: Metadata, annotate: bool)
    requires Compile(TypeLiteral(props, indexes, meta), annotate).Success?
    ensures var s := Compile(TypeLiteral(props, indexes, meta), annotate).value; var a := NodeAnnotations(meta, annotate);
      && AllStringKeys(props)
      && s.Keys == a.Keys + ObjectKeys
      && (forall key :: key in a && key !in ObjectKeys ==> s[key] == a[key])
      && s["type"] == Str("object")
      && s["required"] == Arr(Strings(RequiredNames(props)))
      && (s["additionalProperties"] == Bool(false) <==> indexes == [])
      && (indexes != [] ==>
            && s["additionalProperties"].Obj? && s["additionalProperties"].fields.Keys == {"allOf"}
            && var allOf := s["additionalProperties"].fields["allOf"];
            && allOf.Arr? && |allOf.elems| == |indexes|
            && (forall i :: 0 <= i < |indexes| ==>
                  Compile(indexes[i].typeAst, annotate).Success? && allOf.elems[i] == Obj(Compile(indexes[i].typeAst, annotate).value)))
  {
    TypeLiteralSchemaOf(props, indexes, meta, annotate);
    var compiledProps := CompileProperties(props, annotate).value;
    var compiledIndex := CompileIndexSignatures(indexes, annotate).value;
    ObjectSchemaShape(NodeAnnotations(meta, annotate), props, compiledProps, compiledIndex);
    CompileIndexSignaturesSpec(indexes, annotate);
  }

  /**
   * The `properties` of a compiled type literal have a key for each property
   * name other than `__proto__`, holding the schema of the last property
   * with that name.
   */
  lemma TypeLiteralProperties(props: seq<PropertySignature>, indexes: seq<IndexSignature>, meta: Metadata, annotate: bool)
    requires Compile(TypeLiteral(props, indexes, meta), annotate).Success?
    ensures var s := Compile(TypeLiteral(props, indexes, meta), annotate).value;
      && AllStringKeys(props)
      && "properties" in s && s["properties"].Obj?
      && (forall name :: name in s["properties"].fields <==>
            name != "__proto__" && exists j :: 0 <= j < |props| && props[j].name == StringKey(name))
      && (forall j ::
            (0 <= j < |props| && props[j].name.name != "__proto__"
             && (forall j' :: j < j' < |props| ==> props[j'].name != props[j].name)) ==>
            Compile(props[j].typeAst, annotate).Success?
            && s["properties"].fields[props[j].name.name] == Obj(Compile(props[j].typeAst, annotate).value))
  {
    TypeLiteralSchemaOf(props, indexes, meta, annotate);
    var compiledProps := CompileProperties(props, annotate).value;
    var compiledIndex := CompileIndexSignatures(indexes, annotate).value;
    var s := Compile(TypeLiteral(props, indexes, meta), annotate).value;
    assert s["properties"] == Obj(Properties(props, compiledProps)) by {
      ObjectSchemaShape(NodeAnnotations(meta, annotate), props, compiledProps, compiledIndex);
    }
    CompilePropertiesSpec(props, annotate);
    PropertiesKeys(props, compiledProps);
    PropertiesLookup(props, compiledProps);
  }

  /**
   * A union compiles exactly when every member does, to the node's annotations
   * plus `anyOf` (replacing an annotated one) listing the members' schemas in
   * order.
   */
  lemma UnionCompile(types: seq<Ast>, meta: Metadata, annotate: bool)
    ensures var r := Compile(Union(types, meta), annotate); var a := NodeAnnotations(meta, annotate);
      && (r.Success? <==> forall i :: 0 <= i < |types| ==> Compile(types[i], annotate).Success?)
      && (r.Success? ==>
            && r.value.Keys == a.Keys + {"anyOf"}
            && (forall key :: key in a && key != "anyOf" ==> r.value[key] == a[key])
            && r.value["anyOf"].Arr? && |r.value["anyOf"].elems| == |types|
            && (forall i :: 0 <= i < |types| ==>
                  Compile(types[i], annotate).Success? && r.value["anyOf"].elems[i] == Obj(Compile(types[i], annotate).value)))
  {
    CompileAllSpec(types, annotate);
  }

  /**
   * An enum gives the node's annotations plus `anyOf` (replacing an
   * annotated one) with one `{ const }` per member, in order, holding the
   * member's value; the member names are dropped.
   */
  lemma EnumsCompile(enums: seq<EnumMember>, meta: Metadata, annotate: bool)
    ensures var r := Compile(Enums(enums, meta), annotate); var a := NodeAnnotations(meta, annotate);
      && r.Success?
      && r.value.Keys == a.Keys + {"anyOf"}
      && (forall key :: key in a && key != "anyOf" ==> r.value[key] == a[key])
      && r.value["anyOf"].Arr? && |r.value["anyOf"].elems| == |enums|
      && (forall i :: 0 <= i < |enums| ==> r.value["anyOf"].elems[i] == Obj(map["const" := EnumToValue(enums[i].value)]))
  {
  }

  /**
   * A declaration or refinement compiles exactly when the type it wraps does.
   * Without a JSON Schema override it is that type's schema unchanged (its
   * title, description and examples are not consulted); with one, the
   * override is spread over it and wins on every key it has.
   */
  lemma WrapperCompile(ast: Ast, annotate: bool)
    requires ast.Declaration? || ast.Refinement?
    ensures var child := Compile(if ast.Declaration? then ast.typeAst else ast.from, annotate);
      var r := Compile(ast, annotate);
      && (child.Failure? ==> r == child)
      && (child.Success? && ast.meta.jsonSchema.None? ==> r == child)
      && (child.Success? && ast.meta.jsonSchema.Some? ==>
            var o := ast.meta.jsonSchema.value;
            && r.Success?
            && r.value.Keys == child.value.Keys + o.Keys
            && (forall key :: key in o ==> r.value[key] == o[key])
            && (forall key :: key in child.value && key !in o ==> r.value[key] == child.value[key]))
  {
  }

  /**
   * The keys of the JSON Schema overrides spread at the top of a node's
   * schema: those of the declarations and refinements wrapping it, and the
   * node's own unless it is a `null` or `bigint` literal.
   */
  function TopOverrideKeys(ast: Ast): set<string> {
    match ast
    case Declaration(typeAst, meta) => TopOverrideKeys(typeAst) + Overrides(meta).Keys
    case Refinement(from, meta) => TopOverrideKeys(from) + Overrides(meta).Keys
    case Literal(literal, meta) =>
      if literal.BigIntLiteral? || literal.NullLiteral? then {} else Overrides(meta).Keys
    case _ => Overrides(ast.meta).Keys
  }

  /**
   * The annotation keys at the top of a node's schema: a declaration or
   * refinement adds its override's keys to those of the type it wraps; `null`
   * and `bigint` literals have none; every other node has its own spread
   * annotations. Apart from the three built-in annotations they are override
   * keys, and without annotations they are only the wrappers' override keys.
   */
  function TopAnnotationKeys(ast: Ast, annotate: bool): (keys: set<string>)
    ensures forall key :: key in keys ==> key in {"title", "description", "examples"} || key in TopOverrideKeys(ast)
    ensures !annotate ==> forall key :: key in keys ==> key in TopOverrideKeys(ast)
    ensures !annotate && !ast.Declaration? && !ast.Refinement? ==> keys == {}
  {
    match ast
    case Declaration(typeAst, meta) => TopAnnotationKeys(typeAst, annotate) + Overrides(meta).Keys
    case Refinement(from, meta) => TopAnnotationKeys(from, annotate) + Overrides(meta).Keys
    case Literal(literal, meta) =>
      if literal.BigIntLiteral? || literal.NullLiteral? then {}
      else NodeAnnotationKeys(meta, annotate); NodeAnnotations(meta, annotate).Keys
    case _ => NodeAnnotationKeys(ast.meta, annotate); NodeAnnotations(ast.meta, annotate).Keys
  }

  /** A node's spread annotations are built-in annotations or its override's keys, and none without annotating. */
  lemma NodeAnnotationKeys(meta: Metadata, annotate: bool)
    ensures forall key :: key in NodeAnnotations(meta, annotate) ==>
      key in {"title", "description", "examples"} || key in Overrides(meta)
    ensures !annotate ==> NodeAnnotations(meta, annotate) == map[]
  {
    EffectiveAnnotationsSpec(meta);
  }

  /**
   * Every key of a compiled schema is either a draft-07 keyword the compiler
   * writes or one of the node's top annotation keys, and each of those keys
   * is present, except a `maxItems` that a tuple's rest element deletes.
   */
  lemma {:induction false} OutputKeys(ast: Ast, annotate: bool)
    requires Compile(ast, annotate).Success?
    ensures forall key :: key in Compile(ast, annotate).value ==> key in Keywords || key in TopAnnotationKeys(ast, annotate)
    ensures forall key :: key in TopAnnotationKeys(ast, annotate) && key != "maxItems" ==> key in Compile(ast, annotate).value
  {
    match ast
    case Declaration(typeAst, _) =>
      WrapperCompile(ast, annotate);
      OutputKeys(typeAst, annotate);
    case Refinement(from, _) =>
      WrapperCompile(ast, annotate);
      OutputKeys(from, annotate);
    case Literal(literal, meta) =>
      LiteralCompile(literal, meta, annotate);
    case Tuple(elements, rest, meta) =>
      TupleCompile(elements, rest, meta, annotate);
    case TypeLiteral(props, indexes, meta) =>
      TypeLiteralCompile(props, indexes, meta, annotate);
    case Union(types, meta) =>
      UnionCompile(types, meta, annotate);
    case Enums(enums, meta) =>
      EnumsCompile(enums, meta, annotate);
    case StringKeyword(_) => KeywordCompile(ast, annotate);
    case NumberKeyword(_) => KeywordCompile(ast, annotate);
    case BooleanKeyword(_) => KeywordCompile(ast, annotate);
    case UnknownKeyword(_) => KeywordCompile(ast, annotate);
    case AnyKeyword(_) => KeywordCompile(ast, annotate);
    case ObjectKeyword(_) => KeywordCompile(ast, annotate);
    case TemplateLiteral(_, _) => RejectsUnhandled(ast, annotate);
    case Lazy(_) => RejectsUnhandled(ast, annotate);
    case Transform(_, _, _) => RejectsUnhandled(ast, annotate);
    case _ => RejectsUnrepresentable(ast, annotate);
  }
}
