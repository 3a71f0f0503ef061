/**
 * The JSON Schema compiler of packages/async-api/src/index.ts, which spreads
 * no annotations into its schemas, and the `isAsyncAPIValidationError` guard
 * on what the AsyncAPI validator reports.
 */
module AsyncApi {
  import opened Wrappers
  import opened JsValues
  import opened Annotations
  import opened SchemaAst
  import opened Builders
  import opened Compiler

  /**
   * `jsonSchemaFor(schema)`, on the schema's AST. Apart from what a
   * declaration's or refinement's JSON Schema override spreads in, a compiled
   * schema only has keys the compiler writes.
   */
  function JsonSchemaFor(ast: Ast): (r: Result<Schema, CompileError>)
    ensures r.Success? ==> forall key :: key in r.value ==> key in Keywords || key in TopAnnotationKeys(ast, false)
  {
    var r := Compile(ast, false);
    if r.Success? then OutputKeys(ast, false); r else r
  }

  /**
   * The keywords: `string`, `number` and `boolean` give a bare `type`;
   * `unknown`, `any` and `object` give the empty schema. Titles, descriptions
   * and examples on the node are ignored.
   */
  lemma KeywordSchemas(ast: Ast)
    requires ast.StringKeyword? || ast.NumberKeyword? || ast.BooleanKeyword?
      || ast.UnknownKeyword? || ast.AnyKeyword? || ast.ObjectKeyword?
    ensures var r := JsonSchemaFor(ast);
      && (ast.StringKeyword? ==> r == Success(map["type" := Str("string")]))
      && (ast.NumberKeyword? ==> r == Success(map["type" := Str("number")]))
      && (ast.BooleanKeyword? ==> r == Success(map["type" := Str("boolean")]))
      && (ast.UnknownKeyword? || ast.AnyKeyword? || ast.ObjectKeyword? ==> r == Success(map[]))
  {
  }

  /** A literal gives `{ const }`, `null` gives `{ type: 'null' }`, a `bigint` the empty schema. */
  lemma LiteralSchema(literal: LiteralValue, meta: Metadata)
    ensures var r := JsonSchemaFor(Literal(literal, meta));
      && (literal.BigIntLiteral? ==> r == Success(map[]))
      && (literal.NullLiteral? ==> r == Success(map["type" := Str("null")]))
      && (!literal.BigIntLiteral? && !literal.NullLiteral? ==> r == Success(map["const" := LiteralToValue(literal)]))
  {
  }

  /** An enum gives exactly `{ anyOf }`, one `{ const }` per member, in order. */
  lemma EnumsSchema(enums: seq<EnumMember>, meta: Metadata)
    ensures var r := JsonSchemaFor(Enums(enums, meta));
      && r.Success?
      && r.value.Keys == {"anyOf"}
      && r.value["anyOf"] == Arr(seq(|enums|, i requires 0 <= i < |enums| => Obj(map["const" := EnumToValue(enums[i].value)])))
  {
    EnumsCompile(enums, meta, false);
  }

  /** A union that compiles gives exactly `{ anyOf }` listing its members' schemas. */
  lemma UnionSchema(types: seq<Ast>, meta: Metadata)
    requires JsonSchemaFor(Union(types, meta)).Success?
    ensures var s := JsonSchemaFor(Union(types, meta)).value;
      && s.Keys == {"anyOf"}
      && s["anyOf"].Arr? && |s["anyOf"].elems| == |types|
      && forall i :: 0 <= i < |types| ==>
           Compile(types[i], false).Success? && s["anyOf"].elems[i] == Obj(Compile(types[i], false).value)
  {
    UnionCompile(types, meta, false);
  }

  /**
   * A compiled tuple has only array keywords: `type` always, the bounds and
   * `items` with fixed elements, `additionalItems` or `items` for a rest
   * element.
   */
  lemma TupleSchemaKeys(elements: seq<Element>, rest: seq<Ast>, meta: Metadata)
    requires JsonSchemaFor(Tuple(elements, rest, meta)).Success?
    ensures var s := JsonSchemaFor(Tuple(elements, rest, meta)).value;
      && s["type"] == Str("array")
      && s.Keys <= {"type", "minItems", "maxItems", "items", "additionalItems"}
  {
    TupleCompile(elements, rest, meta, false);
  }

  /** A compiled type literal has exactly the four object keywords. */
  lemma TypeLiteralSchemaKeys(props: seq<PropertySignature>, indexes: seq<IndexSignature>, meta: Metadata)
    requires JsonSchemaFor(TypeLiteral(props, indexes, meta)).Success?
    ensures var s := JsonSchemaFor(TypeLiteral(props, indexes, meta)).value;
      && s.Keys == {"type", "required", "properties", "additionalProperties"}
      && s["type"] == Str("object")
      && s["required"] == Arr(Strings(RequiredNames(props)))
  {
    TypeLiteralCompile(props, indexes, meta, false);
  }

  /**
   * An AST none of whose compiled nodes resolves any annotation: declarations
   * and refinements may carry anything, since both copies read only their
   * override, and the key type of an index signature is never compiled.
   */
  predicate Unannotated(ast: Ast)
    decreases ast, 1
  {
    match ast
    case Declaration(typeAst, _) => Unannotated(typeAst)
    case Refinement(from, _) => Unannotated(from)
    case Tuple(elements, rest, meta) =>
      && EffectiveAnnotations(meta) == map[]
      && UnannotatedElements(elements)
      && UnannotatedAll(rest)
    case TypeLiteral(props, indexes, meta) =>
      && EffectiveAnnotations(meta) == map[]
      && UnannotatedProperties(props)
      && UnannotatedIndexSignatures(indexes)
    case Union(types, meta) =>
      EffectiveAnnotations(meta) == map[] && UnannotatedAll(types)
    case _ => EffectiveAnnotations(ast.meta) == map[]
  }

  predicate UnannotatedAll(types: seq<Ast>)
    decreases types, 0
  {
    types != [] ==> Unannotated(types[0]) && UnannotatedAll(types[1..])
  }

  predicate UnannotatedElement(e: Element)
    decreases e, 2
  {
    Unannotated(e.typeAst)
  }

  predicate UnannotatedElements(elements: seq<Element>)
    decreases elements, 0
  {
    elements != [] ==> UnannotatedElement(elements[0]) && UnannotatedElements(elements[1..])
  }

  predicate UnannotatedProperty(ps: PropertySignature)
    decreases ps, 2
  {
    Unannotated(ps.typeAst)
  }

  predicate UnannotatedProperties(props: seq<PropertySignature>)
    decreases props, 0
  {
    props != [] ==> UnannotatedProperty(props[0]) && UnannotatedProperties(props[1..])
  }

  predicate UnannotatedIndexSignature(sig: IndexSignature)
    decreases sig, 2
  {
    Unannotated(sig.typeAst)
  }

  predicate UnannotatedIndexSignatures(indexes: seq<IndexSignature>)
    decreases indexes, 0
  {
    indexes != [] ==> UnannotatedIndexSignature(indexes[0]) && UnannotatedIndexSignatures(indexes[1..])
  }

  /**
   * The two copies of `go` agree on every AST that carries no annotations:
   * the same schema or the same error. They differ in nothing else.
   */
  lemma {:induction false} CopiesAgree(ast: Ast)
    requires Unannotated(ast)
    ensures Compile(ast, false) == Compile(ast, true)
    decreases ast, 1
  {
    match ast
    case Declaration(typeAst, _) => CopiesAgree(typeAst);
    case Refinement(from, _) => CopiesAgree(from);
    case Tuple(elements, rest, _) =>
      ElementsAgree(elements);
      AllAgree(rest);
    case TypeLiteral(props, indexes, _) =>
      PropertiesAgree(props);
      IndexSignaturesAgree(indexes);
    case Union(types, _) => AllAgree(types);
    case _ =>
  }

  lemma {:induction false} AllAgree(types: seq<Ast>)
    requires UnannotatedAll(types)
    ensures CompileAll(types, false) == CompileAll(types, true)
    decreases types, 0
  {
    if types != [] {
      CopiesAgree(types[0]);
      AllAgree(types[1..]);
    }
  }

  lemma {:induction false} ElementAgrees(e: Element)
    requires UnannotatedElement(e)
    ensures CompileElement(e, false) == CompileElement(e, true)
    decreases e, 2
  {
    CopiesAgree(e.typeAst);
  }

  lemma {:induction false} ElementsAgree(elements: seq<Element>)
    requires UnannotatedElements(elements)
    ensures CompileElements(elements, false) == CompileElements(elements, true)
    decreases elements, 0
  {
    if elements != [] {
      ElementAgrees(elements[0]);
      ElementsAgree(elements[1..]);
    }
  }

  lemma {:induction false} PropertyAgrees(ps: PropertySignature)
    requires UnannotatedProperty(ps)
    ensures CompileProperty(ps, false) == CompileProperty(ps, true)
    decreases ps, 2
  {
    CopiesAgree(ps.typeAst);
  }

  lemma {:induction false} PropertiesAgree(props: seq<PropertySignature>)
    requires UnannotatedProperties(props)
    ensures CompileProperties(props, false) == CompileProperties(props, true)
    decreases props, 0
  {
    if props != [] {
      PropertyAgrees(props[0]);
      PropertiesAgree(props[1..]);
    }
  }

  lemma {:induction false} IndexSignatureAgrees(sig: IndexSignature)
    requires UnannotatedIndexSignature(sig)
    ensures CompileIndexSignature(sig, false) == CompileIndexSignature(sig, true)
    decreases sig, 2
  {
    CopiesAgree(sig.typeAst);
  }

  lemma {:induction false} IndexSignaturesAgree(indexes: seq<IndexSignature>)
    requires UnannotatedIndexSignatures(indexes)
    ensures CompileIndexSignatures(indexes, false) == CompileIndexSignatures(indexes, true)
    decreases indexes, 0
  {
    if indexes != [] {
      IndexSignatureAgrees(indexes[0]);
      IndexSignaturesAgree(indexes[1..]);
    }
  }

  /** The `TypeError` that reading a property of `null` or `undefined` throws. */
  datatype TypeError = CannotReadProperty(name: string, of: Value)

  /**
   * `u.name` for a property `name` no array, function or primitive wrapper
   * has of its own or inherits: a record's own field, `undefined` on any other
   * value, and a `TypeError` on `null` and `undefined`.
   */
  function GetProperty(u: Value, name: string): (r: Result<Value, TypeError>)
    ensures r.Failure? <==> u.Null? || u.Undefined?
    ensures r.Success? && r.value != Undefined ==> u.Obj? && name in u.fields && r.value == u.fields[name]
  {
    if u.Null? || u.Undefined? then Failure(CannotReadProperty(name, u))
    else if u.Obj? && name in u.fields then Success(u.fields[name])
    else Success(Undefined)
  }

  /**
   * `isAsyncAPIValidationError`: a non-empty array whose first element has a
   * string `code`. The `&&` chain stops at the first false test, so only a
   * non-empty array whose first element is `null` or `undefined` throws.
   */
  function IsAsyncApiValidationError(x: Value): (r: Result<bool, TypeError>)
    ensures r.Failure? <==> x.Arr? && |x.elems| > 0 && (x.elems[0].Null? || x.elems[0].Undefined?)
    ensures r == Success(true) <==>
      x.Arr? && |x.elems| > 0 && x.elems[0].Obj? && "code" in x.elems[0].fields && x.elems[0].fields["code"].Str?
  {
    if !x.Arr? || |x.elems| == 0 then Success(false)
    else
      var code :- GetProperty(x.elems[0], "code");
      Success(code.Str?)
  }
}
