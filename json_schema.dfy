/**
 * `jsonSchemaFor` of packages/json-schema/src/index.ts: the compiler that
 * spreads each node's resolved annotations into its schema.
 */
module JsonSchema {
  import opened Wrappers
  import opened JsValues
  import opened Annotations
  import opened SchemaAst
  import opened Builders
  import opened Compiler

  /**
   * `jsonSchemaFor(schema)`, on the schema's AST. A compiled schema only
   * has keys the compiler writes, the built-in annotations and the keys of
   * the overrides spread at its top.
   */
  function JsonSchemaFor(ast: Ast): (r: Result<Schema, CompileError>)
    ensures r.Success? ==> forall key :: key in r.value ==>
      key in Keywords || key in {"title", "description", "examples"} || key in TopOverrideKeys(ast)
  {
    var r := Compile(ast, true);
    if r.Success? then OutputKeys(ast, true); r else r
  }

  /** The `null` and `bigint` literals, whose schemas drop the node's annotations. */
  predicate DropsAnnotations(ast: Ast) {
    ast.Literal? && (ast.literal.NullLiteral? || ast.literal.BigIntLiteral?)
  }

  /** The keys a case of `go` writes after spreading the node's annotations. */
  function WrittenKeys(ast: Ast): set<string> {
    match ast
    case Literal(_, _) => {"const"}
    case StringKeyword(_) => {"type"}
    case NumberKeyword(_) => {"type"}
    case BooleanKeyword(_) => {"type"}
    case Tuple(_, _, _) => TupleKeys
    case TypeLiteral(_, _, _) => ObjectKeys
    case Union(_, _) => {"anyOf"}
    case Enums(_, _) => {"anyOf"}
    case _ => {}
  }

  /**
   * Every node except a declaration, a refinement, and a `null` or `bigint`
   * literal carries its resolved annotations in its schema, unchanged on
   * every key its case does not write itself.
   */
  lemma AnnotationsReachSchema(ast: Ast)
    requires JsonSchemaFor(ast).Success?
    requires !ast.Declaration? && !ast.Refinement? && !DropsAnnotations(ast)
    ensures var s := JsonSchemaFor(ast).value; var a := EffectiveAnnotations(ast.meta);
      forall key :: key in a && key !in WrittenKeys(ast) ==> key in s && s[key] == a[key]
  {
    match ast
    case Literal(literal, meta) => LiteralCompile(literal, meta, true);
    case Tuple(elements, rest, meta) => TupleCompile(elements, rest, meta, true);
    case TypeLiteral(props, indexes, meta) => TypeLiteralCompile(props, indexes, meta, true);
    case Union(types, meta) => UnionCompile(types, meta, true);
    case Enums(enums, meta) => EnumsCompile(enums, meta, true);
    case StringKeyword(_) => KeywordCompile(ast, true);
    case NumberKeyword(_) => KeywordCompile(ast, true);
    case BooleanKeyword(_) => KeywordCompile(ast, true);
    case UnknownKeyword(_) => KeywordCompile(ast, true);
    case AnyKeyword(_) => KeywordCompile(ast, true);
    case ObjectKeyword(_) => KeywordCompile(ast, true);
    case TemplateLiteral(_, _) => RejectsUnhandled(ast, true);
    case Lazy(_) => RejectsUnhandled(ast, true);
    case Transform(_, _, _) => RejectsUnhandled(ast, true);
    case _ => RejectsUnrepresentable(ast, true);
  }

  /**
   * An explicit JSON Schema override on a declaration or refinement wins on
   * every key it has. On any other node it wins over the built-in annotations
   * but only on the keys its case does not write; `null` and `bigint`
   * literals drop it.
   */
  lemma OverridesWin(ast: Ast)
    requires JsonSchemaFor(ast).Success?
    ensures var s := JsonSchemaFor(ast).value; var o := Overrides(ast.meta);
      forall key :: key in o && (ast.Declaration? || ast.Refinement? || (!DropsAnnotations(ast) && key !in WrittenKeys(ast))) ==>
        key in s && s[key] == o[key]
  {
    if ast.Declaration? || ast.Refinement? {
      WrapperCompile(ast, true);
    } else if !DropsAnnotations(ast) {
      AnnotationsReachSchema(ast);
      EffectiveAnnotationsSpec(ast.meta);
    }
  }

  /**
   * The same `type` override is ignored on a `string` keyword, whose case
   * writes `type` after spreading the annotations, and wins on a refinement
   * of it, which spreads the override over the compiled schema.
   */
  lemma OverrideOnKeywordVersusRefinement(t: Value)
    ensures var o := Metadata(None, None, None, Some(map["type" := t]));
      && JsonSchemaFor(StringKeyword(o)) == Success(map["type" := Str("string")])
      && JsonSchemaFor(Refinement(StringKeyword(NoMetadata), o)) == Success(map["type" := t])
  {
    TypeOverrideOnKeyword(t);
    TypeOverrideOnRefinement(t);
  }

  /** A `string` keyword whose only annotation is a `type` override. */
  lemma TypeOverrideOnKeyword(t: Value)
    ensures Compile(StringKeyword(Metadata(None, None, None, Some(map["type" := t]))), true) == Success(map["type" := Str("string")])
  {
    var o := Metadata(None, None, None, Some(map["type" := t]));
    assert EffectiveAnnotations(o) == map["type" := t] by {
      EffectiveAnnotationsSpec(o);
    }
    assert map["type" := t]["type" := Str("string")] == map["type" := Str("string")];
  }

  /** A refinement of a bare `string` keyword carrying a `type` override. */
  lemma TypeOverrideOnRefinement(t: Value)
    ensures Compile(Refinement(StringKeyword(NoMetadata), Metadata(None, None, None, Some(map["type" := t]))), true)
         == Success(map["type" := t])
  {
    var stringSchema := map["type" := Str("string")];
    assert EffectiveAnnotations(NoMetadata) == map[] by {
      EffectiveAnnotationsSpec(NoMetadata);
    }
    assert Compile(StringKeyword(NoMetadata), true) == Success(stringSchema);
    assert stringSchema + map["type" := t] == map["type" := t];
  }

  /**
   * A title, description or examples annotation that is present, not `null`
   * and not overridden reaches the schema of a node that keeps its
   * annotations.
   */
  lemma BuiltInAnnotationsReachSchema(ast: Ast)
    requires JsonSchemaFor(ast).Success?
    requires !ast.Declaration? && !ast.Refinement? && !DropsAnnotations(ast)
    ensures var s := JsonSchemaFor(ast).value; var o := Overrides(ast.meta);
      && (GetOrNull(ast.meta.title) != Null && "title" !in o ==> "title" in s && s["title"] == ast.meta.title.value)
      && (GetOrNull(ast.meta.description) != Null && "description" !in o ==>
            "description" in s && s["description"] == ast.meta.description.value)
      && (GetOrNull(ast.meta.examples) != Null && "examples" !in o ==>
            "examples" in s && s["examples"] == ast.meta.examples.value)
  {
    AnnotationsReachSchema(ast);
    BuiltInsNotWritten(ast);
    EffectiveAnnotationsSpec(ast.meta);
  }

  /** No case of `go` writes a built-in annotation key itself. */
  lemma BuiltInsNotWritten(ast: Ast)
    ensures "title" !in WrittenKeys(ast) && "description" !in WrittenKeys(ast) && "examples" !in WrittenKeys(ast)
  {
  }

  // ---------------------------------------------------------------------------
  // The scenarios of packages/json-schema/test/index.ts
  // ---------------------------------------------------------------------------

  /** `S.struct({ type: S.literal(tag) })`. */
  function TaggedStruct(tag: string): Ast {
    TypeLiteral([PropertySignature(StringKey("type"), Literal(StringLiteral(tag), NoMetadata), false)], [], NoMetadata)
  }

  /** The closed object schema with one required property `type` that must equal `tag`. */
  function TaggedStructSchema(tag: string): Schema {
    map[
      "type" := Str("object"),
      "required" := Arr([Str("type")]),
      "properties" := Obj(map["type" := Obj(map["const" := Str(tag)])]),
      "additionalProperties" := Bool(false)]
  }

  /** `S.union(S.struct({ type: S.literal(tagA) }), S.struct({ type: S.literal(tagB) }))` carrying `meta`. */
  function TaggedUnion(tagA: string, tagB: string, meta: Metadata): Ast {
    Union([TaggedStruct(tagA), TaggedStruct(tagB)], meta)
  }

  /** Both compilers turn a tagged struct into the same closed object schema. */
  lemma TaggedStructCompile(tag: string, annotate: bool)
    ensures Compile(TaggedStruct(tag), annotate) == Success(TaggedStructSchema(tag))
  {
    var literal := Literal(StringLiteral(tag), NoMetadata);
    var props := [PropertySignature(StringKey("type"), literal, false)];
    var literalSchema := map["const" := Str(tag)];
    assert NodeAnnotations(NoMetadata, annotate) == map[] by {
      EffectiveAnnotationsSpec(NoMetadata);
    }
    assert Compile(literal, annotate) == Success(literalSchema) by {
      LiteralCompile(StringLiteral(tag), NoMetadata, annotate);
    }
    assert CompileProperties(props, annotate) == Success([literalSchema]) by {
      assert props[1..] == [];
      assert CompileProperty(props[0], annotate) == Success(literalSchema);
      assert CompileProperties(props[1..], annotate) == Success([]);
      assert [literalSchema] + [] == [literalSchema];
    }
    assert Compile(TaggedStruct(tag), annotate) == ObjectSchema(map[], props, [literalSchema], []) by {
      ObjectSchemaOf(props, [], NoMetadata, annotate);
    }
    TaggedStructObjectSchema(tag);
  }

  /** The object schema of the single required property `type` compiled to `{ const: tag }`. */
  lemma TaggedStructObjectSchema(tag: string)
    ensures var props := [PropertySignature(StringKey("type"), Literal(StringLiteral(tag), NoMetadata), false)];
      ObjectSchema(map[], props, [map["const" := Str(tag)]], []) == Success(TaggedStructSchema(tag))
  {
    var props := [PropertySignature(StringKey("type"), Literal(StringLiteral(tag), NoMetadata), false)];
    var literalSchema := map["const" := Str(tag)];
    assert RequiredNames(props) == ["type"] by {
      assert RequiredNames(props) == RequiredNames(props[..0]) + ["type"];
    }
    assert Properties(props, [literalSchema]) == map["type" := Obj(literalSchema)];
    assert FirstNonStringKey(props) == None;
    assert Strings(["type"]) == [Str("type")];
    assert AdditionalProperties([]) == Bool(false);
    var a: AnnotationRecord := map[];
    assert a + TaggedStructSchema(tag) == TaggedStructSchema(tag);
  }

  /** The union of two tagged structs: `anyOf` their schemas, plus the node's resolved annotations. */
  lemma TaggedUnionCompile(tagA: string, tagB: string, meta: Metadata)
    ensures JsonSchemaFor(TaggedUnion(tagA, tagB, meta)) ==
      Success(EffectiveAnnotations(meta)["anyOf" := Arr([Obj(TaggedStructSchema(tagA)), Obj(TaggedStructSchema(tagB))])])
  {
    var sa, sb := TaggedStructSchema(tagA), TaggedStructSchema(tagB);
    TaggedMembersCompile(tagA, tagB);
    assert Embed([sa, sb]) == [Obj(sa), Obj(sb)];
  }

  /** The members of the union of two tagged structs compile to their two schemas. */
  lemma TaggedMembersCompile(tagA: string, tagB: string)
    ensures CompileAll([TaggedStruct(tagA), TaggedStruct(tagB)], true) ==
      Success([TaggedStructSchema(tagA), TaggedStructSchema(tagB)])
  {
    var types := [TaggedStruct(tagA), TaggedStruct(tagB)];
    TaggedStructCompile(tagA, true);
    TaggedStructCompile(tagB, true);
    CompileAllSpec(types, true);
    assert CompileAll(types, true).value == [TaggedStructSchema(tagA), TaggedStructSchema(tagB)];
  }

  /** Examples with an override: both reach the resolved annotations, nothing else does. */
  lemma ResolveExamplesAndOverride(examples: Value, overrides: AnnotationRecord)
    requires examples != Null && "examples" !in overrides
    ensures EffectiveAnnotations(Metadata(None, None, Some(examples), Some(overrides))) == overrides["examples" := examples]
  {
    EffectiveAnnotationsSpec(Metadata(None, None, Some(examples), Some(overrides)));
  }

  /** Title, description and examples without an override resolve to exactly those three. */
  lemma ResolveBuiltIns(title: Value, description: Value, examples: Value)
    requires examples != Null && title != Null && description != Null
    ensures EffectiveAnnotations(Metadata(Some(title), Some(description), Some(examples), None)) ==
      map["title" := title, "description" := description, "examples" := examples]
  {
    EffectiveAnnotationsSpec(Metadata(Some(title), Some(description), Some(examples), None));
  }

  /**
   * The first scenario of the tests (there with the tags `a` and `b`):
   * examples and an `x-kafka-topic` override on the union of two tagged
   * structs (the Kafka topic
   * annotation itself is not read). The schema is `anyOf`, `examples` and
   * `x-kafka-topic`, nothing else.
   */
  lemma ExampleKafkaTopic(tagA: string, tagB: string, examples: Value, topic: Value)
    requires examples != Null
    ensures var meta := Metadata(None, None, Some(examples), Some(map["x-kafka-topic" := topic]));
      JsonSchemaFor(TaggedUnion(tagA, tagB, meta)) ==
        Success(map["x-kafka-topic" := topic, "examples" := examples,
                    "anyOf" := Arr([Obj(TaggedStructSchema(tagA)), Obj(TaggedStructSchema(tagB))])])
  {
    var meta := Metadata(None, None, Some(examples), Some(map["x-kafka-topic" := topic]));
    ResolveExamplesAndOverride(examples, map["x-kafka-topic" := topic]);
    var anyOf := Arr([Obj(TaggedStructSchema(tagA)), Obj(TaggedStructSchema(tagB))]);
    assert JsonSchemaFor(TaggedUnion(tagA, tagB, meta)) ==
      Success(map["x-kafka-topic" := topic]["examples" := examples]["anyOf" := anyOf]) by {
      TaggedUnionCompile(tagA, tagB, meta);
    }
  }

  /**
   * The last scenario of the tests (there with the tags `a` and `b`):
   * examples, a title and a description on the union of two tagged structs
   * all reach its schema beside `anyOf`.
   */
  lemma ExampleBuiltInAnnotations(tagA: string, tagB: string, examples: Value, title: Value, description: Value)
    requires examples != Null && title != Null && description != Null
    ensures var meta := Metadata(Some(title), Some(description), Some(examples), None);
      JsonSchemaFor(TaggedUnion(tagA, tagB, meta)) ==
        Success(map["title" := title, "description" := description, "examples" := examples,
                    "anyOf" := Arr([Obj(TaggedStructSchema(tagA)), Obj(TaggedStructSchema(tagB))])])
  {
    var meta := Metadata(Some(title), Some(description), Some(examples), None);
    ResolveBuiltIns(title, description, examples);
    var anyOf := Arr([Obj(TaggedStructSchema(tagA)), Obj(TaggedStructSchema(tagB))]);
    assert JsonSchemaFor(TaggedUnion(tagA, tagB, meta)) ==
      Success(map["title" := title, "description" := description, "examples" := examples]["anyOf" := anyOf]) by {
      TaggedUnionCompile(tagA, tagB, meta);
    }
  }
}
