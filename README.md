# JSON Schema compilers of effect-use, in Dafny

This project models the compiler from an `@effect/schema` AST to a JSON Schema
(draft-07) object, which the repository has in two copies:

- `jsonSchemaFor` in packages/json-schema/src/index.ts spreads each node's
  resolved annotations into its schema. The resolver is
  `getEffectiveJSONSchemaAnnotations`: title, description and examples, then
  the explicit override record, which wins.
- `jsonSchemaFor` in packages/async-api/src/index.ts is an older copy. It
  spreads no annotations, except the override on a declaration or a
  refinement.

Apart from the annotations, the two copies are the same case for case. Both
are one function, `Compiler.Compile(ast, annotate)`:
- `JsonSchema.JsonSchemaFor` is `annotate = true`;
- `AsyncApi.JsonSchemaFor` is `annotate = false`;
- `AsyncApi.CopiesAgree` proves the two agree on every AST that carries no
  annotations.

A thrown `Error` is a `Failure` of a `Result`, and it aborts the whole
compilation. JavaScript values are the `JsValues.Value` datatype. An object is
a `map` from its own string keys, and the spread `{ ...a, ...b }` is the
right-biased union `a + b`.

The `Tuple` and `TypeLiteral` cases build their output step by step in `for`
loops. Those loops are the methods `Builders.AddElements`, `Builders.BuildTuple`
and `Builders.BuildObject`. Each is proved equal to a declarative function
(`TupleSchema`, `ObjectSchema`), and `Compile` uses those functions.

The model also covers:
- the `isJson` guard and the `JSONSchemaAnnotationKey` validator;
- `isAsyncAPIValidationError`;
- the scenarios of packages/json-schema/test/index.ts.

Five behaviours of the source are kept as written:
- **The index-signature guard never fires.** It tests `length < filter(...).length`. `Compiler.IndexGuardNeverFires` proves it can never be true.
- **`null` and `bigint` literals drop the node's annotations.**
- **Extra rest members are discarded.** Every rest member of a tuple is compiled, so a failing one fails the tuple, but only the first is used.
- **A structural key beats an override on a plain node, but not on a wrapper.** A case writes its own keys after spreading the annotations, while a declaration or refinement spreads its override last. `JsonSchema.OverrideOnKeywordVersusRefinement` shows both with a `type` override.
- **The property name `__proto__` adds no key to `properties`.** The assignment runs the inherited setter instead.

The override record is untyped in the library, so it may hold any key, a
keyword such as `type` or `minItems` included. The tuple loop starts from an
overridden `minItems`, `maxItems` or `items`, and its `+ 1` follows JavaScript:
a string bound concatenates, and a bigint or symbol bound throws a `TypeError`.

## Model

| member | source | states |
|---|---|---|
| JsValues.IsJson | packages/json-schema/src/index.ts:174-180 | definition of `isJson`: null, a string, a finite number, a boolean, or a JSON array or record |
| JsValues.IsJsonArray | packages/json-schema/src/index.ts:168-169 | definition of `isJsonArray`: an array every element of which is JSON |
| JsValues.IsJsonObject | packages/json-schema/src/index.ts:171-172 | definition of `isJsonObject`: a record whose value under every own key is JSON |
| JsValues.IsJsonSound | packages/json-schema/src/index.ts:168-180 | every JSON value (RFC 8259) passes `isJson` |
| JsValues.IsJsonComplete | packages/json-schema/src/index.ts:168-180 | every value passing `isJson` is the representation of a JSON value, so the guard is exact |
| JsValues.IsJsonCases | packages/json-schema/src/index.ts:174-180 | a value passing `isJson` is null, a string, a boolean, a finite number, or an array or record whose members all pass |
| JsValues.IsJsonScalars | packages/async-api/src/index.ts:105-111 | null, strings and booleans are JSON; a number is JSON iff it is neither NaN nor infinite; undefined, bigint, symbol and functions are not |
| JsValues.IsJsonArrayIff | packages/async-api/src/index.ts:99-100 | an array is JSON iff every element is |
| JsValues.IsJsonRecordIff | packages/async-api/src/index.ts:102-103 | a record is JSON iff every value under its keys is |
| Annotations.IsAnnotationKey | packages/json-schema/src/index.ts:16-24 | definition of `JSONSchemaAnnotationKey`: `title`, `description`, `examples`, `$comment` or a key starting with `x-` |
| Annotations.KeywordsAreNotAnnotationKeys | packages/json-schema/src/index.ts:16-24 | no keyword the compiler writes is a key of the `JSONSchemaAnnotationKey` type |
| Annotations.DropNulls | packages/json-schema/src/index.ts:209 | definition of the `filter` that drops the entries whose value is null |
| Annotations.Collect | packages/json-schema/src/index.ts:210 | definition of the `reduce` that adds each entry to the accumulator |
| Annotations.DropNullsThenCollect | packages/json-schema/src/index.ts:209-210 | filtering nulls and then reducing equals reducing while skipping nulls |
| Annotations.BaseIsIncludes | packages/json-schema/src/index.ts:195-210 | `base` is title, description and examples each included when not null |
| Annotations.EffectiveAnnotations | packages/json-schema/src/index.ts:192-214 | definition of the resolver: `{ ...base, ...overrides }`, specified by `EffectiveAnnotationsSpec` |
| Annotations.EffectiveAnnotationsSpec | packages/json-schema/src/index.ts:192-214 | resolved title/description/examples are present iff overridden or non-null; no other keys but the override's; override values win; otherwise the metadata value |
| Builders.RequiredCountBounds | packages/json-schema/src/index.ts:277-280 | the required count is at most the element count, and equal iff no element is optional |
| Builders.RequiredCountPrefix | packages/json-schema/src/index.ts:267-280 | the elements seen so far have no more required ones than the whole tuple, and a required element makes the count positive |
| Builders.AddRequired | packages/json-schema/src/index.ts:277-280 | after no required element a bound is unchanged; after some, the loop throws iff the bound is a bigint or symbol, with the error of the first `+ 1`, and otherwise ends with a number or string |
| Builders.AddRequiredFromNumber | packages/json-schema/src/index.ts:268-280 | from a numeric bound `k`, `n` required elements give `k + n` |
| Builders.TupleSchema | packages/json-schema/src/index.ts:259-306 | definition of the array schema, specified by the `TupleSchema…` lemmas |
| Builders.TupleSchemaFailure | packages/json-schema/src/index.ts:277-280 | the array schema throws iff a required element meets a bigint or symbol bound, with the `minItems` error first |
| Builders.TupleSchemaBase | packages/json-schema/src/index.ts:262-303 | a compiled array schema has `type: 'array'`, keeps every annotation key the case does not write, loses none but `maxItems`, and adds only the tuple keys |
| Builders.TupleSchemaElements | packages/json-schema/src/index.ts:267-303 | with fixed elements, `minItems` and `maxItems` are the annotated bound (0 when undefined) plus the required count, and `items` the annotated array with every schema pushed; a rest element deletes `maxItems` and becomes `additionalItems` |
| Builders.TupleSchemaRestOnly | packages/json-schema/src/index.ts:291-303 | without fixed elements the schema never throws, and a rest element goes to `items` when none is annotated, else to `additionalItems` with `maxItems` deleted |
| Builders.TupleSchemaPlain | packages/json-schema/src/index.ts:267-303 | with no annotated bounds or `items`, both bounds are the required count and `items` lists every schema in order |
| Builders.CountElement | packages/json-schema/src/index.ts:268-280 | one iteration's bound updates: 0 for an undefined bound, then `+ 1` on both for a required element, throwing as `+ 1` throws |
| Builders.PushElement | packages/json-schema/src/index.ts:281-286 | one iteration's `items` update: an undefined `items` becomes an array, and the schema is pushed only when `items` is an array |
| Builders.StepFailure | packages/json-schema/src/index.ts:277-280 | a `+ 1` that throws in some iteration is the error of the whole element loop |
| Builders.AddElements | packages/json-schema/src/index.ts:267-287 | the element loop leaves the base unchanged on no elements, else yields the bounds and `items` of `WithElements` or its error |
| Builders.BuildTuple | packages/json-schema/src/index.ts:262-305 | the step-by-step tuple construction, throws included, equals `TupleSchema` |
| Builders.FirstNonStringKey | packages/json-schema/src/index.ts:330-342 | none iff every name is a string; otherwise the first non-string name in declaration order |
| Builders.RequiredNames | packages/json-schema/src/index.ts:337-338 | definition of `required`: the names pushed for the non-optional properties, in order |
| Builders.Properties | packages/json-schema/src/index.ts:330-333 | definition of `properties`: each name assigned its compiled type in order |
| Builders.AdditionalProperties | packages/json-schema/src/index.ts:347-349 | definition of `additionalProperties`: false, or `{ allOf }` of the index signature schemas |
| Builders.ObjectSchema | packages/json-schema/src/index.ts:320-351 | definition of the object schema, specified by `ObjectSchemaShape` |
| Builders.BuildObject | packages/json-schema/src/index.ts:320-351 | the step-by-step object construction, including the throw on a non-string name, equals `ObjectSchema` |
| Builders.RequiredNamesMembers | packages/json-schema/src/index.ts:337-338 | a name is required iff some non-optional property has it |
| Builders.RequiredNamesAppend | packages/json-schema/src/index.ts:330-343 | required names follow declaration order: the names of a concatenation are the concatenated names |
| Builders.RequiredNamesAllRequired | packages/json-schema/src/index.ts:337-338 | with no optional property, `required` lists every name in order |
| Builders.PropertiesKeys | packages/json-schema/src/index.ts:332-333 | `properties` has a key exactly for each property name other than `__proto__` |
| Builders.PropertiesLookup | packages/json-schema/src/index.ts:333 | under a name other than `__proto__`, `properties` holds the compiled type of the last property with that name |
| Builders.ObjectSchemaShape | packages/json-schema/src/index.ts:320-351 | fails iff a name is not a string; else the annotations plus, replacing any annotated ones, `type: 'object'`, `required`, `properties`, and `additionalProperties` false iff no index signature, else `allOf` the index types |
| Compiler.Compile | packages/json-schema/src/index.ts:216-375 | definition of `go`, both copies; specified case by case by the lemmas below |
| Compiler.WithOverride | packages/json-schema/src/index.ts:220-227 | definition of `{ ...go(ast.type), ...schema }` when an override is present |
| Compiler.CountStringParameters | packages/json-schema/src/index.ts:310-312 | definition of the count of string-keyed index signatures, bounded by `IndexGuardNeverFires` |
| Compiler.CompileAll | packages/json-schema/src/index.ts:353-354 | mapping `go` over a list keeps its length |
| Compiler.CompileElements | packages/json-schema/src/index.ts:260 | mapping `go` over the element types keeps their number |
| Compiler.CompileProperties | packages/json-schema/src/index.ts:316-318 | mapping `go` over the property types keeps their number |
| Compiler.CompileIndexSignatures | packages/json-schema/src/index.ts:319 | mapping `go` over the index signature types keeps their number |
| Compiler.CompileAllSpec | packages/json-schema/src/index.ts:261 | mapping `go` succeeds iff every member compiles, and then holds each member's schema in place |
| Compiler.CompileElementsSpec | packages/json-schema/src/index.ts:260 | the element types compile iff each does, each schema in place |
| Compiler.CompilePropertiesSpec | packages/json-schema/src/index.ts:316-318 | the property types compile iff each does, each schema in place |
| Compiler.CompileIndexSignaturesSpec | packages/json-schema/src/index.ts:319 | the index signature types compile iff each does, each schema in place |
| Compiler.IndexGuardNeverFires | packages/json-schema/src/index.ts:308-315 | the number of string-keyed index signatures never exceeds the number of index signatures, so the guard never throws |
| Compiler.RejectsUnrepresentable | packages/json-schema/src/index.ts:236-256 | unique symbols, `undefined`, `void`, `never`, `bigint` and `symbol` always fail, each with its own message |
| Compiler.RejectsUnhandled | packages/json-schema/src/index.ts:371 | template literals, lazy and transform nodes fail with `unhandled <tag>` |
| Compiler.KeywordCompile | packages/json-schema/src/index.ts:244-258 | `string`/`number`/`boolean` give the annotations plus the matching `type`, replacing an annotated one; `unknown`/`any`/`object` give exactly the annotations |
| Compiler.LiteralCompile | packages/json-schema/src/index.ts:228-235 | a bigint literal gives `{}`, null gives `{ type: 'null' }`, both without annotations; any other literal gives the annotations plus `const` its value |
| Compiler.TupleCompiles | packages/json-schema/src/index.ts:259-287 | a tuple compiles iff every element type and rest member compiles and no required element meets a bigint or symbol bound; otherwise with that bound's `TypeError` |
| Compiler.TupleSchemaOf | packages/json-schema/src/index.ts:259-306 | a compiled tuple is `TupleSchema` of its annotations and its children's schemas |
| Compiler.TupleCompile | packages/json-schema/src/index.ts:259-306 | the tuple's array schema: kept annotations, bounds counted from the annotated ones, `items` extended, and the rest element in `additionalItems` or `items` |
| Compiler.TupleCompilePlain | packages/json-schema/src/index.ts:259-306 | without annotated bounds or `items`, the bounds count the required elements and `items` holds each element's own schema in order |
| Compiler.TupleRestTailDiscarded | packages/json-schema/src/index.ts:291-303 | when the tuple compiles, dropping every rest member after the first does not change its schema |
| Compiler.ObjectSchemaOf | packages/json-schema/src/index.ts:307-352 | a type literal fails with its first failing property type, then its first failing index type, else it is `ObjectSchema` of its children's schemas |
| Compiler.TypeLiteralCompiles | packages/json-schema/src/index.ts:307-343 | a type literal compiles iff all its children compile and every name is a string; otherwise with the first non-string name's error |
| Compiler.TypeLiteralSchemaOf | packages/json-schema/src/index.ts:316-351 | a compiled type literal has string names only and equals `ObjectSchema` of its children's schemas |
| Compiler.TypeLiteralCompile | packages/json-schema/src/index.ts:320-351 | the annotations plus the four object keys, `required` the non-optional names, `additionalProperties` false iff no index signature, else `allOf` each index type's schema |
| Compiler.TypeLiteralProperties | packages/json-schema/src/index.ts:330-333 | `properties` has exactly the names other than `__proto__`, each holding the schema of the last property with that name |
| Compiler.UnionCompile | packages/json-schema/src/index.ts:353-354 | a union compiles iff every member does, to the annotations plus `anyOf` the members' schemas in order |
| Compiler.EnumsCompile | packages/json-schema/src/index.ts:355-359 | an enum gives the annotations plus `anyOf` one `{ const }` per member, in order |
| Compiler.WrapperCompile | packages/json-schema/src/index.ts:220-227 | a declaration or refinement fails iff its child does; without an override it is the child's schema unchanged, with one the override wins on its keys and the child keeps the rest |
| Compiler.TopOverrideKeys | packages/json-schema/src/index.ts:212-227 | definition of the override keys spread at the top of a schema, by its wrappers and by the node itself |
| Compiler.TopAnnotationKeys | packages/json-schema/src/index.ts:192-227 | the annotation keys at the top of a schema are built-in annotations or top override keys, and only the wrappers' override keys without annotating |
| Compiler.NodeAnnotationKeys | packages/json-schema/src/index.ts:192-218 | a node's spread annotations are built-in annotations or its override's keys, and none in the async-api copy |
| Compiler.OutputKeys | packages/json-schema/src/index.ts:216-375 | every key of a compiled schema is a keyword the compiler writes or a top annotation key, and every one of those is present but a deleted `maxItems` |
| JsonSchema.JsonSchemaFor | packages/json-schema/src/index.ts:216-375 | a compiled schema has only draft-07 keywords, built-in annotations and keys of its top overrides |
| JsonSchema.WrittenKeys | packages/json-schema/src/index.ts:228-359 | definition of the keys each case writes after spreading the annotations |
| JsonSchema.AnnotationsReachSchema | packages/json-schema/src/index.ts:218 | every node but a wrapper and a null or bigint literal carries its resolved annotations unchanged on each key its case does not write |
| JsonSchema.OverridesWin | packages/json-schema/src/index.ts:212-213 | an override on a wrapper wins on every key; on any other node, except null and bigint literals, on every key its case does not write |
| JsonSchema.OverrideOnKeywordVersusRefinement | packages/json-schema/src/index.ts:360-369 | a `type` override is ignored on a `string` keyword and wins on a refinement of it |
| JsonSchema.TypeOverrideOnKeyword | packages/json-schema/src/index.ts:247-248 | a `string` keyword with a `type` override compiles to `{ type: 'string' }` |
| JsonSchema.TypeOverrideOnRefinement | packages/json-schema/src/index.ts:360-369 | a refinement with a `type` override of a bare `string` keyword compiles to the override's `type` |
| JsonSchema.BuiltInAnnotationsReachSchema | packages/json-schema/src/index.ts:192-214 | a present, non-null, non-overridden title, description or examples reaches the schema |
| JsonSchema.TaggedStructCompile | packages/json-schema/test/index.ts:49-63 | `S.struct({ type: S.literal(tag) })` compiles to the closed object schema with the one required property `type` |
| JsonSchema.TaggedUnionCompile | packages/json-schema/test/index.ts:49-66 | the union of two tagged structs is `anyOf` their schemas plus the node's annotations |
| JsonSchema.ResolveExamplesAndOverride | packages/json-schema/test/index.ts:37-39 | examples plus an override resolve to exactly the override and `examples` |
| JsonSchema.ResolveBuiltIns | packages/json-schema/test/index.ts:113-115 | title, description and examples without an override resolve to exactly those three |
| JsonSchema.ExampleKafkaTopic | packages/json-schema/test/index.ts:31-67 | the first test's schema is exactly `anyOf`, `examples` and `x-kafka-topic` |
| JsonSchema.ExampleBuiltInAnnotations | packages/json-schema/test/index.ts:107-139 | the built-in annotations test's schema is exactly `anyOf`, `title`, `description` and `examples` |
| AsyncApi.JsonSchemaFor | packages/async-api/src/index.ts:117-271 | a compiled schema has only keywords the compiler writes, plus the override keys of its top declarations and refinements (`Compiler.TopAnnotationKeys` without annotating) |
| AsyncApi.KeywordSchemas | packages/async-api/src/index.ts:144-158 | `string`/`number`/`boolean` give exactly `{ type }`; `unknown`/`any`/`object` give `{}` |
| AsyncApi.LiteralSchema | packages/async-api/src/index.ts:128-135 | a literal gives exactly `{ const }`, null `{ type: 'null' }`, bigint `{}` |
| AsyncApi.EnumsSchema | packages/async-api/src/index.ts:254-255 | an enum gives exactly `{ anyOf }` with one `{ const }` per member, in order |
| AsyncApi.UnionSchema | packages/async-api/src/index.ts:252-253 | a union gives exactly `{ anyOf }` with the members' schemas in order |
| AsyncApi.TupleSchemaKeys | packages/async-api/src/index.ts:159-206 | a tuple gives `type: 'array'` and no key besides the bounds, `items` and `additionalItems` |
| AsyncApi.TypeLiteralSchemaKeys | packages/async-api/src/index.ts:207-251 | a type literal gives exactly `type: 'object'`, `required` (the non-optional names), `properties` and `additionalProperties` |
| AsyncApi.CopiesAgree | packages/async-api/src/index.ts:117-271 | the two copies of `go` give the same schema or the same error on every AST that carries no annotations |
| AsyncApi.IsAsyncApiValidationError | packages/async-api/src/index.ts:21-22 | true iff a non-empty array whose first element has a string `code`; throws iff the first element of a non-empty array is null or undefined |

The lemmas in `Compiler` take `annotate` as a parameter. Each one therefore
states the same property of the async-api copy, at the matching lines of
packages/async-api/src/index.ts (Tuple :159-206 with its `+ 1` at :178-179,
TypeLiteral :207-251 with its assignment at :232, Union and Enums :252-255,
Declaration and Refinement :120-127 and :256-265, rejections :136-143,
:153-156 and :267).

## Left out

- `validateJSONSchema` (ajv) and `validateAsyncAPI` (`@asyncapi/parser`) are calls into foreign libraries.
- `jsonSchema` and `addJsonSchemaAnnotationsFrom` are left out. They go through the `@effect/schema` annotation side table. Here each node carries its annotations in a `meta` field instead.
- The Kafka topic annotation of the tests is not read by the compiler, so the model has no field for it.
- Object key order is not modelled. Objects are maps, so `toEqual` comparisons are order-free anyway.
- Numbers are finite reals, NaN or infinities. Floating-point rounding is not modelled.
- Template literal, lazy and transform nodes keep no payload beyond what `Tag` needs. Neither copy handles them.
- Compiler.Compile, Builders.TupleSchema, Builders.BuildTuple, Builders.AddElements, Builders.WithElements: an override's `minItems` and `maxItems` are taken to be primitives. On an array, object or function `+ 1` would call its own `valueOf` and `toString`, which the model does not have.
- Builders.AddElements: an override's `items` array is shared with the schema by the spread, so the source's `push` also changes the override record and every later schema spread from it. The model treats the array as a copy.
- Values are finite trees, so a cyclic value (an example that contains itself) cannot be written down. `isJson` would overflow the stack on one.
- Compiler.TopAnnotationKeys, JsonSchema.JsonSchemaFor: an override may carry any key, so they promise that a key is a built-in annotation or an override key, not that it is a `JSONSchemaAnnotationKey`.
- `AsyncApi.GetProperty` does not model properties that functions, arrays or primitive wrappers inherit: none of them has one named `code`.
- JsonSchema.ExampleKafkaTopic, JsonSchema.ExampleBuiltInAnnotations: the tests' tags `'a'`/`'b'` and their values are parameters, so the lemmas hold for every choice of them, including the tests' own.
- The remaining packages (temporal-client, brex, stripe, github, aws-s3, gcp-gcs, gcp-logging, http-client, temporal-config) are I/O wrappers and schema declarations, and they are not part of this model.
