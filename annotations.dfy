/**
 * The annotation side of packages/json-schema/src/index.ts: the
 * `JSONSchemaAnnotationKey` validator and the resolver
 * `getEffectiveJSONSchemaAnnotations`.
 */
module Annotations {
  import opened Wrappers
  import opened JsValues

  /**
   * `JSONSchemaAnnotationKey`: one of the literals `title`, `description`,
   * `examples`, `$comment`, or the template literal `x-${string}`.
   */
  predicate IsAnnotationKey(key: string) {
    || key == "title"
    || key == "description"
    || key == "examples"
    || key == "$comment"
    || (|key| >= 2 && key[..2] == "x-")
  }

  /** The draft-07 keywords the compiler itself writes into a schema object. */
  const Keywords: set<string> :=
    {"type", "const", "anyOf", "allOf", "items", "additionalItems", "minItems", "maxItems",
     "required", "properties", "additionalProperties"}

  /**
   * An annotation record as the compiler reads it: any keys and any values,
   * since the library stores the override untyped, except that a `minItems`
   * or `maxItems` in it is a primitive (the tuple loop adds 1 to those).
   */
  predicate BoundsArePrimitive(m: map<string, Value>) {
    && ("minItems" in m ==> IsPrimitive(m["minItems"]))
    && ("maxItems" in m ==> IsPrimitive(m["maxItems"]))
  }

  type AnnotationRecord = m: map<string, Value> | BoundsArePrimitive(m)

  /**
   * The annotations an AST node carries. The first three are the built-in
   * title, description and examples annotations (None when absent); the last
   * is the explicit JSON Schema override stored under `JSONSchemaAnnotationId`.
   */
  datatype Metadata = Metadata(
    title: Option<Value>,
    description: Option<Value>,
    examples: Option<Value>,
    jsonSchema: Option<AnnotationRecord>)

  /** The node with no annotations at all. */
  const NoMetadata := Metadata(None, None, None, None)

  /** `O.getOrNull`. */
  function GetOrNull(o: Option<Value>): Value {
    if o.Some? then o.value else Null
  }

  /** `.filter(([key, value]) => value !== null)`. */
  function DropNulls(entries: seq<(string, Value)>): seq<(string, Value)>
  {
    if entries == [] then []
    else if entries[0].1 == Null then DropNulls(entries[1..])
    else [entries[0]] + DropNulls(entries[1..])
  }

  /** `.reduce((acc, [key, value]) => ({ ...acc, [key]: value }), acc)`. */
  function Collect(acc: map<string, Value>, entries: seq<(string, Value)>): map<string, Value>
    decreases |entries|
  {
    if entries == [] then acc
    else Collect(acc[entries[0].0 := entries[0].1], entries[1..])
  }

  /** One step of the fused filter and reduce: a null value adds nothing. */
  function Include(acc: map<string, Value>, key: string, value: Value): (r: map<string, Value>)
    ensures value == Null ==> r == acc
    ensures value != Null ==> r.Keys == acc.Keys + {key} && r[key] == value
    ensures forall k :: k in acc && k != key ==> k in r && r[k] == acc[k]
  {
    if value == Null then acc else acc[key := value]
  }

  /** Filtering the nulls out and then reducing is the same as reducing while skipping the nulls. */
  lemma {:induction false} DropNullsThenCollect(acc: map<string, Value>, entries: seq<(string, Value)>)
    ensures Collect(acc, DropNulls(entries)) ==
      if entries == [] then acc
      else Collect(Include(acc, entries[0].0, entries[0].1), DropNulls(entries[1..]))
  {
    if entries != [] && entries[0].1 != Null {
      var rest := DropNulls(entries[1..]);
      assert ([entries[0]] + rest)[1..] == rest;
    }
  }

  /** The spread of the override record: spreading `null` adds nothing. */
  function Overrides(meta: Metadata): AnnotationRecord {
    if meta.jsonSchema.Some? then meta.jsonSchema.value else map[]
  }

  /** The built-in annotations in the order the resolver lists them, read with `O.getOrNull`. */
  function BuiltIns(meta: Metadata): seq<(string, Value)> {
    [("title", GetOrNull(meta.title)),
     ("description", GetOrNull(meta.description)),
     ("examples", GetOrNull(meta.examples))]
  }

  /** `base`: the built-in annotations whose value is not null. */
  lemma BaseIsIncludes(meta: Metadata)
    ensures Collect(map[], DropNulls(BuiltIns(meta))) ==
      Include(Include(Include(map[], "title", GetOrNull(meta.title)),
        "description", GetOrNull(meta.description)), "examples", GetOrNull(meta.examples))
  {
    var es := BuiltIns(meta);
    DropNullsThenCollect(map[], es);
    var m1 := Include(map[], "title", GetOrNull(meta.title));
    DropNullsThenCollect(m1, es[1..]);
    var m2 := Include(m1, "description", GetOrNull(meta.description));
    DropNullsThenCollect(m2, es[2..]);
    assert es[1..][1..] == es[2..];
    assert es[2..][1..] == [];
  }

  /** `getEffectiveJSONSchemaAnnotations`: `{ ...base, ...overrides }`. */
  function EffectiveAnnotations(meta: Metadata): AnnotationRecord {
    var base := Collect(map[], DropNulls(BuiltIns(meta)));
    BaseIsIncludes(meta);
    base + Overrides(meta)
  }

  /**
   * The resolved annotations hold a built-in key exactly when its metadata is
   * present and not null or when the override has it, no other key than those
   * and the override's, and the override's value wherever it has one.
   */
  lemma EffectiveAnnotationsSpec(meta: Metadata)
    ensures var r := EffectiveAnnotations(meta);
      && ("title" in r <==> "title" in Overrides(meta) || GetOrNull(meta.title) != Null)
      && ("description" in r <==> "description" in Overrides(meta) || GetOrNull(meta.description) != Null)
      && ("examples" in r <==> "examples" in Overrides(meta) || GetOrNull(meta.examples) != Null)
      && (forall key :: key in r && key !in Overrides(meta) ==> key in {"title", "description", "examples"})
      && (forall key :: key in Overrides(meta) ==> key in r && r[key] == Overrides(meta)[key])
      && ("title" in r && "title" !in Overrides(meta) ==> r["title"] == meta.title.value)
      && ("description" in r && "description" !in Overrides(meta) ==> r["description"] == meta.description.value)
      && ("examples" in r && "examples" !in Overrides(meta) ==> r["examples"] == meta.examples.value)
  {
    BaseIsIncludes(meta);
  }

  /**
   * No keyword the compiler writes is a `JSONSchemaAnnotationKey`, so
   * annotations of that type never clobber structure nor the reverse; only an
   * override that uses other keys can.
   */
  lemma KeywordsAreNotAnnotationKeys()
    ensures forall key :: key in Keywords ==> !IsAnnotationKey(key)
  {
    forall key | key in Keywords ensures !IsAnnotationKey(key) {
      assert key[..2] != "x-" by {
        assert key[0] != 'x';
      }
    }
  }
}
