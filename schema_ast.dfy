/**
 * The schema AST both compilers walk: the node kinds of `@effect/schema`'s
 * `AST.AST`, with each node's annotations held in an explicit `meta` field
 * instead of the library's side table, and the errors the compilers throw.
 */
module SchemaAst {
  import opened JsValues
  import opened Annotations

  /** The value of a `Literal` node. */
  datatype LiteralValue =
    | StringLiteral(s: string)
    | NumberLiteral(n: Number)
    | BooleanLiteral(b: bool)
    | NullLiteral
    | BigIntLiteral(i: int)

  /** The JavaScript value of a literal. */
  function LiteralToValue(l: LiteralValue): Value {
    match l
    case StringLiteral(s) => Str(s)
    case NumberLiteral(n) => Num(n)
    case BooleanLiteral(b) => Bool(b)
    case NullLiteral => Null
    case BigIntLiteral(i) => BigInt(i)
  }

  /** The name of a property signature: a string or a symbol. */
  datatype PropertyKey = StringKey(name: string) | SymbolKey(description: string)

  /** The value of an `Enums` member. */
  datatype EnumValue = EnumString(s: string) | EnumNumber(n: Number)

  function EnumToValue(v: EnumValue): Value {
    match v
    case EnumString(s) => Str(s)
    case EnumNumber(n) => Num(n)
  }

  datatype EnumMember = EnumMember(key: string, value: EnumValue)

  /**
   * An AST node. `Tuple.rest` is the rest element, empty when absent (the
   * library's `Option` of a non-empty array). `TemplateLiteral`, `Lazy` and
   * `Transform` are listed for completeness: neither compiler handles them.
   */
  datatype Ast =
    | Declaration(typeAst: Ast, meta: Metadata)
    | Literal(literal: LiteralValue, meta: Metadata)
    | UniqueSymbol(meta: Metadata)
    | UndefinedKeyword(meta: Metadata)
    | VoidKeyword(meta: Metadata)
    | NeverKeyword(meta: Metadata)
    | UnknownKeyword(meta: Metadata)
    | AnyKeyword(meta: Metadata)
    | StringKeyword(meta: Metadata)
    | NumberKeyword(meta: Metadata)
    | BooleanKeyword(meta: Metadata)
    | BigIntKeyword(meta: Metadata)
    | SymbolKeyword(meta: Metadata)
    | ObjectKeyword(meta: Metadata)
    | Enums(enums: seq<EnumMember>, meta: Metadata)
    | TemplateLiteral(head: string, meta: Metadata)
    | Tuple(elements: seq<Element>, rest: seq<Ast>, meta: Metadata)
    | TypeLiteral(propertySignatures: seq<PropertySignature>, indexSignatures: seq<IndexSignature>, meta: Metadata)
    | Union(types: seq<Ast>, meta: Metadata)
    | Lazy(meta: Metadata)
    | Refinement(from: Ast, meta: Metadata)
    | Transform(from: Ast, to: Ast, meta: Metadata)

  datatype Element = Element(typeAst: Ast, isOptional: bool)

  datatype PropertySignature = PropertySignature(name: PropertyKey, typeAst: Ast, isOptional: bool)

  /** `parameter` is the key type: `StringKeyword`, `SymbolKeyword`, a template literal or a refinement. */
  datatype IndexSignature = IndexSignature(parameter: Ast, typeAst: Ast)

  /** The node's `_tag`. */
  function Tag(ast: Ast): string {
    match ast
    case Declaration(_, _) => "Declaration"
    case Literal(_, _) => "Literal"
    case UniqueSymbol(_) => "UniqueSymbol"
    case UndefinedKeyword(_) => "UndefinedKeyword"
    case VoidKeyword(_) => "VoidKeyword"
    case NeverKeyword(_) => "NeverKeyword"
    case UnknownKeyword(_) => "UnknownKeyword"
    case AnyKeyword(_) => "AnyKeyword"
    case StringKeyword(_) => "StringKeyword"
    case NumberKeyword(_) => "NumberKeyword"
    case BooleanKeyword(_) => "BooleanKeyword"
    case BigIntKeyword(_) => "BigIntKeyword"
    case SymbolKeyword(_) => "SymbolKeyword"
    case ObjectKeyword(_) => "ObjectKeyword"
    case Enums(_, _) => "Enums"
    case TemplateLiteral(_, _) => "TemplateLiteral"
    case Tuple(_, _, _) => "Tuple"
    case TypeLiteral(_, _, _) => "TypeLiteral"
    case Union(_, _) => "Union"
    case Lazy(_) => "Lazy"
    case Refinement(_, _) => "Refinement"
    case Transform(_, _, _) => "Transform"
  }

  /**
   * The errors `go` throws: its own `Error`s, and the `TypeError`s of adding
   * 1 to a bigint or a symbol `minItems`/`maxItems` in the tuple loop.
   */
  datatype CompileError =
    | UniqueSymbolUnsupported
    | UndefinedUnsupported
    | VoidUnsupported
    | NeverUnsupported
    | BigIntUnsupported
    | SymbolUnsupported
    | IndexSignatureUnsupported
    | PropertyKeyUnsupported(key: PropertyKey)
    | Unhandled(tag: string)
    | MixedBigIntTypeError
    | SymbolToNumberTypeError

  /** `String(name)` for a property key. */
  function KeyToString(key: PropertyKey): string {
    match key
    case StringKey(name) => name
    case SymbolKey(description) => "Symbol(" + description + ")"
  }

  /** The message of the thrown `Error`. */
  function Message(e: CompileError): string {
    match e
    case UniqueSymbolUnsupported => "cannot convert a unique symbol to JSON Schema"
    case UndefinedUnsupported => "cannot convert `undefined` to JSON Schema"
    case VoidUnsupported => "cannot convert `void` to JSON Schema"
    case NeverUnsupported => "cannot convert `never` to JSON Schema"
    case BigIntUnsupported => "cannot convert `bigint` to JSON Schema"
    case SymbolUnsupported => "cannot convert `symbol` to JSON Schema"
    case IndexSignatureUnsupported => "Cannot encode some index signature to JSON Schema"
    case PropertyKeyUnsupported(key) => "Cannot encode " + KeyToString(key) + " key to JSON Schema"
    case Unhandled(tag) => "unhandled " + tag
    case MixedBigIntTypeError => "Cannot mix BigInt and other types, use explicit conversions"
    case SymbolToNumberTypeError => "Cannot convert a Symbol value to a number"
  }
}
