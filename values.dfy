/** The JavaScript values the model lets a resolver produce, and the coercions the
    directive code applies to them implicitly (template literals, truthiness, `typeof`). */
module JsValues {
  import opened Decimal

  /** A field result: the primitive values of the modelled domain. Integral numbers are
      unbounded here; `NaN` is the one non-integral number the code can produce. */
  datatype Value = Undefined | Null | Bool(b: bool) | Int(i: int) | NaN | Str(s: string)

  /** An arbitrary JavaScript value as seen by `isValidDirective`: a primitive or a
      plain object whose properties are primitives (a directive's argument record). */
  datatype Unknown = Prim(v: Value) | Obj(fields: map<string, Value>)

  /** `String(v)`, which is also what a template literal `${v}` inserts. */
  function JsString(v: Value): string {
    match v
    case Undefined => "undefined"
    case Null => "null"
    case Bool(b) => if b then "true" else "false"
    case Int(i) => IntToString(i)
    case NaN => "NaN"
    case Str(s) => s
  }

  /** The `typeof` operator. */
  function TypeOf(u: Unknown): string {
    match u
    case Obj(_) => "object"
    case Prim(Undefined) => "undefined"
    case Prim(Null) => "object"
    case Prim(Bool(_)) => "boolean"
    case Prim(Int(_)) => "number"
    case Prim(NaN) => "number"
    case Prim(Str(_)) => "string"
  }

  /** JavaScript truthiness, as used by `if (directive)`. */
  predicate Truthy(u: Unknown) {
    match u
    case Obj(_) => true
    case Prim(Undefined) => false
    case Prim(Null) => false
    case Prim(Bool(b)) => b
    case Prim(Int(i)) => i != 0
    case Prim(NaN) => false
    case Prim(Str(s)) => s != ""
  }

  /** Property access `u.name`: a missing property, or any property of a primitive
      the directive code reads (`key`, `ttl`, `pattern`, `method`, `from`, `to`), is `undefined`. */
  function Property(u: Unknown, name: string): Value {
    match u
    case Obj(fields) => if name in fields then fields[name] else Undefined
    case Prim(_) => Undefined
  }
}
