/** The JavaScript values the server passes around: the object tree the XML
    parser produces, the JSON bodies it responds with, and the unknown inputs
    the record schemas inspect. */
module Json {

  /** A JavaScript value. Numbers are finite reals (NaN and the infinities are
      not represented); object keys are unordered. */
  datatype Value =
    | Undefined
    | Null
    | Bool(b: bool)
    | Num(n: real)
    | Str(s: string)
    | Arr(items: seq<Value>)
    | Obj(fields: map<string, Value>)

  /** `null` or `undefined`: the values on which a property read throws. */
  predicate Nullish(v: Value) {
    v.Undefined? || v.Null?
  }

  /** JavaScript truthiness, the condition `if (!x)` negates. */
  predicate Truthy(v: Value) {
    match v
    case Undefined => false
    case Null => false
    case Bool(b) => b
    case Num(n) => n != 0.0
    case Str(s) => s != ""
    case Arr(_) => true
    case Obj(_) => true
  }

  /** `o[key]` on a plain object: the value stored under `key`, else `undefined`. */
  function Field(fields: map<string, Value>, key: string): Value {
    if key in fields then fields[key] else Undefined
  }

  /** `v.key` on a value that is not nullish. Only objects hold the keys this
      model reads (`Response`, `Cases`, ...); no built-in prototype of strings,
      numbers, booleans or arrays defines them, so those yield `undefined`. */
  function Property(v: Value, key: string): Value
    requires !Nullish(v)
  {
    if v.Obj? then Field(v.fields, key) else Undefined
  }

  /** Optional chaining `v?.key`: `undefined` when `v` is nullish. */
  function OptionalProperty(v: Value, key: string): Value {
    if Nullish(v) then Undefined else Property(v, key)
  }
}
