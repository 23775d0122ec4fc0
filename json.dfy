/** JSON values as JavaScript sees them once `JSON.parse` has produced them. */
module Json {
  import opened Wrappers

  datatype Value =
    | Null
    | Bool(b: bool)
    | Number(n: real)
    | Str(s: string)
    | Array(items: seq<Value>)
    | Object(fields: map<string, Value>)

  /** JavaScript truthiness of a parsed JSON value (`NaN` cannot come out of `JSON.parse`). */
  predicate Truthy(v: Value) {
    match v
    case Null => false
    case Bool(b) => b
    case Number(n) => n != 0.0
    case Str(s) => s != ""
    case Array(_) => true
    case Object(_) => true
  }

  /** The three things `v.key` can do in JavaScript. */
  datatype Access = Undefined | Defined(value: Value) | TypeError

  /**
   * `v.key` for the data-property names this model reads (`elements`, `appState`):
   * on `null` it throws, on an object it is the own field if present, and on
   * every other JSON value it is `undefined`.
   */
  function Property(v: Value, key: string): (a: Access)
    ensures a.TypeError? <==> v.Null?
    ensures a.Defined? <==> v.Object? && key in v.fields
    ensures a.Defined? ==> a.value == v.fields[key]
  {
    match v
    case Null => TypeError
    case Object(fields) => if key in fields then Defined(fields[key]) else Undefined
    case _ => Undefined
  }

  /** `v.key` read where `undefined` is kept as a missing value. */
  function OptionalProperty(v: Value, key: string): (o: Option<Value>)
    requires !v.Null?
    ensures o.Some? <==> v.Object? && key in v.fields
  {
    match Property(v, key)
    case Defined(x) => Some(x)
    case _ => None
  }
}
