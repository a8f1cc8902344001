/** JSON values as the server receives and sends them, and JavaScript truthiness. */
module Json {

  /** A JSON value. Numbers are kept as reals; NaN and the infinities never occur
      in parsed JSON and are not represented. */
  datatype Value =
    | Null
    | Bool(b: bool)
    | Num(n: real)
    | Str(s: string)
    | Arr(items: seq<Value>)
    | Obj(fields: map<string, Value>)

  /** A record, a request body or a field bag: a JavaScript object used as a
      dictionary. A missing key reads as `undefined`. Object spread `{...a, ...b}`
      is the map union `a + b`: the later (right) operand wins on shared keys. */
  type Record = map<string, Value>

  /** JavaScript truthiness of a JSON value: `null`, `false`, `0` and `""` are
      falsy; every array and object is truthy, even an empty one. */
  predicate Truthy(v: Value)
  {
    match v
    case Null => false
    case Bool(b) => b
    case Num(n) => n != 0.0
    case Str(s) => s != ""
    case Arr(_) => true
    case Obj(_) => true
  }

  /** `if (r.k)`: the key is present and its value is truthy (an absent key reads
      as `undefined`, which is falsy). */
  predicate FieldTruthy(r: Record, k: string)
  {
    k in r && Truthy(r[k])
  }
}
