/**
  The JavaScript values a route handler can find in a parsed request body,
  and JavaScript truthiness on them.

  `Undefined` stands for a field the body does not have. JSON has no NaN,
  so a number is falsy exactly when it is zero.
 */
module Json {

  datatype JsValue =
    | Undefined
    | Null
    | Bool(b: bool)
    | Num(n: real)
    | Str(s: string)
    | Arr(items: seq<JsValue>)
    | Obj

  /** JavaScript truthiness: `undefined`, `null`, `false`, `0` and `""` are
      falsy; every array and object is truthy. */
  predicate Truthy(v: JsValue) {
    match v
    case Undefined => false
    case Null => false
    case Bool(b) => b
    case Num(n) => n != 0.0
    case Str(s) => |s| > 0
    case Arr(_) => true
    case Obj => true
  }

  /** The outcome of `await request.json()`: the text did not parse, it was
      `null` (destructuring it throws), or it gave a value whose own fields
      are listed. A top-level number, string, boolean or array has no field a
      handler looks up, so it reads as an empty field map. */
  datatype Body = Unparsable | NullBody | Fields(fields: map<string, JsValue>)

  /** `body.key`, `undefined` when absent. */
  function Get(fields: map<string, JsValue>, key: string): JsValue {
    if key in fields then fields[key] else Undefined
  }
}
