/**
  The JavaScript values the `/chat` handler inspects: the request's `message`
  field and whatever `JSON.parse` returns for the model's text. Numbers are
  integers here: fractional numbers and NaN are outside the model.
 */
module Json {

  datatype Value =
    | Undefined
    | Null
    | Bool(b: bool)
    | Number(n: int)
    | Str(s: string)
    | Array(items: seq<Value>)
    | Object(fields: map<string, Value>)

  /** JavaScript truthiness, the test behind `!x`. */
  predicate Truthy(v: Value)
  {
    match v
    case Undefined => false
    case Null => false
    case Bool(b) => b
    case Number(n) => n != 0
    case Str(s) => s != ""
    case Array(_) => true
    case Object(_) => true
  }

  /**
    Property access `v.key` for the two keys the handler reads (`reply` and
    `product_id`): only an object can own them; arrays, strings, numbers and
    booleans yield `undefined`. The handler never reads a property of a falsy
    value, so the TypeError of `null.key` does not arise.
   */
  function Get(v: Value, key: string): Value
  {
    match v
    case Object(fields) => if key in fields then fields[key] else Undefined
    case _ => Undefined
  }

  /**
    String conversion (`${v}`, `String(v)`) of a JSON value throws a TypeError
    exactly when it meets an object that owns a `toString` key. JSON values are
    never callable, so that `toString` is skipped; the inherited `valueOf`
    returns the object itself, and no primitive results. Every other object
    uses the inherited `toString`. Arrays convert through `join`, which
    converts each element in turn.
   */
  predicate ToStringThrows(v: Value)
    decreases v
  {
    match v
    case Object(fields) => "toString" in fields
    case Array(items) => exists i :: 0 <= i < |items| && ToStringThrows(items[i])
    case _ => false
  }
}
