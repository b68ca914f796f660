/** Ruby values as they travel through the client: caller arguments, request
    bodies and query hashes, and what JSON.parse yields. Symbol and string keys
    are both written as strings. */
module Values {

  datatype Option<+T> = None | Some(value: T)

  datatype Value =
    | Nil
    | Bool(b: bool)
    | Int(i: int)
    | Str(s: string)
    | Array(items: seq<Value>)
    | Hash(fields: map<string, Value>)

  /** Ruby truthiness: only nil and false are falsy (0 and "" are truthy). */
  predicate Truthy(v: Value) {
    !(v.Nil? || v == Bool(false))
  }

  /** Hash#[] : the stored value, or nil for a key that is absent. */
  function Fetch(h: map<string, Value>, key: string): Value {
    if key in h then h[key] else Nil
  }

  /** Ruby's `a || b`: the left operand when truthy, else the right one. */
  function Or(a: Value, b: Value): Value {
    if Truthy(a) then a else b
  }
}
