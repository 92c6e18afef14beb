/** The JavaScript value conventions the client relies on: `null`/`undefined`,
    object properties that may be absent or set to `undefined`, bytes, and the
    truthiness of strings. */
module JsValues {

  /** `None` stands for `null` or `undefined`. */
  datatype Option<+T> = None | Some(value: T)

  /** One property of a JavaScript object literal: the key is absent, the key
      is present with the value `undefined`, or the key holds a value. The
      difference matters to object spread, which copies every key an object
      has, including keys whose value is `undefined`. */
  datatype Field<+T> = Absent | Undefined | Value(v: T)

  /** Reading a property: an absent key and a key set to `undefined` both
      read as `undefined`. */
  function Read<T>(f: Field<T>): (r: Option<T>)
    ensures r.Some? <==> f.Value?
    ensures r.Some? ==> r.value == f.v
  {
    if f.Value? then Some(f.v) else None
  }

  /** A string read from a property is truthy iff it is defined and not empty. */
  predicate Truthy(s: Option<string>) {
    s.Some? && s.value != ""
  }

  newtype byte = x: int | 0 <= x < 256
}
