/** Values the bot handles: decoded JSON as Python sees it after `json()`,
    the exceptions the core raises, and the outcome of a call that may raise. */
module PyValue {

  /** A decoded JSON value. Python's exact-type tests (`type(x) != int`)
      become constructor tests: `true` decodes to a bool, which is not an int.
      A float keeps its literal text; the model never computes with it. */
  datatype Json =
    | JNull
    | JBool(b: bool)
    | JInt(i: int)
    | JFloat(literal: string)
    | JStr(s: string)
    | JList(items: seq<Json>)
    | JObj(fields: map<string, Json>)

  datatype Option<T> = None | Some(value: T)

  /** The exceptions that can leave the core. A `TypeError` stands for every
      type error Python raises on odd input; its message is not modelled. */
  datatype Exc =
    | Exception(message: string)
    | KeyError(key: string)
    | TypeError

  /** A call that returns a value or raises. */
  datatype Result<T> = Ok(value: T) | Err(exc: Exc)

  /** Python can use the value as a dictionary key: lists and dicts are unhashable. */
  predicate Hashable(v: Json) {
    !v.JList? && !v.JObj?
  }

  /** `str(v)` as an f-string applies it: a string renders as itself; any other
      value is rendered by `pyStr`, Python's own `str()`, which this model does
      not define. */
  function Str(v: Json, pyStr: Json -> string): string {
    if v.JStr? then v.s else pyStr(v)
  }
}
