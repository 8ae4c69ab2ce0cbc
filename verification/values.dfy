/** Python values as the SDK handles them, their truthiness, and mutable dictionaries. */
module PyValues {

  /** The Python values that travel through parameter maps and JSON bodies. */
  datatype Value =
    | VNone
    | VBool(b: bool)
    | VInt(i: int)
    | VStr(s: string)
    | VList(items: seq<Value>)
    | VDict(entries: map<string, Value>)

  /** Python's `bool(v)`: None, False, 0 and empty containers are falsy. */
  predicate Truthy(v: Value)
  {
    match v
    case VNone => false
    case VBool(b) => b
    case VInt(i) => i != 0
    case VStr(s) => s != ""
    case VList(items) => items != []
    case VDict(entries) => entries != map[]
  }

  /**
   * A `dict` object that the SDK updates in place and that its caller can
   * see afterwards (an argument the caller owns, or a shared default).
   */
  class Dict {
    var entries: map<string, Value>

    constructor (init: map<string, Value>)
      ensures entries == init
    {
      entries := init;
    }
  }
}
