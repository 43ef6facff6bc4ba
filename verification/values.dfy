/** The Python values that flow through configurations and checkpoint records:
    `None`, booleans, integers, strings, lists and string-keyed dicts. */
module Values {

  datatype Value =
    | VNone
    | VBool(b: bool)
    | VInt(i: int)
    | VStr(s: string)
    | VList(items: seq<Value>)
    | VDict(entries: map<string, Value>)

  /** `isinstance(v, int)`: in Python a `bool` is an `int` too. */
  predicate IsInt(v: Value) {
    v.VInt? || v.VBool?
  }

  /** The integer an `int`-like value stands for (`True` is 1, `False` is 0). */
  function AsInt(v: Value): int
    requires IsInt(v)
  {
    match v
    case VInt(i) => i
    case VBool(b) => if b then 1 else 0
  }
}
