/** The Python values that the input validation of the clustering engine inspects. */
module PyValues {

  /** A Python value. Numbers are integers; `NdArray` is a one-dimensional numpy array. */
  datatype PyValue =
    | PyNone
    | PyBool(b: bool)
    | PyInt(n: int)
    | PyStr(s: string)
    | PyList(items: seq<PyValue>)
    | NdArray(elems: seq<int>)
    | PyDict(entries: map<string, PyValue>)

  /** Python's truth value `bool(v)`; a numpy array counts as true when it is non-empty. */
  predicate Truthy(v: PyValue) {
    match v
    case PyNone => false
    case PyBool(b) => b
    case PyInt(n) => n != 0
    case PyStr(s) => |s| > 0
    case PyList(items) => |items| > 0
    case NdArray(elems) => |elems| > 0
    case PyDict(entries) => |entries| > 0
  }

  /** `d.get(key)`: the value stored under `key`, or None when the key is absent. */
  function Get(d: map<string, PyValue>, key: string): PyValue {
    if key in d then d[key] else PyNone
  }
}
