/**
 * The Python values the backend passes around in its dictionaries: `None`,
 * text, integers and booleans, with Python's truthiness.
 */
module PyValues {

  datatype PyValue = PyNone | PyStr(s: string) | PyInt(i: int) | PyBool(b: bool)

  /** A request or row dictionary. Its key order is not modelled; where the
      source iterates a dictionary in order, the model takes a sequence. */
  type Dict = map<string, PyValue>

  /** Python's `bool(v)`. */
  predicate Truthy(v: PyValue) {
    match v
    case PyNone => false
    case PyStr(s) => s != ""
    case PyInt(i) => i != 0
    case PyBool(b) => b
  }

  /** `d.get(k, default)`: the stored value, even `None`, when the key is
      present. */
  function Get(d: Dict, k: string, default: PyValue): PyValue {
    if k in d then d[k] else default
  }

  /** A value a request model can produce: text or `None`. */
  predicate TextOrNone(v: PyValue) {
    v.PyNone? || v.PyStr?
  }

  /** Every value of the dictionary is text or `None`. */
  predicate TextFields(d: Dict) {
    forall k :: k in d ==> TextOrNone(d[k])
  }
}
