/** The JSON values a request body can carry once parsed, and the two pieces
    of Python semantics the handlers apply to them: truthiness (`not data`)
    and the membership test (`'items' in data`). */
module Json {
  import opened Wrappers

  datatype Value =
    | Null
    | Bool(b: bool)
    | Int(i: int)
    | Real(r: real)
    | Str(s: string)
    | List(elems: seq<Value>)
    | Obj(fields: map<string, Value>)

  /** What `request.get_json()` yields: nothing (`None`), a parse failure
      (the call raises), or a parsed value. */
  datatype Body = Absent | Unparsable | Parsed(value: Value)

  /** Python truthiness of a parsed JSON value. */
  predicate Truthy(v: Value)
  {
    match v
    case Null => false
    case Bool(b) => b
    case Int(i) => i != 0
    case Real(r) => r != 0.0
    case Str(s) => s != []
    case List(xs) => xs != []
    case Obj(m) => m != map[]
  }

  predicate IsPrefix(p: string, s: string)
  {
    |p| <= |s| && s[..|p|] == p
  }

  /** Python's `p in s` on two strings: `p` occurs somewhere in `s`. */
  predicate IsSubstring(p: string, s: string)
    decreases |s|
  {
    IsPrefix(p, s) || (s != [] && IsSubstring(p, s[1..]))
  }

  /** Python's `key in container` for a string key: a key test on a dict, an
      element test on a list, a substring test on a string; on a number, a
      boolean or None the operator raises TypeError, modelled as None. */
  function PyIn(key: string, container: Value): Option<bool>
  {
    match container
    case Obj(m) => Some(key in m)
    case List(xs) => Some(Str(key) in xs)
    case Str(s) => Some(IsSubstring(key, s))
    case _ => None
  }
}
