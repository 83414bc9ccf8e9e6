/** The Python values the guardrail reads out of request dictionaries:
    truthiness (what `if x:` and `a or b` test) and `str(x)`. */
module PyValue {
  import opened PyText

  datatype Value =
    | PyNone
    | PyBool(b: bool)
    | PyInt(i: int)
    | PyStr(s: string)
    | PyList(items: seq<Value>)
    | PyDict(entries: map<string, Value>)

  /** Python truthiness: `None`, `False`, `0`, `""`, `[]` and `{}` are false. */
  predicate Truthy(v: Value) {
    match v
    case PyNone => false
    case PyBool(b) => b
    case PyInt(i) => i != 0
    case PyStr(s) => s != ""
    case PyList(xs) => |xs| > 0
    case PyDict(m) => |m| > 0
  }

  /** Python's `a or b`: `a` when it is truthy, otherwise `b`. */
  function Or(a: Value, b: Value): (r: Value)
    ensures Truthy(r) <==> Truthy(a) || Truthy(b)
    ensures r == a || r == b
  {
    if Truthy(a) then a else b
  }

  /** `str(v)`.  Containers are rendered by a placeholder, not by Python's repr. */
  function Text(v: Value): (s: string)
    ensures v.PyStr? ==> s == v.s
    ensures v.PyInt? ==> s == IntToString(v.i)
    ensures Truthy(v) ==> |s| > 0
  {
    match v
    case PyNone => "None"
    case PyBool(b) => if b then "True" else "False"
    case PyInt(i) => IntToString(i)
    case PyStr(s) => s
    case PyList(_) => "[...]"
    case PyDict(_) => "{...}"
  }

  /** `d.get(key, default)`. */
  function Get(d: map<string, Value>, key: string, default: Value): (r: Value)
    ensures key in d ==> r == d[key]
    ensures key !in d ==> r == default
  {
    if key in d then d[key] else default
  }
}
