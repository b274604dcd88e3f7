/**
 * The dynamically typed values that YAML manifests and request bodies carry
 * into the Python code, with the parts of Python's semantics the code
 * depends on: truthiness, `dict.get`, `x or y`, hashability and `str(x)`.
 */
module Values {
  import opened Strings

  /** A value as `yaml.safe_load` or `json.loads` produces it (floats and dates aside). */
  datatype Value =
    | Null
    | Bool(b: bool)
    | Int(i: int)
    | Str(s: string)
    | List(elems: seq<Value>)
    | Dict(fields: map<string, Value>)

  /** Python's `bool(v)`. */
  predicate Truthy(v: Value) {
    match v
    case Null => false
    case Bool(b) => b
    case Int(i) => i != 0
    case Str(s) => s != []
    case List(e) => e != []
    case Dict(f) => f != map[]
  }

  /** Lists and dicts cannot be set members or dict keys. */
  predicate Hashable(v: Value) {
    !v.List? && !v.Dict?
  }

  /** `d.get(k)`: `None` when the key is absent. */
  function Get(d: map<string, Value>, k: string): Value {
    if k in d then d[k] else Null
  }

  /** `d.get(k, default)`. */
  function GetOr(d: map<string, Value>, k: string, default: Value): Value {
    if k in d then d[k] else default
  }

  /** Python's `a or b`. */
  function Or(a: Value, b: Value): Value {
    if Truthy(a) then a else b
  }

  /** The elements `for x in v` visits when `v` is a list, else none. */
  function ElemsOf(v: Value): seq<Value> {
    if v.List? then v.elems else []
  }

  /**
   * Python's `str(v)`. A dict is rendered as a fixed placeholder, since the
   * model's dicts do not keep insertion order; a string inside a list is
   * quoted without escaping.
   */
  function PyStr(v: Value): string
    decreases v, 1
  {
    match v
    case Null => "None"
    case Bool(b) => if b then "True" else "False"
    case Int(i) => IntToString(i)
    case Str(s) => s
    case List(elems) => "[" + ReprElems(v, 0) + "]"
    case Dict(_) => "{...}"
  }

  /** Python's `repr(v)`. */
  function PyRepr(v: Value): string
    decreases v, 2
  {
    if v.Str? then "'" + v.s + "'" else PyStr(v)
  }

  /** The reprs of the elements of list `v` from position `i`, joined by `", "`. */
  function ReprElems(v: Value, i: nat): string
    requires v.List?
    decreases v, 0, |v.elems| - i
  {
    if i >= |v.elems| then ""
    else if i == |v.elems| - 1 then PyRepr(v.elems[i])
    else PyRepr(v.elems[i]) + ", " + ReprElems(v, i + 1)
  }

  lemma {:induction false} NatToStringStartsWithDigit(n: nat)
    ensures '0' <= NatToString(n)[0] <= '9'
  {
    if n >= 10 {
      NatToStringStartsWithDigit(n / 10);
    }
  }

  /**
   * Only a string has a `str()` that begins with a capital letter followed by
   * another capital letter: `None`, `True`, `False`, numbers, lists and dicts
   * all begin otherwise.
   */
  lemma StrOfNonStringShape(v: Value)
    requires !v.Str?
    ensures var t := PyStr(v); |t| < 2 || !('A' <= t[0] <= 'Z' && 'A' <= t[1] <= 'Z')
  {
    match v
    case Int(i) =>
      if i >= 0 {
        NatToStringStartsWithDigit(i);
      }
    case _ =>
  }
}
