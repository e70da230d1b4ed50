/** A decoded JSON document as the Python code sees it after `json.loads`,
    with the two Python operations the chat server applies to it: the truth
    test of `if not x` and subscripting `x[key]`. */
module Json {
  import opened Wrappers

  /** The values `json.loads` can return. JSON objects become dicts, which
      compare equal regardless of key order, so they are maps here. */
  datatype Value =
    | Null
    | Bool(b: bool)
    | Number(n: real)
    | Str(s: string)
    | Array(items: seq<Value>)
    | Object(fields: map<string, Value>)

  /** The Python exceptions the core can raise. */
  datatype PyError = KeyError | TypeError | ValueError

  /** Python's truth value of a decoded value: `None`, `False`, zero and
      empty strings, lists and dicts are false, everything else true. */
  predicate Truthy(v: Value)
  {
    match v
    case Null => false
    case Bool(b) => b
    case Number(n) => n != 0.0
    case Str(s) => s != []
    case Array(items) => items != []
    case Object(fields) => fields != map[]
  }

  /** Python's `v[key]` with a string key: a dict yields the entry or raises
      KeyError; every other decoded value (list, str, number, bool, None)
      raises TypeError. */
  function Index(v: Value, key: string): (r: Result<Value, PyError>)
    ensures r.Success? <==> v.Object? && key in v.fields
    ensures r.Success? ==> r.value == v.fields[key]
    ensures r.Failure? ==> r.error == (if v.Object? then KeyError else TypeError)
  {
    match v
    case Object(fields) => if key in fields then Success(fields[key]) else Failure(KeyError)
    case _ => Failure(TypeError)
  }

  /** Python's `d[key] = x` on a dict. */
  function Assign(d: Value, key: string, x: Value): (r: Value)
    requires d.Object?
    ensures Index(r, key) == Success(x)
    ensures forall k :: k != key ==> Index(r, k) == Index(d, k)
  {
    Object(d.fields[key := x])
  }

  /** Every item is a string. */
  predicate AllStrings(items: seq<Value>)
  {
    forall i :: 0 <= i < |items| ==> items[i].Str?
  }

  /** Python's `sep.join(items)`: the strings joined by `sep`, or TypeError
      when some item is not a string. The joined string only feeds a log
      line, so the contract states when the join raises and not the string. */
  function Join(sep: string, items: seq<Value>): (r: Result<string, PyError>)
    ensures r.Success? <==> AllStrings(items)
    ensures r.Failure? ==> r.error == TypeError
    ensures items == [] ==> r == Success("")
  {
    if items == [] then Success("")
    else if !items[0].Str? then Failure(TypeError)
    else if |items| == 1 then Success(items[0].s)
    else
      match Join(sep, items[1..])
      case Failure(e) => Failure(e)
      case Success(rest) => Success(items[0].s + sep + rest)
  }
}
