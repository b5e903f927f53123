/** Decoded JSON replies and the handful of Python operations the integration applies
    to them: truthiness, `dict.get`, subscripting, `in`, iteration and `str()`.
    Python exceptions become `Err` values that carry what `str(e)` would show. */
module Json {
  import opened Strings

  datatype Json =
    | JNull
    | JBool(b: bool)
    | JInt(n: int)
    | JStr(str: string)
    | JList(elems: seq<Json>)
    | JObj(obj: map<string, Json>)

  /** The Python exceptions the modelled code can raise. */
  datatype Error =
    | KeyError(key: string)
    | TypeError(message: string)
    | AttributeError(message: string)
    | Failure(message: string)  // `Exception("...")` raised by the code itself or by the transport

  /** Python's `str(e)`. */
  function Message(e: Error): string
  {
    match e
    case KeyError(k) => "'" + k + "'"
    case TypeError(m) => m
    case AttributeError(m) => m
    case Failure(m) => m
  }

  datatype Option<+T> = None | Some(value: T)

  datatype Result<+T> = Ok(value: T) | Err(error: Error) {
    predicate IsFailure() { Err? }
    function PropagateFailure<U>(): Result<U>
      requires Err?
    {
      Err(error)
    }
    function Extract(): T
      requires Ok?
    {
      value
    }
  }

  /** Python's `type(j).__name__`. */
  function TypeName(j: Json): string
  {
    match j
    case JNull => "NoneType"
    case JBool(_) => "bool"
    case JInt(_) => "int"
    case JStr(_) => "str"
    case JList(_) => "list"
    case JObj(_) => "dict"
  }

  /** Python's `bool(j)`. */
  predicate Truthy(j: Json)
  {
    match j
    case JNull => false
    case JBool(b) => b
    case JInt(n) => n != 0
    case JStr(s) => s != ""
    case JList(xs) => xs != []
    case JObj(m) => m != map[]
  }

  /** Python's `str(j)` for the scalars a meter serial or token can be. */
  function Text(j: Json): string
  {
    match j
    case JNull => "None"
    case JBool(b) => if b then "True" else "False"
    case JInt(n) => IntText(n)
    case JStr(s) => s
    case JList(_) => ""
    case JObj(_) => ""
  }

  /** Python's `j.get(key, default)`. */
  function Get(j: Json, key: string, default: Json): (r: Result<Json>)
    ensures r.Ok? <==> j.JObj?
    ensures j.JObj? ==> r.value == if key in j.obj then j.obj[key] else default
  {
    match j
    case JObj(m) => Ok(if key in m then m[key] else default)
    case _ => Err(AttributeError("'" + TypeName(j) + "' object has no attribute 'get'"))
  }

  /** Python's `j[key]` with a string key. */
  function Index(j: Json, key: string): (r: Result<Json>)
    ensures r.Ok? <==> j.JObj? && key in j.obj
    ensures r.Ok? ==> r.value == j.obj[key]
    ensures j.JObj? && key !in j.obj ==> r == Err(KeyError(key))
  {
    match j
    case JObj(m) => if key in m then Ok(m[key]) else Err(KeyError(key))
    case JList(_) => Err(TypeError("list indices must be integers or slices, not str"))
    case JStr(_) => Err(TypeError("string indices must be integers, not 'str'"))
    case _ => Err(TypeError("'" + TypeName(j) + "' object is not subscriptable"))
  }

  /** Python's `key in j` with a string key: a dict's keys, a list's elements,
      a string's substrings; any other value is not a container. */
  function Contains(key: string, j: Json): (r: Result<bool>)
    ensures j.JObj? ==> r == Ok(key in j.obj)
    ensures j.JList? ==> r == Ok(JStr(key) in j.elems)
    ensures r.Err? <==> !(j.JObj? || j.JList? || j.JStr?)
  {
    match j
    case JObj(m) => Ok(key in m)
    case JList(xs) => Ok(JStr(key) in xs)
    case JStr(s) => Ok(IsInfix(key, s))
    case _ => Err(TypeError("argument of type '" + TypeName(j) + "' is not iterable"))
  }

  /** The values a Python `for` loop over `j` visits. A list yields its elements and
      a string its characters. A dict yields its keys; every loop of the integration
      fails on the first non-empty key with a message that does not depend on the
      key, so a dict yields the empty key when present and then one stand-in for
      its non-empty keys. */
  function Iter(j: Json): (r: Result<seq<Json>>)
    ensures j.JList? ==> r == Ok(j.elems)
    ensures r.Err? <==> (j.JNull? || j.JBool? || j.JInt?)
    ensures j.JStr? && r.Ok? ==> |r.value| == |j.str|
  {
    match j
    case JList(xs) => Ok(xs)
    case JStr(s) => Ok(seq(|s|, i requires 0 <= i < |s| => JStr([s[i]])))
    case JObj(m) =>
      Ok((if "" in m then [JStr("")] else []) + (if m.Keys - {""} != {} then [JStr("key")] else []))
    case _ => Err(TypeError("'" + TypeName(j) + "' object is not iterable"))
  }
}
