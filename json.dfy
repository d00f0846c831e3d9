/**
  Values produced by `json.loads`, and the Python operations the parsers
  apply to them (`in`, `[...]`, `len`, iteration, `float`, `str`), each
  with the exception Python raises where the operation does not apply.
 */
module Json {
  import opened Base
  import opened Text
  import opened Utils

  datatype Json =
    | JNull
    | JBool(b: bool)
    | JNum(n: real)
    | JStr(s: string)
    | JArray(items: seq<Json>)
    | JObject(fields: map<string, Json>)

  /** Python's result or the exception it raises. */
  type Py<T> = Result<T, Error>

  function TypeFail<T>(what: string): Py<T>
  {
    Err(Error(TypeError, what))
  }

  /** `w` occurs in `s` as a contiguous piece. */
  predicate IsSubstring(w: string, s: string)
  {
    w <= s || (s != [] && IsSubstring(w, s[1..]))
  }

  /** `key in v` for a string `key`. */
  function Contains(v: Json, key: string): (r: Py<bool>)
    ensures v.JObject? ==> r == Ok(key in v.fields)
    ensures r.Err? <==> !(v.JObject? || v.JArray? || v.JStr?)
  {
    match v
    case JObject(m) => Ok(key in m)
    case JArray(xs) => Ok(JStr(key) in xs)
    case JStr(s) => Ok(IsSubstring(key, s))
    case _ => TypeFail("argument is not iterable")
  }

  /** `v[key]` for a string `key`. */
  function GetKey(v: Json, key: string): (r: Py<Json>)
    ensures r.Ok? <==> v.JObject? && key in v.fields
    ensures r.Ok? ==> r.value == v.fields[key]
  {
    match v
    case JObject(m) => if key in m then Ok(m[key]) else Err(Error(KeyError, "key not found"))
    case _ => TypeFail("indices must be integers")
  }

  /** `len(v)`. */
  function Len(v: Json): (r: Py<nat>)
    ensures r.Err? <==> !(v.JObject? || v.JArray? || v.JStr?)
  {
    match v
    case JObject(m) => Ok(|m|)
    case JArray(xs) => Ok(|xs|)
    case JStr(s) => Ok(|s|)
    case _ => TypeFail("object has no len()")
  }

  /** `v[i]` for a non-negative integer `i`. */
  function At(v: Json, i: nat): (r: Py<Json>)
    ensures v.JArray? && i < |v.items| ==> r == Ok(v.items[i])
    ensures r.Ok? ==> (v.JArray? && i < |v.items|) || (v.JStr? && i < |v.s|)
  {
    match v
    case JArray(xs) => if i < |xs| then Ok(xs[i]) else Err(Error(IndexError, "index out of range"))
    case JStr(s) => if i < |s| then Ok(JStr([s[i]])) else Err(Error(IndexError, "index out of range"))
    case JObject(_) => Err(Error(KeyError, "key not found"))
    case _ => TypeFail("object is not subscriptable")
  }

  /**
    `for x in v`: the items of a list or the characters of a string.
    Iterating a dict (which yields its keys in insertion order) is not
    modelled and fails here.
   */
  function Items(v: Json): (r: Py<seq<Json>>)
    ensures v.JArray? <==> r.Ok? && !v.JStr?
    ensures v.JArray? ==> r == Ok(v.items)
    ensures v.JStr? ==> r.Ok? && |r.value| == |v.s|
  {
    match v
    case JArray(xs) => Ok(xs)
    case JStr(s) => Ok(seq(|s|, i requires 0 <= i < |s| => JStr([s[i]])))
    case _ => TypeFail("object is not iterable")
  }

  /** `float(v)`. */
  function ToFloat(v: Json): (r: Py<real>)
    ensures v.JNum? ==> r == Ok(v.n)
    ensures v.JNull? || v.JArray? || v.JObject? ==> r.Err?
  {
    match v
    case JNum(n) => Ok(n)
    case JBool(b) => Ok(if b then 1.0 else 0.0)
    case JStr(s) =>
      (match ParseFloat(s)
       case Some(x) => Ok(x)
       case None => Err(Error(ValueError, "could not convert string to float")))
    case _ => TypeFail("float() argument must be a string or a number")
  }

  /** `str(v)`; `show` stands for Python's rendering of the non-string values. */
  function ToStr(v: Json, show: Json -> string): (r: string)
    ensures v.JStr? ==> r == v.s
  {
    if v.JStr? then v.s else show(v)
  }

  /** A value usable as a dict key (lists and dicts are unhashable). */
  predicate Hashable(v: Json)
  {
    !(v.JArray? || v.JObject?)
  }
}
