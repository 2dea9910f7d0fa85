/** The decoded quote payload and the Python operations the screening applies
    to its values. Python's dynamic typing is kept: a field may hold any JSON
    value, and every operation that Python would reject with an exception
    returns `Raise` instead of a value. */
module Payload {

  datatype Option<+T> = None | Some(value: T)

  /** The outcome of evaluating a Python expression: a value, or an exception.
      The screening catches every exception the same way, so the kind of
      exception is not recorded. */
  datatype Outcome<+T> = Ok(value: T) | Raise {
    predicate IsFailure() { Raise? }

    function PropagateFailure<U>(): Outcome<U>
      requires Raise?
    {
      Raise
    }

    function Extract(): T
      requires Ok?
    {
      value
    }
  }

  /** A value as Python's json decoder returns it: None, bool, int or float,
      str, list, dict. Integers and floats are both modelled as reals. */
  datatype Json =
    | JNull
    | JBool(b: bool)
    | JNum(n: real)
    | JStr(s: string)
    | JArr(items: seq<Json>)
    | JObj(fields: map<string, Json>)

  /** `d.get(key)`: the stored value, or None when the key is missing. A stored
      JSON null and a missing key are the same None to Python. */
  function Get(d: map<string, Json>, key: string): (r: Json)
    ensures key !in d ==> r == JNull
    ensures key in d ==> r == d[key]
  {
    GetOr(d, key, JNull)
  }

  /** `d.get(key, default)`: a stored JSON null is returned as None, not
      replaced by the default. */
  function GetOr(d: map<string, Json>, key: string, default: Json): Json
  {
    if key in d then d[key] else default
  }

  /** The value of a JSON value that Python's arithmetic and comparisons
      accept: int, float, and bool (a subclass of int). */
  function AsNumber(j: Json): Option<real>
  {
    match j
    case JNum(n) => Some(n)
    case JBool(b) => Some(if b then 1.0 else 0.0)
    case _ => None
  }

  predicate IsNumber(j: Json)
  {
    AsNumber(j).Some?
  }

  /** Python truthiness of a decoded value: only None, False, zero and the
      empty str, list and dict are false. */
  predicate Truthy(j: Json)
    ensures !Truthy(j) <==>
              j == JNull || j == JBool(false) || j == JNum(0.0) || j == JStr([]) || j == JArr([]) || j == JObj(map[])
  {
    match j
    case JNull => false
    case JBool(b) => b
    case JNum(n) => n != 0.0
    case JStr(s) => s != []
    case JArr(items) => items != []
    case JObj(fields) => fields != map[]
  }

  /** `j <= bound` against a float: an int, a float or a bool (as 1 or 0)
      is compared; comparing None, a str, a list or a dict with a number
      raises TypeError. */
  function AtMost(j: Json, bound: real): (r: Outcome<bool>)
    ensures r.Raise? <==> j.JNull? || j.JStr? || j.JArr? || j.JObj?
    ensures j.JNum? ==> r == Ok(j.n <= bound)
    ensures j.JBool? ==> r == Ok(if j.b then 1.0 <= bound else 0.0 <= bound)
  {
    match AsNumber(j)
    case Some(x) => Ok(x <= bound)
    case None => Raise
  }

  /** `j >= bound` against a float. */
  function AtLeast(j: Json, bound: real): (r: Outcome<bool>)
    ensures r.Raise? <==> j.JNull? || j.JStr? || j.JArr? || j.JObj?
    ensures j.JNum? ==> r == Ok(j.n >= bound)
    ensures j.JBool? ==> r == Ok(if j.b then 1.0 >= bound else 0.0 >= bound)
  {
    match AsNumber(j)
    case Some(x) => Ok(x >= bound)
    case None => Raise
  }

  /** `j > bound` against a number. */
  function Above(j: Json, bound: real): (r: Outcome<bool>)
    ensures r.Raise? <==> j.JNull? || j.JStr? || j.JArr? || j.JObj?
    ensures j.JNum? ==> r == Ok(j.n > bound)
    ensures j.JBool? ==> r == Ok(if j.b then 1.0 > bound else 0.0 > bound)
  {
    match AsNumber(j)
    case Some(x) => Ok(x > bound)
    case None => Raise
  }

  /** Python's `needle in hay` on two strings: a contiguous, case-sensitive
      substring test. It holds exactly when the needle starts at some
      position of the string, so a needle longer than the string, or one
      whose first character is not in it, is never found. */
  function Contains(hay: string, needle: string): (r: bool)
    ensures r <==> exists i :: 0 <= i <= |hay| && needle <= hay[i..]
    ensures r ==> |needle| <= |hay|
    ensures r && needle != [] ==> needle[0] in hay
  {
    assert hay[0..] == hay;
    if needle <= hay then true
    else if hay == [] then false
    else
      assert forall j :: 0 <= j <= |hay| - 1 ==> hay[1..][j..] == hay[j + 1..];
      assert forall i :: 1 <= i <= |hay| ==> hay[i..] == hay[1..][i - 1..];
      Contains(hay[1..], needle)
  }

  /** Python's `needle in container` for a str needle: a substring test on a
      str, element equality on a list, key membership on a dict; on None, a
      number or a bool it raises TypeError. */
  function In(needle: string, container: Json): (r: Outcome<bool>)
    ensures r.Raise? <==> container.JNull? || container.JBool? || container.JNum?
    ensures container.JStr? ==>
              (r == Ok(true) <==> exists i :: 0 <= i <= |container.s| && needle <= container.s[i..])
    ensures container.JArr? ==>
              (r == Ok(true) <==> exists k :: 0 <= k < |container.items| && container.items[k] == JStr(needle))
    ensures container.JObj? ==> (r == Ok(true) <==> needle in container.fields)
  {
    match container
    case JStr(s) => Ok(Contains(s, needle))
    case JArr(items) => Ok(JStr(needle) in items)
    case JObj(fields) => Ok(needle in fields)
    case _ => Raise
  }
}
