/**
 * A JSON value as Python's `json.loads` hands it to the provider adapters
 * (RFC 8259 values: null, true/false, numbers, strings, arrays, objects),
 * with the two Python operations the adapters apply to it: subscripting by a
 * key and iterating in a `for` loop.
 */
module Json {
  import opened Wrappers

  /**
   * A JSON object is a map: `json.loads` keeps the last of duplicate keys,
   * and nothing the adapters do depends on the order of an object's keys.
   */
  datatype Json =
    | Null
    | Bool(b: bool)
    | Number(n: real)
    | String(s: string)
    | Array(items: seq<Json>)
    | Object(members: map<string, Json>)

  /**
   * Python's `j[key]` for a string key: the member of an object, or None where
   * Python raises KeyError (no such member) or TypeError (not an object).
   */
  function Get(j: Json, key: string): (r: Option<Json>)
    ensures r.Some? <==> j.Object? && key in j.members
  {
    if j.Object? && key in j.members then Some(j.members[key]) else None
  }

  /**
   * The items a Python `for` loop visits in a JSON value that iterates as a
   * sequence: the elements of an array, the characters of a string (each a
   * one-character string). None where Python raises TypeError (null, booleans
   * and numbers are not iterable). Objects iterate over their keys; the
   * adapters treat that case on its own.
   */
  function Elements(j: Json): (r: Option<seq<Json>>)
    requires !j.Object?
    ensures r.Some? <==> j.Array? || j.String?
    ensures j.Array? ==> r == Some(j.items)
    ensures j.String? ==>
              (r.Some? && |r.value| == |j.s| && forall i :: 0 <= i < |j.s| ==> r.value[i] == String([j.s[i]]))
  {
    match j
    case Array(items) => Some(items)
    case String(s) => Some(seq(|s|, i requires 0 <= i < |s| => String([s[i]])))
    case _ => None
  }

  /**
   * Python's `j >= n` for an integer `n`: numbers compare by value and
   * booleans as 0 and 1; None where Python raises TypeError.
   */
  function AtLeast(j: Json, n: int): (r: Option<bool>)
    ensures r.Some? <==> j.Number? || j.Bool?
    ensures j.Number? ==> r == Some(j.n >= n as real)
    ensures j.Bool? ==> r == Some((if j.b then 1 else 0) >= n)
  {
    match j
    case Number(x) => Some(x >= n as real)
    case Bool(b) => Some((if b then 1 else 0) >= n)
    case _ => None
  }
}
