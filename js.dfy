/** The few pieces of JavaScript value semantics the handlers rely on:
    optional fields (`undefined`/`null`), truthiness of strings and numbers,
    `a || b` defaulting, and how a template literal prints a missing value. */
module Js {

  /** A field that may be `undefined` or `null`. */
  datatype Option<+T> = None | Some(value: T)

  /** `!!s` for a string field: present and not the empty string. */
  predicate Truthy(s: Option<string>)
  {
    s.Some? && s.value != ""
  }

  /** `!!n` for a numeric field: present and not zero. */
  predicate TruthyNum(n: Option<int>)
  {
    n.Some? && n.value != 0
  }

  /** `s || fallback` for a string field. */
  function OrElse(s: Option<string>, fallback: string): (r: string)
    ensures Truthy(s) ==> r == s.value
    ensures !Truthy(s) ==> r == fallback
  {
    if Truthy(s) then s.value else fallback
  }

  /** `a || b` for two string fields: the first truthy one, else `b` as it is. */
  function Or(a: Option<string>, b: Option<string>): (r: Option<string>)
    ensures Truthy(a) ==> r == a
    ensures !Truthy(a) ==> r == b
  {
    if Truthy(a) then a else b
  }

  /** `a || b` for two numeric fields: the first truthy one, else `b` as it is. */
  function OrNum(a: Option<int>, b: Option<int>): (r: Option<int>)
    ensures TruthyNum(a) ==> r == a
    ensures !TruthyNum(a) ==> r == b
  {
    if TruthyNum(a) then a else b
  }

  /** `n || fallback` for a numeric field. */
  function OrElseNum(n: Option<int>, fallback: int): (r: int)
    ensures TruthyNum(n) ==> r == n.value
    ensures !TruthyNum(n) ==> r == fallback
  {
    if TruthyNum(n) then n.value else fallback
  }

  /** `${s}` in a template literal: a missing value prints as "undefined". */
  function Show(s: Option<string>): (r: string)
    ensures s.Some? ==> r == s.value
    ensures s.None? ==> r == "undefined"
  {
    match s
    case Some(v) => v
    case None => "undefined"
  }

  /** A character outside the Basic Multilingual Plane, which UTF-16 writes
      as a surrogate pair. */
  predicate Astral(c: char)
  {
    c as int > 0xFFFF
  }

  /** `s.length`: the number of UTF-16 code units, so an astral character
      counts twice and a string without one has its own length. */
  function Length(s: string): (n: nat)
    ensures |s| <= n <= 2 * |s|
    ensures (forall i :: 0 <= i < |s| ==> !Astral(s[i])) ==> n == |s|
    decreases |s|
  {
    if s == [] then 0
    else (if Astral(s[|s| - 1]) then 2 else 1) + Length(s[..|s| - 1])
  }
}

/** HTTP responses as the serverless handlers produce them. */
module Http {

  /** `res.status(code).json(body)`; `res.status(200).end()` uses an empty body. */
  datatype Response<B> = Response(status: int, body: B)

  const OK: int := 200
  const BAD_REQUEST: int := 400
  const UNAUTHORIZED: int := 401
  const NOT_FOUND: int := 404
  const METHOD_NOT_ALLOWED: int := 405
  const SERVER_ERROR: int := 500
}
