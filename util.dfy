/** Small value types shared by every part of the model: an optional value
    (TypeScript's `T | null | undefined`), the outcome of a call to the backend,
    and the JavaScript truthiness rules the components rely on. */
module Util {

  datatype Option<+T> = None | Some(value: T)

  /** A value, or the error a component throws instead of producing one. */
  datatype Result<+T, +E> = Success(value: T) | Failure(error: E)

  /** What an awaited backend call produced: the response data, or a rejection
      carrying the server's optional `response.data.message`. */
  datatype Reply<+T> = Ok(value: T) | Failed(serverMessage: Option<string>)

  /** `s || fallback` for a string that may be absent: absent and empty strings are falsy. */
  function OrElse(s: Option<string>, fallback: string): (r: string)
    ensures s.Some? && s.value != "" ==> r == s.value
    ensures s.None? || s.value == "" ==> r == fallback
  {
    if s.Some? && s.value != "" then s.value else fallback
  }

  /** `s.slice(0, n)`: at most the first n characters. */
  function Prefix(s: string, n: nat): (r: string)
    ensures |r| <= n && |r| <= |s|
    ensures |s| <= n ==> r == s
    ensures r <= s
  {
    if |s| <= n then s else s[..n]
  }
}
