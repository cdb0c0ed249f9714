/** Optional values and store results shared by every component of the model. */
module Wrappers {

  /** A value that may be absent (a JavaScript `null` / `undefined`). */
  datatype Option<+T> = None | Some(value: T) {
    function GetOr(default: T): (r: T)
      ensures Some? ==> r == value
      ensures None? ==> r == default
    {
      match this
      case Some(v) => v
      case None => default
    }
  }

  /** The outcome of a call into the hosted record store. */
  datatype Result<+T, +E> = Ok(value: T) | Err(error: E)

  /**
   * What a rejected store call carries. The hooks turn it into text with
   * `err instanceof Error ? err.message : 'An error occurred'`, so whether
   * the thrown value is an `Error` instance is part of the input.
   */
  datatype StoreError = StoreError(isErrorInstance: bool, message: string)

  const GenericError: string := "An error occurred"

  function ErrorText(e: StoreError): (r: string)
    ensures e.isErrorInstance ==> r == e.message
    ensures !e.isErrorInstance ==> r == GenericError
  {
    if e.isErrorInstance then e.message else GenericError
  }

  /** JavaScript truthiness of an optional string: present and non-empty. */
  predicate TruthyString(s: Option<string>) {
    s.Some? && s.value != ""
  }

  /** JavaScript truthiness of an optional number. */
  predicate TruthyInt(n: Option<int>) {
    n.Some? && n.value != 0
  }

  /** `s || fallback` for an optional string. */
  function OrString(s: Option<string>, fallback: string): (r: string)
    ensures TruthyString(s) ==> r == s.value
    ensures !TruthyString(s) ==> r == fallback
  {
    if TruthyString(s) then s.value else fallback
  }

  /** `n || fallback` for an optional number. */
  function OrInt(n: Option<int>, fallback: int): (r: int)
    ensures TruthyInt(n) ==> r == n.value
    ensures !TruthyInt(n) ==> r == fallback
  {
    if TruthyInt(n) then n.value else fallback
  }
}
