/** Failure-compatible wrappers shared by every module of the model. */
module Wrappers {

  datatype Option<+T> = None | Some(value: T)

  /** A thrown JavaScript error is modelled by its message. */
  datatype Result<+T> = Ok(value: T) | Err(error: string) {
    predicate IsFailure() { Err? }
    function PropagateFailure<U>(): Result<U> requires Err? { Err(error) }
    function Extract(): T requires Ok? { value }
  }

  /** An argument the source checks with `Array.isArray`: left undefined (the
      default `[]` applies), an array, or some other value. */
  datatype ArrayArg<+T> = Missing | Given(items: seq<T>) | NotAnArray {
    /** The array the function works on once the check has passed. */
    function Elements(): seq<T>
      requires !NotAnArray?
    {
      if Given? then items else []
    }
  }

  /** JavaScript truthiness of an optional string: present and non-empty. */
  predicate Truthy(s: Option<string>) {
    s.Some? && s.value != ""
  }

  /** `s || fallback` (and `s ? s : fallback`) on an optional string. */
  function OrElse(s: Option<string>, fallback: string): (r: string)
    ensures Truthy(s) ==> r == s.value
    ensures !Truthy(s) ==> r == fallback
  {
    if Truthy(s) then s.value else fallback
  }

  /** `s ?? fallback`: only a missing value is replaced. */
  function OrDefault(s: Option<string>, fallback: string): (r: string)
    ensures s.Some? ==> r == s.value
    ensures s.None? ==> r == fallback
  {
    if s.Some? then s.value else fallback
  }
}
