/** Failure-carrying wrappers and the one piece of Python truthiness the
    relay relies on: `a or b` where `a` is an optional string. */
module Wrappers {

  datatype Option<+T> = None | Some(value: T)

  datatype Result<+R, +E> = Success(value: R) | Failure(error: E)

  /** True when Python treats the optional string as true: present and non-empty. */
  predicate Truthy(a: Option<string>) {
    a.Some? && a.value != ""
  }

  /** Python's `a or b` for `a: Optional[str]`, `b: str`: `a` itself when it is
      truthy, otherwise `b`. */
  function Or(a: Option<string>, b: string): (r: string)
    ensures Truthy(a) ==> Some(r) == a
    ensures !Truthy(a) ==> r == b
    ensures r == "" ==> b == ""
  {
    if Truthy(a) then a.value else b
  }
}
