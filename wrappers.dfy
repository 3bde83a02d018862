/**
 * Option and Result values used for the optional fields and the error paths
 * of the model, and the "value or default" idiom of the application, which
 * treats an absent value and a zero or empty one alike (`x || d`).
 */
module Wrappers {

  datatype Option<+T> = None | Some(value: T) {
    function GetOr(default: T): T {
      match this
      case Some(v) => v
      case None => default
    }
  }

  datatype Result<+R, +E> = Success(value: R) | Failure(error: E)

  /** `n || d` on an optional number: absent and zero both give `d`. */
  function NumberOr(n: Option<int>, d: int): int
  {
    if n.Some? && n.value != 0 then n.value else d
  }

  /** `s || d` on an optional string: absent and empty both give `d`. */
  function TextOr(s: Option<string>, d: string): string
  {
    if s.Some? && s.value != "" then s.value else d
  }

  /** An optional flag tested for truth: only a present `true` counts. */
  predicate Truthy(b: Option<bool>)
  {
    b == Some(true)
  }
}
