/** Small failure-carrying and patch datatypes shared by every module of the model. */
module Wrappers {

  /** A value that may be missing: JavaScript's `null`/`undefined` for a single value. */
  datatype Option<+T> = None | Some(value: T)

  /** The result of an operation that either returns a value or throws. */
  datatype Result<+T, +E> = Ok(value: T) | Err(error: E)

  /** The result of an operation that returns nothing or throws. */
  datatype Outcome<+E> = Pass | Fail(error: E)

  /** One field of a `Partial<...>` argument: the key is absent (`Keep`) or carries a value (`Put`). */
  datatype Patch<+T> = Keep | Put(value: T)

  /** The value a field has after `{ ...current, ...patch }`. */
  function Patched<T>(current: T, p: Patch<T>): (r: T)
    ensures p.Keep? ==> r == current
    ensures p.Put? ==> r == p.value
  {
    match p
    case Keep => current
    case Put(v) => v
  }
}
