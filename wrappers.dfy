/** Small failure-carrying datatypes shared by the other modules. */
module Wrappers {

  /** A value that may be missing: `undefined`, `null` or "no element" on the JavaScript side. */
  datatype Option<+T> = None | Some(value: T)

  /** The settlement of an async operation that returns nothing: it resolves (Pass) or rejects (Fail). */
  datatype Outcome<+E> = Pass | Fail(error: E)
}
