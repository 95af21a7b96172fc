/** Absence and failure, as the TypeScript code expresses them with `undefined`, `null` and exceptions. */
module Wrappers {

  /** A value that may be missing: `undefined` or `null` on the TypeScript side. */
  datatype Option<+T> = None | Some(value: T)

  /** The outcome of evaluating an expression that may throw a `TypeError`. */
  datatype Result<+T> = Ok(value: T) | TypeError
}
