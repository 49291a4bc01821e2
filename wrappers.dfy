/** The optional value used for the source's `undefined` / `null` fields. */
module Wrappers {

  datatype Option<+T> = None | Some(value: T)

  /** A field of a partial-update request: left out (`undefined`), sent as `null`, or given. */
  datatype Patch<+T> = Unset | SetNull | SetTo(value: T) {
    predicate Given() { !Unset? }
  }
}
