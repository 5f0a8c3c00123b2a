/**
 * Optional values. In a product field `None` stands for JavaScript's
 * `undefined`; each function returning an `Option` says what `None` means
 * there (no match, a thrown error, or `NaN` for a price).
 */
module Wrappers {

  datatype Option<+T> = None | Some(value: T)
}
