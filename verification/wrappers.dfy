/** The absent-or-present wrapper used for readings that may be missing. */
module Wrappers {

  /** `None` stands for a field that is empty or does not parse as a number
      (JavaScript `null` or `NaN`); `Some(v)` for a parsed value. */
  datatype Option<+T> = None | Some(value: T)
}
