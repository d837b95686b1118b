/** The one optional-value type the components need: a JavaScript value that
    may be `null`/`undefined` (None) or present (Some). */
module Wrappers {
  datatype Option<+T> = None | Some(value: T)
}
