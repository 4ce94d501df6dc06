/** The optional value used for parse results and the wallet screen's error message. */
module Wrappers {

  /** `None` plays the role of Kotlin's `null`. */
  datatype Option<+T> = None | Some(value: T)
}
