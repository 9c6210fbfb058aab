/** The optional value a parse returns: `None` stands for Kotlin's `null`. */
module Wrappers {

  datatype Option<+T> = None | Some(value: T)
}
