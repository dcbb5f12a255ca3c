/** The optional-value datatype shared by the chat model: a JavaScript value
    that may be `null` or `undefined` is an `Option`. */
module Wrappers {

  datatype Option<+T> = None | Some(value: T)
}
