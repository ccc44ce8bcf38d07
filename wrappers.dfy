/** The optional value the tokenizer returns: a style, or JavaScript's `null`. */
module Wrappers {

  datatype Option<+T> = None | Some(value: T)
}
