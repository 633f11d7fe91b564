/** An optional value: the model's stand-in for Swift's `Optional` and for failing decodes. */
module Wrappers {

  datatype Option<+T> = None | Some(value: T)
}
