/** A small Option type, used where the model needs "maybe a value". */
module Wrappers {
  datatype Option<+T> = None | Some(value: T)
}
