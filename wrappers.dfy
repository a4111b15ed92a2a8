/** Option: the value of a computation that either finishes or raises.
    Throughout the model `None` stands for "a Python exception was raised here". */
module Wrappers {

  datatype Option<+T> = None | Some(value: T)
}
