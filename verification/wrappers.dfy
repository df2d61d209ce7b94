/** The optional value used throughout the model: `None` stands for a call that
    the compiler would reject, `Some(v)` for one that resolves and yields `v`. */
module Wrappers {

  datatype Option<+T> = None | Some(value: T)
}
