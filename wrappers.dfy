/** An optional value: the model's rendering of C#'s nullable results. */
module Wrappers {

  datatype Option<+T> = None | Some(value: T)
}
