/** Option and Result values, used where the modelled code returns None or raises. */
module Wrappers {

  datatype Option<T> = None | Some(value: T)

  /** `Err` stands for an exception or a failed `assert` in the modelled code. */
  datatype Result<T, E> = Ok(value: T) | Err(error: E)
}
