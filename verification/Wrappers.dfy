/** Result types shared by the models: a missing value, or a Python exception. */
module Wrappers {
  datatype Option<+T> = None | Some(value: T)

  /** `Err` stands for a raised exception; the model does not keep its message. */
  datatype Result<+T> = Ok(value: T) | Err

  /**
   * The key of a sealed fact. A fact kept as `forall key | Ask(key) :: ...` comes into
   * play only where `Ask(true)` is asserted, and not in every proof that mentions it.
   */
  predicate Ask(key: bool) {
    key
  }
}
