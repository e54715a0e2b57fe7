/** Small failure-carrying datatypes shared by the models. */
module Options {

  /** A value that may be absent; also stands for a Python attribute that
      may not have been set yet (`hasattr` is false for `None`). */
  datatype Option<+T> = None | Some(value: T)

  /** The outcome of a call that either completes or raises `error`. */
  datatype Outcome<+E> = Pass | Fail(error: E)
}
