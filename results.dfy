/** Failure-carrying values shared by every module of the model. */
module Results {

  datatype Option<+T> = None | Some(value: T)

  /** The outcome of a Python computation that either returns a value or raises.
      `error` is the text the model keeps in place of the exception. */
  datatype Result<+T> = Ok(value: T) | Err(error: string)
}
