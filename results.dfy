/** Failure-carrying values shared by the other modules. */
module Results {

  datatype Option<T> = None | Some(value: T)

  /** `Err` carries a short description of what the source would raise:
      the name of a missing column for a KeyError, or the exception's name. */
  datatype Result<T> = Ok(value: T) | Err(error: string)
}
