/** Outcome types shared by the service's modules. */
module Common {

  datatype Option<T> = None | Some(value: T)

  /** A step that either returns a value or raises a Python exception,
      named by its class. */
  datatype Outcome<T> = Ok(value: T) | Raised(error: string)
}
