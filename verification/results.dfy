/** Failure-carrying return types: `Option` for a conversion that either
    succeeds or does not, `Result` for one whose failure names an error. */
module Results {

  datatype Option<+T> = None | Some(value: T)

  datatype Result<+T, +E> = Ok(value: T) | Err(error: E)
}
