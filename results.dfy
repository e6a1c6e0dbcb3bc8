/** Outcome wrappers shared by the model: a value or the reason it could not be produced. */
module Results {

  datatype Option<+T> = None | Some(value: T)

  datatype Result<+T, +E> = Ok(value: T) | Err(error: E)
}
