// Small vocabulary shared by the models.
module Common {

  datatype Option<+T> = None | Some(value: T)

  /** A store call either answers with a value or refuses and leaves the store alone. */
  datatype Result<+T> = Ok(value: T) | Refused
}
