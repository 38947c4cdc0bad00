/** The optional value used across the model for `null`-able results. */
module Optional {

  datatype Option<T> = None | Some(value: T)
}
