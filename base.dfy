/** Value wrappers shared by every module of the model. */
module Base {

  /** A value that may be missing (a nullable column, an absent search parameter). */
  datatype Option<T> = None | Some(value: T)

  /** The outcome of an operation that can fail with an error of type E. */
  datatype Result<T, E> = Ok(value: T) | Err(error: E)

  /** Row identifiers. The database fills them with random UUIDs; here they are naturals. */
  type Id = nat

  /** Timestamps (`timestamp with time zone`), as an abstract ordered value. */
  type Timestamp = int
}
