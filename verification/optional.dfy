/** Failure-aware wrappers shared by the whole model: Java's nullable references and thrown exceptions. */
module Optional {

  /** A nullable Java reference: None stands for null. */
  datatype Option<+T> = None | Some(value: T)

  /** The outcome of a step that either yields a value or throws. */
  datatype Result<+T, +E> = Success(value: T) | Failure(error: E)
}
