/** Success/failure results, standing for the exceptions the C# code throws. */
module Results {

  datatype Result<+T, +E> = Success(value: T) | Failure(error: E)

  /** The outcome of a number parse: a value, or the `FormatException` it throws. */
  datatype Option<+T> = None | Some(value: T)
}
