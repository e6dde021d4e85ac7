/** Outcomes of the operations that can fail in the source, instead of the
    exceptions (or NaN results) the Python code produces. */
module Results {

  /** The failure kinds the modelled operations can raise. */
  datatype Error =
    | EmptyInput     // no parties / no clients / no samples to work on
    | ShapeMismatch  // the parties' matrices do not all have one shape

  datatype Result<T> = Success(value: T) | Failure(error: Error)

  datatype Option<T> = None | Some(value: T)
}
