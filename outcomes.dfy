/** Outcomes of the collaborators the pipeline calls but that are not modelled
    (temporary files, copying, mime sniffing, image processing, the store
    backends, the HTTP client), and results with an error value. */
module Outcomes {

  /** The outcome of an external step: it yields a value or it fails. The
      model never inspects why it failed; the caller only branches on it. */
  datatype Outcome<+T> = Ok(value: T) | Fail

  /** An optional value. */
  datatype Option<+T> = None | Some(value: T)

  /** A result carrying either a value or an error of the model's own. */
  datatype Result<+T, +E> = Success(value: T) | Failure(error: E)
}
