/** The outcome of a step of the prediction that may raise an exception. */
module Outcomes {

  /** Either the value the step produced, or the text of the exception it raised
      (the `str(e)` the catch-all handler of `predict_image` reports). */
  datatype Result<T> = Ok(value: T) | Raised(message: string)
}
