/** Option and error-carrying result types shared by the whole model. */
module Wrappers {

  /** Python's `None` or a present value. */
  datatype Option<+T> = None | Some(value: T)

  /** The Python exceptions that the modelled code can raise. */
  datatype PyError =
    | ValueError   // `min()` of an empty list, a strategy that was never set
    | IndexError   // indexing or `random.choice` on an empty list
    | TypeError    // indexing `None`, such as an empty play slot

  /** A call that either returns a value or raises. */
  datatype Result<+T> = Ok(value: T) | Err(error: PyError)

  /** A call that returns nothing or raises. */
  datatype Outcome = Done | Raised(error: PyError)
}
