/** Option and error-carrying results, standing for Python's None and raised exceptions. */
module Wrappers {

  datatype Option<+T> = None | Some(value: T)

  /** The exceptions the lookup library raises on misuse. */
  datatype Error =
    | ValueError    // a None member or key, or removing a listener/pair that is not there
    | KeyError      // removing a pair that is not in a set or a dictionary
    | RuntimeError  // re-attaching a Content, or modifying a lookup during a transaction

  /** Either a value or the exception that was raised instead. */
  datatype Result<+T> = Success(value: T) | Failure(error: Error)

  /** An operation that returns nothing but may raise. */
  datatype Outcome = Pass | Fail(error: Error)
}
