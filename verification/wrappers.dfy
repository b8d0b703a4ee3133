/** Failure-carrying datatypes shared by every module of the model, and the
    exceptions the monitored Python code can raise. */
module Wrappers {

  datatype Option<+T> = None | Some(value: T)

  /** A computation that either returns a value or raises an exception. */
  datatype Result<+R, +E> = Success(value: R) | Failure(error: E)

  /** The exceptions the modelled code raises or lets escape.  Each one stands
      for the Python exception class that would be raised at that point. */
  datatype Exception =
    | ValueError(message: string)     // explicit `raise ValueError(...)`
    | KeyError(key: string)           // a missing dictionary entry
    | TransportError                  // `requests.get` failed
    | StorageError                    // writing the payload file failed
    | CoordinateError                 // `parse_coordinates` rejected its input
    | PrintTypeError                  // `print(value=...)` is not a valid call
    | AttributeError(name: string)    // an attribute that was never assigned
}
