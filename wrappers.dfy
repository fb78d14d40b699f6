/** Failure-carrying results shared by every component of the model. */
module Wrappers {

  datatype Option<+T> = None | Some(value: T)

  /** The two exceptions the engine raises to its callers. */
  datatype Error =
    | InvalidZipCode       // the cleared zip does not have the country's length
    | WebServicesNotFound  // an unknown country id or web-service name

  datatype Result<+T> = Ok(value: T) | Err(error: Error)
}
