/** Failure-carrying results shared by the model's modules. */
module Wrappers {

  datatype Option<+T> = None | Some(value: T)

  /** `Err` stands for an exception the Python code would raise (an assertion or a shape error). */
  datatype Result<+T> = Ok(value: T) | Err(error: string)
}
