/** Option and Result, the failure-carrying values used across the model. */
module Wrappers {

  datatype Option<+T> = None | Some(value: T)

  datatype Result<+T, +E> = Success(value: T) | Failure(error: E)
}

/** The fatal conditions of the firmware. The source aborts the process with
    `panic!`, `unwrap` or `expect` at each of them; the model returns them as
    values so that the state reached before the abort can be stated. */
module Panics {

  datatype Panic =
    | ResourceNotFound     // a shader, texture or configuration file is missing
    | DecodeError          // the texture image could not be opened or decoded
    | BindingNotFound      // an attribute or uniform name did not resolve
    | InvalidArity         // a uniform payload with 0 or more than 4 elements
    | InvalidSamplerIndex  // a texture unit outside 0..7
    | IndexOutOfBounds     // fewer command lists than shader stages
    | MalformedLine        // a configuration line that is not `Key = Value`
    | ParseFailure         // a configuration value that is not a float
}
