/** Optional values and fallible results, used for the `Option` fields of a plot
    and for the assertions and panics of the library, which the model reports
    as errors instead of aborting. */
module Wrappers {

  datatype Option<+T> = None | Some(value: T)

  datatype Result<+T, +E> = Ok(value: T) | Err(error: E)
}
