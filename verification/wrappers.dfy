/** The optional-value datatype used across the model: an absent credentials
    signal, a missing priority label, a request that is never built. */
module Wrappers {

  datatype Option<+T> = None | Some(value: T)
}
