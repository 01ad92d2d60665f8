/** Optional values, and results that may carry an error, used by the
    delivery-amount model. */
module Wrappers {

  /** An optional value, in place of a nullable reference. */
  datatype Option<+T> = None | Some(value: T)

  /** The outcome of an operation that may reject its inputs. */
  datatype Result<+R, +E> = Ok(value: R) | Err(error: E)
}
