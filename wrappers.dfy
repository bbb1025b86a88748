/** Optional values and results that carry a CLR exception instead of a value. */
module Wrappers {
  import opened Clr

  datatype Option<+T> = None | Some(value: T)

  /** The outcome of C# code that either returns a value or throws. */
  datatype Result<+T> = Ok(value: T) | Throws(exception: Exception)
}
