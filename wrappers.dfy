/** Optional values and results, used for the source's missing keys (a
    Python KeyError or a None) and for operations that raise. */
module Wrappers {

  datatype Option<+T> = None | Some(value: T)

  datatype Result<+T, +E> = Success(value: T) | Failure(error: E)

  /** How a loop over documents ends: it ran to the end, or an exception
      stopped it, keeping every write made before. */
  datatype Run<+T> = Running(value: T) | Stopped(value: T)
}
