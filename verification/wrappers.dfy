/** Optional values and the one failure the producers can raise. */
module Wrappers {

  /** Python's `X | None`. */
  datatype Option<+T> = None | Some(value: T)

  /** A bundled asset that `importlib.resources` cannot find. */
  datatype Error = ResourceMissing(path: string)

  /** A value, or the exception raised while computing it. */
  datatype Result<+T> = Ok(value: T) | Err(error: Error)
}
