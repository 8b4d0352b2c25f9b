/** Optional values and fallible results, as the watermark's options and constructor use them. */
module Wrappers {

  /** A value that may be absent: an optional field of an options object (`undefined` when None). */
  datatype Option<+T> = None | Some(value: T) {

    /** The `x = default` of a destructuring pattern: the value when present, otherwise the default. */
    function GetOr(default: T): T
    {
      if Some? then value else default
    }
  }

  /** The outcome of an operation that may throw: the value, or the thrown error's message. */
  datatype Result<+T> = Ok(value: T) | Err(message: string)
}
