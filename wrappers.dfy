/** Optional values (JavaScript's `undefined`/`null`) and thrown errors. */
module Wrappers {

  /** A value that may be absent: `undefined` or `null` in the source. */
  datatype Option<+T> = None | Some(value: T) {

    /** The value, or `default` when absent (the source's `??`). */
    function GetOr(default: T): T {
      match this
      case Some(v) => v
      case None => default
    }
  }

  /** The outcome of a call that may throw: the thrown error's message is kept. */
  datatype Result<+T> = Ok(value: T) | Err(message: string)
}
