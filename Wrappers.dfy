/** Present/absent values (Java's null and Optional) and results that may carry the
    exception a Java method would throw. */
module Wrappers {

  datatype Option<+T> = None | Some(value: T) {
    function GetOr(default: T): T {
      match this
      case Some(v) => v
      case None => default
    }
  }

  /** The exceptions the modelled code can raise. */
  datatype Error =
    | NullPointer(message: string)        // requireNonNull, Optional.of(null)
    | IllegalArgument(message: string)    // Enum.valueOf, uniqueIndex on a duplicate key, switch default

  datatype Result<+T> = Ok(value: T) | Err(error: Error)
}
