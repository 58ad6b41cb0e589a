/** Optional values and results with an error, standing for Java's null and thrown exceptions. */
module Wrappers {

  /** `None` stands for a Java `null` reference or an absent property. */
  datatype Option<T> = None | Some(value: T)

  /** `Failure` stands for an operation that ends by throwing `error`. */
  datatype Result<T, E> = Success(value: T) | Failure(error: E)

  /** The Java exceptions the modelled code throws or wraps. */
  datatype Exception =
    | RuntimeException(message: string)
    | IllegalArgumentException(message: string)
    | IOException(message: string)
    | ChannelException(message: string, cause: Exception)
}
