/**
 * Values shared by the whole model: Java's nullable references as Option,
 * results that may carry an exception, bytes, and the exceptions the
 * install-proposal builder raises.
 */
module Base {

  /** A Java reference that may be null: None stands for null. */
  datatype Option<+T> = None | Some(value: T)

  /** The outcome of a step that either yields a value or throws. */
  datatype Result<+T, +E> = Success(value: T) | Failure(error: E)

  /** The outcome of a void step that either returns or throws. */
  datatype Outcome<+E> = Pass | Fail(error: E)

  newtype byte = x: int | 0 <= x < 256

  /** A byte[] or a protobuf ByteString. */
  type Bytes = seq<byte>

  /** The Java exceptions the builder and its collaborators throw. */
  datatype Exception =
    | IllegalArgument(message: string)
    | UnsupportedOperation(message: string)
    | NullPointer
    | IOFailure(detail: string)

  /** The checked exception every failure is wrapped in before it leaves the builder. */
  datatype ProposalException = ProposalException(message: string, cause: Exception)

  /** Netty's StringUtil.isNullOrEmpty. */
  predicate IsNullOrEmpty(s: Option<string>)
  {
    s.None? || s.value == ""
  }
}
