/** Shared value types: optional values (Java's nullable references), the outcome
    of a service call, the exceptions the services throw, and the answer of the
    upstream HTTP source. */
module Common {

  /** A Java reference that may be null: None stands for null. */
  datatype Option<+T> = None | Some(value: T)

  /** The exceptions the core throws, one constructor per exception class. */
  datatype Failure =
    | UserNotFound       // UserNotFoundException
    | RoleNotAccepted    // RoleNotAcepted
    | ParamInvalid       // ParamException
    | RepositoryFailure  // RepositoryException
    | SourceFailure      // RetrofitException raised by the upstream lookup
    | IllegalArgument    // IllegalArgumentException
    | NullReference      // NullPointerException

  /** A service call either returns a value or throws one of the exceptions above. */
  datatype Result<+T> = Ok(value: T) | Err(error: Failure)

  /** What one call to the upstream HTTP source gives back: a successful response
      whose body may be null, or a failure (non-2xx status or I/O error), which the
      Retrofit wrappers turn into a RetrofitException. */
  datatype Fetch<+T> = Answered(body: Option<T>) | Failed
}
