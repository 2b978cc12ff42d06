/**
 * The CLI's typed errors: an error kind, the operation that failed, a
 * message and an optional cause. A Go `error` that is not one of these is
 * known to the model only by its text.
 */
module StarterErrors {
  import opened Wrappers
  import opened Text

  datatype ErrorType = Validation | Docker | FileSystem | Network | Plugin | Configuration | Internal

  /** The string value of each `ErrorType` constant. */
  function TypeName(t: ErrorType): string
  {
    match t
    case Validation => "validation"
    case Docker => "docker"
    case FileSystem => "filesystem"
    case Network => "network"
    case Plugin => "plugin"
    case Configuration => "configuration"
    case Internal => "internal"
  }

  /** The seven kinds have seven different names. */
  lemma TypeNamesDistinct(s: ErrorType, t: ErrorType)
    requires TypeName(s) == TypeName(t)
    ensures s == t
  {
  }

  /** A Go `error`: a `*CMSError`, or any other error with its `Error()` text. */
  datatype Error =
    | Foreign(text: string)
    | CMSError(ty: ErrorType, message: string, operation: string, cause: Option<Error>)

  /** `Error()`: "operation: message", with " (caused by: cause)" when there is a cause. */
  function ErrorText(e: Error): (s: string)
    ensures e.CMSError? ==> (s == e.operation + ": " + e.message <==> e.cause.None?)
    ensures e.CMSError? ==> HasPrefix(s, e.operation + ": " + e.message)
  {
    match e
    case Foreign(text) => text
    case CMSError(_, message, operation, None) => operation + ": " + message
    case CMSError(_, message, operation, Some(c)) => operation + ": " + message + " (caused by: " + ErrorText(c) + ")"
  }

  /** `Unwrap()`: the cause of a `*CMSError`; other errors are not looked into. */
  function Unwrap(e: Error): Option<Error>
  {
    if e.CMSError? then e.cause else None
  }

  function New(t: ErrorType, operation: string, message: string): Error
  {
    CMSError(t, message, operation, None)
  }

  function Wrap(err: Error, t: ErrorType, operation: string, message: string): Error
  {
    CMSError(t, message, operation, Some(err))
  }

  function NewValidationError(operation: string, message: string): Error { New(Validation, operation, message) }
  function WrapValidationError(err: Error, operation: string, message: string): Error { Wrap(err, Validation, operation, message) }
  function NewDockerError(operation: string, message: string): Error { New(Docker, operation, message) }
  function WrapDockerError(err: Error, operation: string, message: string): Error { Wrap(err, Docker, operation, message) }
  function NewFileSystemError(operation: string, message: string): Error { New(FileSystem, operation, message) }
  function WrapFileSystemError(err: Error, operation: string, message: string): Error { Wrap(err, FileSystem, operation, message) }
  function NewPluginError(operation: string, message: string): Error { New(Plugin, operation, message) }
  function WrapPluginError(err: Error, operation: string, message: string): Error { Wrap(err, Plugin, operation, message) }
  function NewConfigurationError(operation: string, message: string): Error { New(Configuration, operation, message) }
  function WrapConfigurationError(err: Error, operation: string, message: string): Error { Wrap(err, Configuration, operation, message) }
  function NewInternalError(operation: string, message: string): Error { New(Internal, operation, message) }
  function WrapInternalError(err: Error, operation: string, message: string): Error { Wrap(err, Internal, operation, message) }

  /** `IsType`: the error itself is a `*CMSError` of that kind; causes are not consulted. */
  predicate IsType(e: Error, t: ErrorType)
  {
    e.CMSError? && e.ty == t
  }

  /** `GetType`: the kind of a `*CMSError`, and "internal" for every other error. */
  function GetType(e: Error): ErrorType
  {
    if e.CMSError? then e.ty else Internal
  }

  /**
   * Wrapping keeps the cause as it was, and the wrapped text is the new
   * error's own text followed by the cause's text in parentheses.
   */
  lemma WrapUnwrap(err: Error, t: ErrorType, operation: string, message: string)
    ensures Unwrap(Wrap(err, t, operation, message)) == Some(err)
    ensures Unwrap(New(t, operation, message)) == None
    ensures ErrorText(Wrap(err, t, operation, message)) ==
      ErrorText(New(t, operation, message)) + " (caused by: " + ErrorText(err) + ")"
  {
  }

  /** Each typed constructor sets its own kind, with no cause for `New...` and the given cause for `Wrap...`. */
  lemma TypedConstructors(err: Error, op: string, msg: string)
    ensures GetType(NewValidationError(op, msg)) == Validation && GetType(WrapValidationError(err, op, msg)) == Validation
    ensures GetType(NewDockerError(op, msg)) == Docker && GetType(WrapDockerError(err, op, msg)) == Docker
    ensures GetType(NewFileSystemError(op, msg)) == FileSystem && GetType(WrapFileSystemError(err, op, msg)) == FileSystem
    ensures GetType(NewPluginError(op, msg)) == Plugin && GetType(WrapPluginError(err, op, msg)) == Plugin
    ensures GetType(NewConfigurationError(op, msg)) == Configuration
    ensures GetType(WrapConfigurationError(err, op, msg)) == Configuration
    ensures GetType(NewInternalError(op, msg)) == Internal && GetType(WrapInternalError(err, op, msg)) == Internal
    ensures Unwrap(NewPluginError(op, msg)) == None && Unwrap(WrapDockerError(err, op, msg)) == Some(err)
  {
  }

  /**
   * `IsType` and `GetType` agree on typed errors; an error of one kind that
   * wraps an error of another is not of the inner kind, and a foreign error
   * is of no kind although `GetType` calls it internal.
   */
  lemma IsTypeIsDirect(e: Error, t: ErrorType)
    ensures e.CMSError? ==> (IsType(e, t) <==> GetType(e) == t)
    ensures e.Foreign? ==> !IsType(e, t) && GetType(e) == Internal
    ensures e.CMSError? && e.cause.Some? && IsType(e.cause.value, t) && e.ty != t ==> !IsType(e, t)
  {
  }
}
