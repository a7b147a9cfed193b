/** Values shared by the whole model: an optional value, the exceptions the
    handler can raise, and a result that either holds a value or carries the
    exception that was raised instead. */
module Outcomes {

  datatype Option<T> = None | Some(value: T)
  {
    function GetOr(default: T): T
    {
      match this
      case Some(v) => v
      case None => default
    }
  }

  /** The Python exceptions that reach the caller of the handler. */
  datatype Error =
    | FileNotFound(path: string)          // FileNotFoundError: a checked path, the configuration file or a directory is missing
    | KeyError(key: string)               // a configuration key is absent
    | JsonDecodeError(path: string)       // the configuration file exists but does not parse
    | CalledProcessError(returncode: int) // a tool exited with a non-zero status
    | TimeoutExpired(seconds: int)        // a tool ran past its timeout
    | ValueError(tool: string)            // no command could be built for the tool

  /** Either a normal return carrying a value or a raised exception. */
  datatype Result<T> = Ok(value: T) | Raised(error: Error)
}
