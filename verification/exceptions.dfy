/** The exceptions the PXE driver raises or lets escape, as values. */
module Exceptions {

  /** Why `InvalidParameterValue` was raised. */
  datatype Reason =
    | MissingParameters(names: seq<string>)        // required driver_info keys absent or falsy
    | NotAnInteger(param: string, value: string)   // `int()` raised ValueError on str(value)
    | EphemeralWithoutFormat
    | NotABoolean(param: string, value: string)    // strict bool_from_string raised ValueError
    | DeployKeyMismatch
    | DeployParametersMissing(names: seq<string>)  // callback parameters that are None
    | UnsupportedMethod(name: string)
    | NoPorts(node: string)

  /** A failing filesystem call (OSError) or image fetch. */
  datatype OsError = NotFound(path: string) | AlreadyExists(path: string) | FetchFailed(imageRef: string)

  datatype Error =
    | InvalidParameterValue(reason: Reason)
    | TypeError                              // `int(None)`: not caught by the ValueError handler
    | KeyError(key: string)                  // `kwargs['method']` without a method
    | FailedToUpdateDhcpOptOnPort(node: string)
    | PowerActionFailed
    | ExclusiveLockRequired
    | OsFailure(cause: OsError)
}
