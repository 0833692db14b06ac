/** The exceptions that can escape from a tool call. The server never catches an
    exception for good: `initialize` and `handle_call_tool` log and re-raise, so the
    caller sees the original exception. */
module Errors {

  /** The opaque cause of a failure raised by a collaborator: the OAuth flow, the
      token file, the discovery `build` or a Google Calendar API request. */
  datatype Cause = Cause(message: string)

  datatype Error =
    | ValueError(message: string)   // raised by the server itself
    | KeyError(key: string)         // a `d[key]` lookup on a missing key
    | TypeError(message: string)    // iterating something that is not iterable
    | Raised(cause: Cause)          // re-raised from a collaborator unchanged
}
