/** Optional values, results and the kinds of error the BMC client reports.
    Error kinds replace the wording of the Go error messages. */
module Outcomes {

  datatype Option<+T> = None | Some(value: T)

  /** What goes wrong, by phase. */
  datatype Error =
    | ConfigError              // auth type other than "basic" or "bearer"
    | ValidationError          // node or power state out of range
    | TransportError           // the transport returned an error instead of a response
    | AuthStatus(status: int)  // the handshake answered with a status other than 200
    | MissingToken             // the bearer handshake answered 200 without a token
    | StatusError(status: int) // an API call answered with a status other than 200
    | ReadError                // the response body could not be read to the end
    | ParseError               // the body does not decode, or the envelope is empty

  datatype Result<+T> = Success(value: T) | Failure(error: Error)
}
