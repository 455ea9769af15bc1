/**
 * The parts of net/http the core observes: an error is its message, a
 * response is its status line and body, and one call of Client.Do either
 * completes or fails at the transport level.
 */
module Http {
  import opened Wrappers

  /** A Go error value, identified by the text that Error() returns. */
  datatype Error = Error(msg: string)

  /** fmt.Errorf("<prefix>%w", inner): the message of the wrapped error follows the prefix. */
  function Wrap(prefix: string, inner: Error): (e: Error)
    ensures |e.msg| == |prefix| + |inner.msg|
    ensures e.msg[..|prefix|] == prefix && e.msg[|prefix|..] == inner.msg
  {
    Error(prefix + inner.msg)
  }

  const StatusOK: int := 200
  const StatusNotFound: int := 404

  /** An *http.Response: StatusCode, Status (e.g. "404 Not Found") and the body text. */
  datatype Response = Response(statusCode: int, status: string, body: string)

  /**
   * The outcome of one Client.Do call. A transport failure normally comes
   * without a response; net/http hands one back only when a redirect check
   * fails, which is why `res` is optional there.
   */
  datatype Exchange =
    | Completed(response: Response)
    | TransportFailure(err: Error, res: Option<Response>)
  {
    /** The response variable after `res, err = Client.Do(req)`. */
    function ResponseOf(): Option<Response> {
      match this
      case Completed(r) => Some(r)
      case TransportFailure(_, r) => r
    }
  }
}
