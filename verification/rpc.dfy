/**
  The part of the gRPC surface the user handlers touch: an optional value,
  the status codes, a status (code plus message), and the outcome of one
  call, which is either a response or a status.
 */
module Rpc {

  datatype Option<+T> = None | Some(value: T)

  /** The seventeen gRPC status codes, as tonic's `Code` lists them. */
  datatype Code =
    | Ok | Cancelled | Unknown | InvalidArgument | DeadlineExceeded | NotFound
    | AlreadyExists | PermissionDenied | ResourceExhausted | FailedPrecondition
    | Aborted | OutOfRange | Unimplemented | Internal | Unavailable | DataLoss
    | Unauthenticated

  /** A failed call: a status code and the human-readable message sent with it. */
  datatype Status = Status(code: Code, message: string)

  /** What a handler hands back to the transport: `Ok(Response<R>)` or `Err(Status)`. */
  datatype Outcome<+R> = Respond(response: R) | Reject(status: Status)

  /** The head of a list when it has one: `values.into_iter().next()`. */
  function First<T>(values: seq<T>): (o: Option<T>)
    ensures o.Some? <==> |values| > 0
    ensures o.Some? ==> o.value == values[0]
  {
    if |values| == 0 then None else Some(values[0])
  }
}
