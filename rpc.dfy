/** The error kinds the procedures raise and the status each carries. */
module Rpc {
  import opened Wrappers

  datatype Code = BAD_REQUEST | UNAUTHORIZED | FORBIDDEN | INTERNAL_SERVER_ERROR | BAD_RESPONSE

  /** The canonical status of each kind (sections 15.5.1, 15.5.2, 15.5.4,
      15.6.1 and 15.6.3 of RFC 9110). BAD_RESPONSE is not a kind the
      framework knows, so its own default would be 500; 502 is this model's
      choice, and every error of that kind the procedures declare gives
      `status: 502` explicitly, so none of them depends on it. */
  function DefaultStatus(code: Code): (status: nat)
    ensures 400 <= status < 600
    ensures code == UNAUTHORIZED ==> status == 401
    ensures code == INTERNAL_SERVER_ERROR ==> status == 500
  {
    match code
    case BAD_REQUEST => 400
    case UNAUTHORIZED => 401
    case FORBIDDEN => 403
    case INTERNAL_SERVER_ERROR => 500
    case BAD_RESPONSE => 502
  }

  /** An error the framework knows how to send: its kind, its status and the
      message declared for it (None: the framework's default message). */
  datatype RpcError = RpcError(code: Code, status: nat, message: Option<string>)

  /** An error raised by its kind alone, as `new ORPCError("UNAUTHORIZED")`. */
  function Plain(code: Code): RpcError {
    RpcError(code, DefaultStatus(code), None)
  }

  /** What a handler or middleware can fail with: a typed error, or a plain
      exception such as `throw new Error("Invalid credentials")`. */
  datatype Failure = Raised(error: RpcError) | Thrown(message: string)

  /** What reaches the caller: typed errors pass through unchanged, any other
      exception becomes a generic internal error whose text is not sent. */
  function Wire(f: Failure): (e: RpcError)
    ensures f.Raised? ==> e == f.error
    ensures f.Thrown? ==> e.code == INTERNAL_SERVER_ERROR && e.status == 500 && e.message == None
  {
    match f
    case Raised(e) => e
    case Thrown(_) => Plain(INTERNAL_SERVER_ERROR)
  }

  type Outcome<T> = Result<T, Failure>
}
