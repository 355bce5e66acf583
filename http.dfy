/** How the modelled HTTP clients turn a reply into a value or an error. */
module Http {
  import opened Basics
  import opened GoStrings

  /**
   * What a request produces: a transport failure (the request could not be built or
   * sent), or a status code with the decoded body, where Err is a decoding failure.
   */
  datatype Reply<T> = Transport(msg: string) | Status(code: int, body: Result<T>)

  predicate Success(code: int) {
    200 <= code < 300
  }

  /** A non-2xx status becomes the error "http <code>" and the body is not decoded. */
  function Received<T>(reply: Reply<T>): (r: Result<T>)
    ensures reply.Transport? ==> r == Err(reply.msg)
    ensures reply.Status? && !Success(reply.code) ==> r == Err("http " + Itoa(reply.code))
    ensures reply.Status? && Success(reply.code) ==> r == reply.body
  {
    match reply
    case Transport(msg) => Err(msg)
    case Status(code, body) =>
      if code < 200 || code >= 300 then Err("http " + Itoa(code)) else body
  }
}
