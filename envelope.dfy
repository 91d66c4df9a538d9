/** The response envelope (serverResponse), the errors a dispatch can end
    with, and the rules that turn a transport outcome into an envelope and an
    error. */
module Envelope {
  import opened Wrappers
  import opened Strings
  import opened GoErrors
  import opened Http

  /** serverResponse: body and header are nil (None) unless the attempt
      succeeded; statusCode is -1 until a response arrives. */
  datatype ServerResponse = ServerResponse(body: Option<string>, header: Option<Header>, statusCode: int)

  /** The errors a dispatch returns, one constructor per way of failing. */
  datatype Error =
    | ConnectionFailed                       // ErrConnectionFailed
    | TlsMismatch(cause: GoError)            // plain HTTP spoken to a TLS daemon
    | ClientCertRejected(cause: GoError)     // the daemon wants a client certificate
    | ConnectError(cause: GoError)           // any other transport error
    | ReadFailed(cause: GoError)             // reading an error response's body failed
    | EmptyErrorStatus(statusText: string, url: string)
    | DaemonError(message: string)           // the trimmed error body
    | BuildFailed(cause: GoError)            // newRequest failed
    | EncodeFailed(cause: GoError)           // the JSON body could not be encoded
    | NoRequestsMade

  /** The outcome of one attempt: the envelope and the error, if any. */
  datatype Reply = Reply(resp: ServerResponse, err: Option<Error>)

  const TLS_HINT := ".\n* Are you trying to connect to a TLS-enabled daemon without TLS?"
  const CERT_HINT := "The server probably has client authentication (--tlsverify) enabled. Please check your TLS client certification settings: "
  const CONNECT_PREFIX := "An error occurred trying to connect: "

  /** Error() of each error; ErrConnectionFailed's text is declared in
      errors.go, which is not part of this model, hence None. */
  function Message(e: Error): (m: Option<string>)
    ensures m.None? <==> e.ConnectionFailed?
  {
    match e
    case ConnectionFailed => None
    case TlsMismatch(c) => Some(Text(c) + TLS_HINT)
    case ClientCertRejected(c) => Some(CERT_HINT + Text(c))
    case ConnectError(c) => Some(CONNECT_PREFIX + Text(c))
    case ReadFailed(c) => Some(Text(c))
    case EmptyErrorStatus(st, u) =>
      Some("Error: request returned " + st + " for API route and version " + u
           + ", check if the server supports the requested API version")
    case DaemonError(m) => Some("Error response from daemon: " + m)
    case BuildFailed(c) => Some(Text(c))
    case EncodeFailed(c) => Some(Text(c))
    case NoRequestsMade => Some("no requests made")
  }

  /** The errors that wrap a Go error of their own. */
  predicate HasCause(e: Error)
  {
    e.TlsMismatch? || e.ClientCertRejected? || e.ConnectError? || e.ReadFailed? || e.BuildFailed? || e.EncodeFailed?
  }

  /** Every wrapping message contains the wrapped error's text: the hints
      are added around the original error, never instead of it. */
  lemma MessageKeepsCause(e: Error)
    requires HasCause(e)
    ensures Message(e).Some? && Contains(Message(e).value, Text(e.cause))
  {
    var t := Text(e.cause);
    var head, tail := "", "";
    if e.TlsMismatch? {
      tail := TLS_HINT;
    } else if e.ClientCertRejected? {
      head := CERT_HINT;
    } else if e.ConnectError? {
      head := CONNECT_PREFIX;
    }
    assert Message(e).value == head + t + tail;
    ContainsInfix(head, t, tail);
  }

  /** The first rule: the daemon cannot be reached at all. */
  predicate IsConnectionFailure(e: GoError)
  {
    IsTimeout(e) || Contains(Text(e), "connection refused") || Contains(Text(e), "dial unix")
  }

  predicate IsTlsMismatch(scheme: string, e: GoError)
  {
    scheme == "http" && Contains(Text(e), "malformed HTTP response")
  }

  predicate IsCertRejection(scheme: string, e: GoError)
  {
    scheme == "https" && Contains(Text(e), "remote error: bad certificate")
  }

  /** The transport error rules, tried in order: connection failure whatever
      the scheme, then the TLS hint for http, then the certificate hint for
      https, else the generic wrapper. */
  function ClassifyTransport(scheme: string, e: GoError): (r: Error)
    ensures r.ConnectionFailed? <==> IsConnectionFailure(e)
    ensures r.TlsMismatch? <==> !IsConnectionFailure(e) && IsTlsMismatch(scheme, e)
    ensures r.ClientCertRejected? <==> !IsConnectionFailure(e) && IsCertRejection(scheme, e)
    ensures r.ConnectError? <==> !IsConnectionFailure(e) && !IsTlsMismatch(scheme, e) && !IsCertRejection(scheme, e)
    ensures !r.ConnectionFailed? ==> (r.TlsMismatch? || r.ClientCertRejected? || r.ConnectError?) && r.cause == e
  {
    if IsConnectionFailure(e) then ConnectionFailed
    else if IsTlsMismatch(scheme, e) then TlsMismatch(e)
    else if IsCertRejection(scheme, e) then ClientCertRejected(e)
    else ConnectError(e)
  }

  /** The error for a response whose status is outside [200,400). */
  function StatusError(r: HttpResponse, statusText: string, url: string): (e: Error)
    ensures e.ReadFailed? || e.EmptyErrorStatus? || e.DaemonError?
    ensures e.ReadFailed? <==> r.readError.Some?
    ensures e.ReadFailed? ==> e.cause == r.readError.value
    ensures e.EmptyErrorStatus? <==> r.readError.None? && r.body == []
    ensures e.EmptyErrorStatus? ==> e.statusText == statusText && e.url == url
    ensures e.DaemonError? ==> e.message == TrimSpace(r.body)
  {
    match r.readError
    case Some(e) => ReadFailed(e)
    case None => if r.body == [] then EmptyErrorStatus(statusText, url) else DaemonError(TrimSpace(r.body))
  }

  /** What an error status says: with an empty body, a message naming the
      status text and the request URL; otherwise the body with its leading
      and trailing white space removed, after the daemon prefix. */
  lemma StatusErrorMessage(r: HttpResponse, statusText: string, url: string)
    requires r.readError.None?
    ensures var m := Message(StatusError(r, statusText, url));
            m.Some? && (r.body == [] ==> Contains(m.value, statusText) && Contains(m.value, url))
    ensures r.body != [] ==> Message(StatusError(r, statusText, url)) == Some("Error response from daemon: " + TrimSpace(r.body))
  {
    if r.body == [] {
      var a := "Error: request returned ";
      var b := " for API route and version ";
      var c := ", check if the server supports the requested API version";
      assert a + statusText + b + url + c == a + statusText + (b + url + c);
      ContainsInfix(a, statusText, b + url + c);
      assert a + statusText + b + url + c == (a + statusText + b) + url + c;
      ContainsInfix(a + statusText + b, url, c);
    }
  }

  /** The status code an outcome carries: -1 unless a response arrived. */
  function StatusOf(outcome: TransportOutcome): int
  {
    match outcome
    case Responded(resp) => resp.statusCode
    case Failed(Some(resp), _) => resp.statusCode
    case Failed(None, _) => -1
  }

  predicate InSuccessRange(status: int)
  {
    200 <= status < 400
  }

  /** The envelope for one transport outcome to a request for url. */
  function Reception(scheme: string, url: string, statusText: int -> string, outcome: TransportOutcome): (reply: Reply)
    ensures reply.resp.statusCode == StatusOf(outcome)
    ensures outcome.Failed? && outcome.partial.None? ==> reply.resp.statusCode == -1
    ensures reply.err.None? <==> outcome.Responded? && InSuccessRange(outcome.response.statusCode)
    ensures reply.err.None? ==> && reply.resp.body == Some(outcome.response.body)
                                && reply.resp.header == Some(outcome.response.header)
    ensures reply.err.Some? ==> reply.resp.body.None? && reply.resp.header.None?
    ensures outcome.Failed? ==> reply.err == Some(ClassifyTransport(scheme, outcome.err))
    ensures outcome.Responded? && !InSuccessRange(outcome.response.statusCode) ==>
              reply.err == Some(StatusError(outcome.response, statusText(outcome.response.statusCode), url))
  {
    var status := StatusOf(outcome);
    var empty := ServerResponse(None, None, status);
    match outcome
    case Failed(_, e) => Reply(empty, Some(ClassifyTransport(scheme, e)))
    case Responded(resp) =>
      if !InSuccessRange(status) then Reply(empty, Some(StatusError(resp, statusText(status), url)))
      else Reply(ServerResponse(Some(resp.body), Some(resp.header), status), None)
  }
}
