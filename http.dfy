/** The net/http values the dispatcher handles: header maps, URLs, requests,
    and what the transport answers. */
module Http {
  import opened Wrappers
  import opened GoErrors

  /** http.Header: header name to its list of values. Keys are taken exactly
      as given; Go's canonicalisation of header names is not modelled. */
  type Header = map<string, seq<string>>

  /** url.Values. */
  type Query = map<string, seq<string>>

  const CONTENT_TYPE := "Content-Type"
  const USER_AGENT := "User-Agent"

  /** Header.Get: the first value of key, or "" when it has none. */
  function Get(h: Header, key: string): string
  {
    if key in h && h[key] != [] then h[key][0] else ""
  }

  /** Header.Set: key gets the one value v. */
  function Set(h: Header, key: string, v: string): Header
  {
    h[key := [v]]
  }

  /** Header.Del. */
  function Del(h: Header, key: string): Header
  {
    h - {key}
  }

  /** The value list of key, or None when the key is absent. */
  function Lookup(h: Header, key: string): Option<seq<string>>
  {
    if key in h then Some(h[key]) else None
  }

  /** The parts of a request URL the dispatcher touches; target is the path
      and query text produced by the API path builder. */
  datatype Url = Url(scheme: string, host: string, target: string)

  /** URL.String() for a URL with a scheme and a host, and a target that is
      already escaped and starts with "/" (no escaping is modelled). */
  function UrlString(u: Url): string
  {
    u.scheme + "://" + u.host + u.target
  }

  /** An http.Request; body None is a nil io.Reader, Some(b) a reader of b. */
  datatype Request = Request(verb: string, url: Url, header: Header, body: Option<string>)

  /** An http.Response: what reading its body yields, and the error reading
      it would meet, if any. */
  datatype HttpResponse = HttpResponse(statusCode: int, header: Header, body: string, readError: Option<GoError>)

  /** What httpClient.Do returns: a response and no error, or an error with
      possibly a response as well (a failed redirect check). */
  datatype TransportOutcome =
    | Responded(response: HttpResponse)
    | Failed(partial: Option<HttpResponse>, err: GoError)

  /** What http.Get returns: a status and the body's content, or an error
      with possibly the status of a response as well (a failed redirect
      check). */
  datatype GetOutcome =
    | Got(statusCode: int, content: string)
    | GetFailed(partial: Option<int>, cause: GoError)
}
