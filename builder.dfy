/** The client's configuration and the request builder (newRequest): the API
    path is resolved, the request object is created, and the header map is
    filled from the client's custom headers and then from the caller's
    overlay. */
module Builder {
  import opened Wrappers
  import opened GoErrors
  import opened Http

  /** The Client fields the dispatcher reads. The API path builder and the
      HTTP client are collaborators outside this model, so they are given as
      functions; send(k, req) is what httpClient.Do answers to req on the
      k-th attempt of a dispatch. */
  datatype Client = Client(
    scheme: string,               // cli.scheme
    transportScheme: string,      // cli.transport.Scheme()
    addr: string,
    version: string,
    customHeaders: map<string, string>,
    apiPath: (string, Query) -> string,
    send: (nat, Request) -> TransportOutcome)

  /** What the process environment and the Go runtime supply: the two
      environment variables, http.NewRequest's failure (if any) for a verb
      and a URL, http.StatusText, http.Get, and the proxy page's URL
      extraction. */
  datatype Env = Env(
    retryVar: string,                 // DOCKER_HTTP_RETRY, "" when unset
    userAgentVar: Option<string>,     // DOCKER_USER_AGENT, None when unset
    newHttpRequest: (string, string) -> Option<GoError>,
    statusText: int -> string,
    httpGet: string -> GetOutcome,
    extractProxyUrl: string -> Option<string>)

  /** h holds every client header, replaced by the overlay's whole value list
      where the overlay has the same key, and nothing else. */
  predicate IsMerge(custom: map<string, string>, overlay: Header, h: Header)
  {
    && h.Keys == custom.Keys + overlay.Keys
    && (forall k :: k in overlay ==> h[k] == overlay[k])
    && (forall k :: k in custom && k !in overlay ==> h[k] == [custom[k]])
  }

  /** The client headers, each set with Header.Set. */
  function CustomLayer(custom: map<string, string>): Header
  {
    map k | k in custom :: [custom[k]]
  }

  /** The header map newRequest builds. */
  function Merged(custom: map<string, string>, overlay: Header): (h: Header)
    ensures IsMerge(custom, overlay, h)
  {
    CustomLayer(custom) + overlay
  }

  /** newRequest as a value: the request object or http.NewRequest's error. */
  function BuildRequest(cli: Client, env: Env, verb: string, path: string, query: Query,
                        body: Option<string>, headers: Header): (r: Result<Request, GoError>)
    ensures var failure := env.newHttpRequest(verb, cli.apiPath(path, query));
            (r.Err? <==> failure.Some?) && (r.Err? ==> r.error == failure.value)
    ensures r.Ok? ==> && r.value.verb == verb && r.value.body == body
                      && r.value.url == Url("", "", cli.apiPath(path, query))
                      && IsMerge(cli.customHeaders, headers, r.value.header)
  {
    var apiPath := cli.apiPath(path, query);
    match env.newHttpRequest(verb, apiPath)
    case Some(e) => Err(e)
    case None => Ok(Request(verb, Url("", "", apiPath), Merged(cli.customHeaders, headers), body))
  }

  /** newRequest: the header map starts empty, every client header is set,
      then every overlay entry is stored, each replacing what was there. */
  method NewRequest(cli: Client, env: Env, verb: string, path: string, query: Query,
                    body: Option<string>, headers: Header) returns (r: Result<Request, GoError>)
    ensures r == BuildRequest(cli, env, verb, path, query, body, headers)
  {
    var apiPath := cli.apiPath(path, query);
    var failure := env.newHttpRequest(verb, apiPath);
    if failure.Some? {
      return Err(failure.value);
    }
    var h: Header := map[];
    var todo := cli.customHeaders.Keys;
    while todo != {}
      invariant todo <= cli.customHeaders.Keys
      invariant h == CustomLayer(cli.customHeaders - todo)
      decreases todo
    {
      var k :| k in todo;
      h := Set(h, k, cli.customHeaders[k]);
      todo := todo - {k};
    }
    assert cli.customHeaders - {} == cli.customHeaders;
    var rest := headers.Keys;
    while rest != {}
      invariant rest <= headers.Keys
      invariant h == CustomLayer(cli.customHeaders) + (headers - rest)
      decreases rest
    {
      var k :| k in rest;
      h := h[k := headers[k]];
      rest := rest - {k};
    }
    assert headers - {} == headers;
    r := Ok(Request(verb, Url("", "", apiPath), h, body));
  }
}
