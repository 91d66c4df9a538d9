/** The proxy unlock probe (tryProxy): a GET of the daemon's info endpoint
    and, when an intercepting proxy answers it with 403 and a page that
    embeds an unlock URL, a GET of that URL. */
module Proxy {
  import opened Wrappers
  import opened Strconv
  import opened GoErrors
  import opened Http
  import opened Builder
  import opened Strings

  datatype ProbeError =
    | ProbeGetFailed(cause: GoError)   // the first GET failed; returned as is
    | UnhandledStatus(status: int)     // anything but a 403 page with an unlock URL

  const UNHANDLED_PREFIX := "can not handle status code"

  /** Error() of a probe error; fmt.Sprint puts no space between a string
      operand and the number after it. */
  function ProbeMessage(e: ProbeError): (m: string)
    ensures e.ProbeGetFailed? ==> m == Text(e.cause)
    ensures e.UnhandledStatus? ==> HasPrefix(m, UNHANDLED_PREFIX)
    ensures e.UnhandledStatus? && MIN_INT64 <= e.status <= MAX_INT64 ==>
              Atoi(m[|UNHANDLED_PREFIX|..]) == e.status
  {
    match e
    case ProbeGetFailed(c) => Text(c)
    case UnhandledStatus(s) =>
      var m := UNHANDLED_PREFIX + Itoa(s);
      assert m[|UNHANDLED_PREFIX|..] == Itoa(s);
      if MIN_INT64 <= s <= MAX_INT64 then AtoiItoa(s); m else m
  }

  /** The outcome of a probe and the URLs it requested, in order. */
  datatype Probe = Probe(err: Option<ProbeError>, requested: seq<string>)

  /** The info endpoint on the daemon's address, for the transport's scheme
      and the client's API version. */
  function ProbeUrl(cli: Client): (u: string)
    ensures HasPrefix(u, cli.transportScheme + "://" + cli.addr + "/v")
    ensures |u| >= 5 && u[|u| - 5..] == "/info"
    ensures OccursAt(u, cli.version, |cli.transportScheme + "://" + cli.addr + "/v"|)
    ensures |u| == |cli.transportScheme + "://" + cli.addr + "/v"| + |cli.version| + 5
  {
    cli.transportScheme + "://" + cli.addr + "/v" + cli.version + "/info"
  }

  /** tryProxy, with the unlock GET's failure ignored. The code as written
      instead closes the body of that GET's response, which is nil when the
      GET failed without a response (TryProxyAsWritten below). It
      succeeds exactly when the info endpoint answers 403 with a page from
      which an unlock URL is extracted, and then it has requested that URL. */
  function TryProxy(cli: Client, env: Env): (p: Probe)
    ensures |p.requested| >= 1 && p.requested[0] == ProbeUrl(cli)
    ensures var first := env.httpGet(ProbeUrl(cli));
            p.err.None? <==> first.Got? && first.statusCode == 403 && env.extractProxyUrl(first.content).Some?
    ensures p.err.None? ==>
              p.requested == [ProbeUrl(cli), env.extractProxyUrl(env.httpGet(ProbeUrl(cli)).content).value]
    ensures p.err.Some? ==> p.requested == [ProbeUrl(cli)]
    ensures env.httpGet(ProbeUrl(cli)).GetFailed? ==> p.err == Some(ProbeGetFailed(env.httpGet(ProbeUrl(cli)).cause))
    ensures env.httpGet(ProbeUrl(cli)).Got? && p.err.Some? ==>
              p.err == Some(UnhandledStatus(env.httpGet(ProbeUrl(cli)).statusCode))
  {
    var url := ProbeUrl(cli);
    match env.httpGet(url)
    case GetFailed(_, e) => Probe(Some(ProbeGetFailed(e)), [url])
    case Got(status, content) =>
      if status == 403 && env.extractProxyUrl(content).Some? then
        Probe(None, [url, env.extractProxyUrl(content).value])
      else
        Probe(Some(UnhandledStatus(status)), [url])
  }

  /** http.Get failed and returned a nil response. */
  predicate NoResponse(o: GetOutcome)
  {
    o.GetFailed? && o.partial.None?
  }

  /** The end of tryProxy as written: it returns a probe, or it panics after
      requesting the URLs listed. */
  datatype ProbeAsWritten = Finished(probe: Probe) | Panicked(requested: seq<string>)

  /** tryProxy as written: the unlock GET's error is dropped and its
      response's body closed, which panics when the GET returned no response
      at all; a response that came with the error (a failed redirect check)
      is closed without harm. */
  function TryProxyAsWritten(cli: Client, env: Env): ProbeAsWritten
  {
    var url := ProbeUrl(cli);
    match env.httpGet(url)
    case GetFailed(_, e) => Finished(Probe(Some(ProbeGetFailed(e)), [url]))
    case Got(status, content) =>
      if status == 403 && env.extractProxyUrl(content).Some? then
        var unlock := env.extractProxyUrl(content).value;
        if NoResponse(env.httpGet(unlock)) then Panicked([url, unlock])
        else Finished(Probe(None, [url, unlock]))
      else
        Finished(Probe(Some(UnhandledStatus(status)), [url]))
  }

  /** The code as written panics exactly when the unlock GET fails without
      a response, and otherwise does what TryProxy does. */
  lemma TryProxyAsWrittenPanics(cli: Client, env: Env)
    ensures var first := env.httpGet(ProbeUrl(cli));
            TryProxyAsWritten(cli, env).Panicked? <==>
              && first.Got? && first.statusCode == 403
              && env.extractProxyUrl(first.content).Some?
              && NoResponse(env.httpGet(env.extractProxyUrl(first.content).value))
    ensures TryProxyAsWritten(cli, env).Finished? ==> TryProxyAsWritten(cli, env).probe == TryProxy(cli, env)
  {
  }

  /** A concrete case: the proxy page names an unlock URL that cannot be
      fetched, and the code as written panics where TryProxy reports success. */
  lemma UnreachableUnlockUrl() returns (cli: Client, env: Env)
    ensures TryProxyAsWritten(cli, env).Panicked?
    ensures TryProxy(cli, env).err.None?
  {
    var refused := Plain("dial tcp: connection refused", None);
    cli := Client("http", "http", "proxy.local:2375", "1.23", map[],
                  (p, q) => p, (k, req) => Failed(None, refused));
    env := Env("", None, (v, u) => None, s => "",
               u => if u == "http://unlock" then GetFailed(None, refused) else Got(403, "page"),
               page => Some("http://unlock"));
  }
}
