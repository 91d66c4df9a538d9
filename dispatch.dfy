/** The dispatcher: one attempt (doSendClientRequest), the retry loop around
    it (sendClientRequest), and the JSON entry point (sendRequest). */
module Dispatch {
  import opened Wrappers
  import opened Strconv
  import opened GoErrors
  import opened Http
  import opened Builder
  import opened Envelope
  import opened Proxy

  /** One logical call as a verb wrapper hands it over; a nil overlay is the
      empty map. */
  datatype Call = Call(verb: string, path: string, query: Query, body: Option<string>, headers: Header)

  /** POST and PUT expect a payload. */
  predicate IsPayloadVerb(verb: string)
  {
    verb == "POST" || verb == "PUT"
  }

  /** The Content-Type default: a payload request whose Content-Type reads as
      empty gets text/plain, and nothing else changes. */
  function DefaultContentType(h: Header, payload: bool): (r: Header)
    ensures forall k :: k != CONTENT_TYPE ==> Lookup(r, k) == Lookup(h, k)
    ensures payload && Get(h, CONTENT_TYPE) == "" ==> Lookup(r, CONTENT_TYPE) == Some(["text/plain"])
    ensures !(payload && Get(h, CONTENT_TYPE) == "") ==> r == h
  {
    if payload && Get(h, CONTENT_TYPE) == "" then Set(h, CONTENT_TYPE, "text/plain") else h
  }

  /** The DOCKER_USER_AGENT override: unset leaves the header map alone, set
      but empty removes User-Agent, anything else becomes its one value; no
      other key changes. */
  function OverrideUserAgent(h: Header, ua: Option<string>): (r: Header)
    ensures forall k :: k != USER_AGENT ==> Lookup(r, k) == Lookup(h, k)
    ensures ua.None? ==> r == h
    ensures ua == Some("") ==> USER_AGENT !in r
    ensures ua.Some? && ua.value != "" ==> Lookup(r, USER_AGENT) == Some([ua.value])
  {
    match ua
    case None => h
    case Some(v) => if |v| == 0 then Del(h, USER_AGENT) else Set(h, USER_AGENT, v)
  }

  /** The body handed to newRequest: a payload request without one gets an
      empty body. */
  function PayloadBody(call: Call): Option<string>
  {
    if IsPayloadVerb(call.verb) && call.body.None? then Some("") else call.body
  }

  /** The payload request whose merged headers give no Content-Type. */
  predicate NeedsContentType(cli: Client, call: Call)
  {
    IsPayloadVerb(call.verb) && Get(Merged(cli.customHeaders, call.headers), CONTENT_TYPE) == ""
  }

  /** The request an attempt sends, or newRequest's error, surfaced
      verbatim. It is addressed to the client's scheme and address; every
      header other than Content-Type and User-Agent is the merge of the
      client's headers and the overlay (Builder.IsMerge); Content-Type
      defaults to text/plain on a payload request; User-Agent follows the
      override. */
  function Prepare(cli: Client, env: Env, call: Call): (r: Result<Request, GoError>)
    ensures r.Err? <==> env.newHttpRequest(call.verb, cli.apiPath(call.path, call.query)).Some?
    ensures r.Err? ==> r.error == env.newHttpRequest(call.verb, cli.apiPath(call.path, call.query)).value
    ensures r.Ok? ==> && r.value.verb == call.verb && r.value.body == PayloadBody(call)
                      && r.value.url == Url(cli.scheme, cli.addr, cli.apiPath(call.path, call.query))
    ensures r.Ok? ==> forall k :: k != CONTENT_TYPE && k != USER_AGENT ==>
                        Lookup(r.value.header, k) == Lookup(Merged(cli.customHeaders, call.headers), k)
    ensures r.Ok? && NeedsContentType(cli, call) ==> Lookup(r.value.header, CONTENT_TYPE) == Some(["text/plain"])
    ensures r.Ok? && !NeedsContentType(cli, call) ==>
              Lookup(r.value.header, CONTENT_TYPE) == Lookup(Merged(cli.customHeaders, call.headers), CONTENT_TYPE)
    ensures r.Ok? && env.userAgentVar.None? ==>
              Lookup(r.value.header, USER_AGENT) == Lookup(Merged(cli.customHeaders, call.headers), USER_AGENT)
    ensures r.Ok? && env.userAgentVar == Some("") ==> USER_AGENT !in r.value.header
    ensures r.Ok? && env.userAgentVar.Some? && env.userAgentVar.value != "" ==>
              Lookup(r.value.header, USER_AGENT) == Some([env.userAgentVar.value])
  {
    match BuildRequest(cli, env, call.verb, call.path, call.query, PayloadBody(call), call.headers)
    case Err(e) => Err(e)
    case Ok(req) =>
      var merged := req.header;
      assert merged == Merged(cli.customHeaders, call.headers);
      var typed := DefaultContentType(merged, IsPayloadVerb(call.verb));
      Ok(Request(req.verb, Url(cli.scheme, cli.addr, req.url.target), OverrideUserAgent(typed, env.userAgentVar), req.body))
  }

  /** doSendClientRequest as a value: the reply to the k-th attempt. */
  function Attempt(cli: Client, env: Env, call: Call, k: nat): (reply: Reply)
    ensures Prepare(cli, env, call).Err? ==>
              reply == Reply(ServerResponse(None, None, -1), Some(BuildFailed(Prepare(cli, env, call).error)))
    ensures reply.err.None? ==> && Prepare(cli, env, call).Ok?
                                && cli.send(k, Prepare(cli, env, call).value).Responded?
                                && InSuccessRange(reply.resp.statusCode)
                                && reply.resp.body.Some? && reply.resp.header.Some?
  {
    match Prepare(cli, env, call)
    case Err(e) => Reply(ServerResponse(None, None, -1), Some(BuildFailed(e)))
    case Ok(req) => Reception(cli.scheme, UrlString(req.url), env.statusText, cli.send(k, req))
  }

  /** doSendClientRequest: the envelope starts with status -1 and is filled
      in as the attempt proceeds; the request's address and headers are
      adjusted step by step before it is sent. */
  method DoSendClientRequest(cli: Client, env: Env, call: Call, k: nat) returns (resp: ServerResponse, err: Option<Error>)
    ensures Reply(resp, err) == Attempt(cli, env, call, k)
  {
    resp := ServerResponse(None, None, -1);
    var payload := IsPayloadVerb(call.verb);
    var body := call.body;
    if payload && body.None? {
      body := Some("");
    }
    var built := NewRequest(cli, env, call.verb, call.path, call.query, body, call.headers);
    if built.Err? {
      return resp, Some(BuildFailed(built.error));
    }
    var req := built.value;
    req := req.(url := req.url.(host := cli.addr, scheme := cli.scheme));
    if payload && Get(req.header, CONTENT_TYPE) == "" {
      req := req.(header := Set(req.header, CONTENT_TYPE, "text/plain"));
    }
    match env.userAgentVar {
      case Some(ua) =>
        if |ua| == 0 {
          req := req.(header := Del(req.header, USER_AGENT));
        } else {
          req := req.(header := Set(req.header, USER_AGENT, ua));
        }
      case None =>
    }
    var outcome := cli.send(k, req);
    match outcome {
      case Responded(r) => resp := resp.(statusCode := r.statusCode);
      case Failed(Some(r), _) => resp := resp.(statusCode := r.statusCode);
      case Failed(None, _) =>
    }
    if outcome.Failed? {
      return resp, Some(ClassifyTransport(cli.scheme, outcome.err));
    }
    if resp.statusCode < 200 || resp.statusCode >= 400 {
      return resp, Some(StatusError(outcome.response, env.statusText(resp.statusCode), UrlString(req.url)));
    }
    resp := resp.(body := Some(outcome.response.body), header := Some(outcome.response.header));
    err := None;
  }

  /** doSendClientRequest as written: when newRequest fails, the nil request
      is dereferenced and the program panics. */
  datatype AttemptAsWritten = Returned(reply: Reply) | AttemptPanicked

  function AttemptAsWrittenAt(cli: Client, env: Env, call: Call, k: nat): AttemptAsWritten
  {
    match Prepare(cli, env, call)
    case Err(_) => AttemptPanicked
    case Ok(req) => Returned(Reception(cli.scheme, UrlString(req.url), env.statusText, cli.send(k, req)))
  }

  /** The code as written panics exactly when the request cannot be built,
      and otherwise agrees with Attempt. */
  lemma AttemptAsWrittenPanics(cli: Client, env: Env, call: Call, k: nat)
    ensures AttemptAsWrittenAt(cli, env, call, k).AttemptPanicked? <==>
              env.newHttpRequest(call.verb, cli.apiPath(call.path, call.query)).Some?
    ensures AttemptAsWrittenAt(cli, env, call, k).Returned? ==>
              AttemptAsWrittenAt(cli, env, call, k).reply == Attempt(cli, env, call, k)
  {
  }

  /** The failing statuses after which the loop probes the proxy and tries
      again: proxy authentication required, forbidden, no response. */
  predicate Retryable(status: int)
  {
    status == 407 || status == 403 || status == -1
  }

  predicate Continues(reply: Reply)
  {
    reply.err.Some? && Retryable(reply.resp.statusCode)
  }

  /** The result of a dispatch, with the number of attempts made and of
      proxy probes (each followed by one sleep). */
  datatype Run = Run(resp: Option<ServerResponse>, err: Option<Error>, attempts: nat, probes: nat)

  /** The retry budget: DOCKER_HTTP_RETRY read with strconv.Atoi, its error
      ignored. A well-formed value is the number it denotes, clamped to 64
      bits; a malformed value reads as 0 when its syntax error comes before
      any overflow. */
  function Budget(env: Env): (b: int)
    ensures MIN_INT64 <= b <= MAX_INT64 && (env.retryVar == [] ==> b == 0)
    ensures WellFormed(env.retryVar) ==> b == ClampInt64(Written(env.retryVar))
    ensures SyntaxErrorFirst(env.retryVar) ==> b == 0
  {
    var s := env.retryVar;
    if SyntaxErrorFirst(s) then AtoiMalformed(s); Atoi(s)
    else if WellFormed(s) then AtoiWellFormed(s); Atoi(s)
    else Atoi(s)
  }

  /** The loop from attempt k on, k within the budget; probes counts the
      probes from attempt k on. */
  function Loop(cli: Client, env: Env, call: Call, retries: int, k: nat): (run: Run)
    requires k <= retries
    ensures k + 1 <= run.attempts <= retries + 1
    ensures var last := Attempt(cli, env, call, run.attempts - 1);
            run.resp == Some(last.resp) && run.err == last.err
    ensures forall j :: k <= j < run.attempts - 1 ==> Continues(Attempt(cli, env, call, j))
    ensures run.attempts <= retries ==> !Continues(Attempt(cli, env, call, run.attempts - 1))
    ensures run.probes == run.attempts - 1 - k + (if Continues(Attempt(cli, env, call, run.attempts - 1)) then 1 else 0)
    decreases retries - k
  {
    var reply := Attempt(cli, env, call, k);
    if !Continues(reply) then Run(Some(reply.resp), reply.err, k + 1, 0)
    else if k == retries then Run(Some(reply.resp), reply.err, k + 1, 1)
    else
      var rest := Loop(cli, env, call, retries, k + 1);
      rest.(probes := rest.probes + 1)
  }

  /** sendClientRequest as a value. A negative budget makes no attempt;
      otherwise at most budget+1 attempts are made, every one but the last
      failed with a retryable status, the last is the first success or the
      first non-retryable failure unless the budget ran out, and the result
      is the last attempt's. Every retryable failure, the last included, is
      followed by one probe. */
  function Dispatch(cli: Client, env: Env, call: Call): (run: Run)
    ensures Budget(env) < 0 ==> run == Run(None, Some(NoRequestsMade), 0, 0)
    ensures Budget(env) >= 0 ==> 1 <= run.attempts <= Budget(env) + 1
    ensures run.attempts > 0 ==> var last := Attempt(cli, env, call, run.attempts - 1);
                                 run.resp == Some(last.resp) && run.err == last.err
    ensures forall j :: 0 <= j < run.attempts - 1 ==> Continues(Attempt(cli, env, call, j))
    ensures 0 < run.attempts <= Budget(env) ==> !Continues(Attempt(cli, env, call, run.attempts - 1))
    ensures run.attempts > 0 ==>
              run.probes == run.attempts - 1 + (if Continues(Attempt(cli, env, call, run.attempts - 1)) then 1 else 0)
  {
    var retries := Budget(env);
    if retries < 0 then Run(None, Some(NoRequestsMade), 0, 0) else Loop(cli, env, call, retries, 0)
  }

  /** sendClientRequest: attempts are made while the budget lasts; a success
      ends the loop, a failure with status 407, 403 or -1 is followed by a
      proxy probe and a one-second sleep, any other failure ends the loop. */
  method SendClientRequest(cli: Client, env: Env, call: Call)
    returns (resp: Option<ServerResponse>, err: Option<Error>, ghost attempts: nat, ghost probes: nat, ghost sleeps: nat)
    ensures resp == Dispatch(cli, env, call).resp && err == Dispatch(cli, env, call).err
    ensures attempts == Dispatch(cli, env, call).attempts && probes == Dispatch(cli, env, call).probes
    ensures sleeps == probes
  {
    var retries := Budget(env);
    resp, err := None, Some(NoRequestsMade);
    attempts, probes, sleeps := 0, 0, 0;
    ghost var target := Dispatch(cli, env, call);
    var attempt := 0;
    while attempt <= retries
      invariant attempts == attempt && probes == attempt && sleeps == attempt
      invariant attempt <= retries ==>
                  var rest := Loop(cli, env, call, retries, attempt);
                  target == rest.(probes := rest.probes + attempt)
      invariant attempt > retries ==> target == Run(resp, err, attempts, probes)
      decreases retries - attempt
    {
      var r, e := DoSendClientRequest(cli, env, call, attempt);
      resp, err := Some(r), e;
      attempts := attempts + 1;
      if e.None? {
        break;
      }
      if r.statusCode == 407 || r.statusCode == 403 || r.statusCode == -1 {
        var probe := TryProxy(cli, env);
        probes := probes + 1;
        sleeps := sleeps + 1;
      } else {
        break;
      }
      attempt := attempt + 1;
    }
  }

  /** encodeData: no body encodes to an empty buffer; a body's encoding,
      or its error, is returned as the encoder gives it. */
  function EncodeData<T>(data: Option<T>, encode: T -> Result<string, GoError>): (r: Result<string, GoError>)
    ensures data.None? ==> r == Ok("")
    ensures data.Some? ==> r == encode(data.value)
  {
    match data
    case None => Ok("")
    case Some(v) => encode(v)
  }

  /** The call sendRequest hands on: the encoded body, and Content-Type
      forced to application/json when there is a body. */
  function JsonCall(verb: string, path: string, query: Query, hasBody: bool, params: string, headers: Header): Call
  {
    Call(verb, path, query, Some(params), if hasBody then headers[CONTENT_TYPE := ["application/json"]] else headers)
  }

  /** sendRequest: an encoding error is returned before any attempt;
      otherwise the dispatch of the JSON call. */
  method SendRequest<T>(cli: Client, env: Env, verb: string, path: string, query: Query,
                        body: Option<T>, encode: T -> Result<string, GoError>, headers: Header)
    returns (resp: Option<ServerResponse>, err: Option<Error>, ghost attempts: nat)
    ensures EncodeData(body, encode).Err? ==>
              resp.None? && err == Some(EncodeFailed(EncodeData(body, encode).error))
    ensures EncodeData(body, encode).Ok? ==>
              var run := Dispatch(cli, env, JsonCall(verb, path, query, body.Some?, EncodeData(body, encode).value, headers));
              resp == run.resp && err == run.err
    ensures attempts == if EncodeData(body, encode).Err? then 0
                        else Dispatch(cli, env, JsonCall(verb, path, query, body.Some?, EncodeData(body, encode).value, headers)).attempts
  {
    var params := EncodeData(body, encode);
    if params.Err? {
      return None, Some(EncodeFailed(params.error)), 0;
    }
    var h := headers;
    if body.Some? {
      h := h[CONTENT_TYPE := ["application/json"]];
    }
    ghost var probes, sleeps;
    resp, err, attempts, probes, sleeps := SendClientRequest(cli, env, Call(verb, path, query, Some(params.value), h));
  }

  /** A first attempt that succeeds is returned at once, without a probe. */
  lemma FirstSuccessReturned(cli: Client, env: Env, call: Call)
    requires Budget(env) >= 0
    requires Attempt(cli, env, call, 0).err.None?
    ensures Dispatch(cli, env, call) == Run(Some(Attempt(cli, env, call, 0).resp), None, 1, 0)
  {
  }

  /** A failure whose status is not retryable ends the dispatch after one
      attempt, whatever the budget. */
  lemma NonRetryableStopsAtOnce(cli: Client, env: Env, call: Call)
    requires Budget(env) >= 0
    requires Attempt(cli, env, call, 0).err.Some? && !Retryable(Attempt(cli, env, call, 0).resp.statusCode)
    ensures Dispatch(cli, env, call) ==
              Run(Some(Attempt(cli, env, call, 0).resp), Attempt(cli, env, call, 0).err, 1, 0)
  {
  }

  /** When every attempt fails with a retryable status, all budget+1 attempts
      are made, each followed by a probe, and the last failure is returned. */
  lemma RetryableExhaustsBudget(cli: Client, env: Env, call: Call)
    requires Budget(env) >= 0
    requires forall j :: 0 <= j <= Budget(env) ==> Continues(Attempt(cli, env, call, j))
    ensures var run := Dispatch(cli, env, call);
            && run.attempts == Budget(env) + 1 && run.probes == Budget(env) + 1
            && run.err == Attempt(cli, env, call, Budget(env)).err
  {
    var run := Dispatch(cli, env, call);
    assert Continues(Attempt(cli, env, call, run.attempts - 1));
  }

  /** Budget 2 with replies 403, 407 and then a success: three attempts, two
      probes, and the success is returned. */
  lemma ProxyThenSuccess(cli: Client, env: Env, call: Call)
    requires Budget(env) == 2
    requires Attempt(cli, env, call, 0).err.Some? && Attempt(cli, env, call, 0).resp.statusCode == 403
    requires Attempt(cli, env, call, 1).err.Some? && Attempt(cli, env, call, 1).resp.statusCode == 407
    requires Attempt(cli, env, call, 2).err.None?
    ensures Dispatch(cli, env, call) == Run(Some(Attempt(cli, env, call, 2).resp), None, 3, 2)
  {
    assert Loop(cli, env, call, 2, 2) == Run(Some(Attempt(cli, env, call, 2).resp), None, 3, 0);
  }

  /** A budget that is unset or malformed, with its syntax error before any
      overflow ("", "3 ", "2x", "1.5"), means exactly one attempt. */
  lemma UnparseableBudgetOneAttempt(cli: Client, env: Env, call: Call)
    requires SyntaxErrorFirst(env.retryVar)
    ensures Dispatch(cli, env, call).attempts == 1
  {
  }

  /** Under the corrected attempt a request that cannot be built is retried
      to the end of the budget, since its status -1 counts as retryable,
      although no retry can build it: budget+1 attempts and probes, each
      probe followed by a sleep. */
  lemma BuildFailureRetried(cli: Client, env: Env, call: Call)
    requires Budget(env) >= 0
    requires env.newHttpRequest(call.verb, cli.apiPath(call.path, call.query)).Some?
    ensures var run := Dispatch(cli, env, call);
            && run.attempts == Budget(env) + 1 && run.probes == Budget(env) + 1
            && run.err == Some(BuildFailed(env.newHttpRequest(call.verb, cli.apiPath(call.path, call.query)).value))
  {
    assert forall j: nat :: Continues(Attempt(cli, env, call, j));
    RetryableExhaustsBudget(cli, env, call);
  }

  /** A negative budget makes no attempt and reports "no requests made". */
  lemma NegativeBudgetNoAttempt(cli: Client, env: Env, call: Call, n: int)
    requires MIN_INT64 <= n < 0 && env.retryVar == Itoa(n)
    ensures Dispatch(cli, env, call) == Run(None, Some(NoRequestsMade), 0, 0)
    ensures Message(Dispatch(cli, env, call).err.value) == Some("no requests made")
  {
    AtoiItoa(n);
  }

  /** Every request sendRequest sends for a body is labelled
      application/json: the forced overlay entry beats the client's headers
      and the text/plain default. */
  lemma JsonBodyLabelled(cli: Client, env: Env, verb: string, path: string, query: Query, params: string, headers: Header)
    ensures var prepared := Prepare(cli, env, JsonCall(verb, path, query, true, params, headers));
            prepared.Ok? ==> Lookup(prepared.value.header, CONTENT_TYPE) == Some(["application/json"])
  {
    var call := JsonCall(verb, path, query, true, params, headers);
    assert Merged(cli.customHeaders, call.headers)[CONTENT_TYPE] == ["application/json"];
    assert !NeedsContentType(cli, call);
  }

  /** An attempt that got an error and no response at all keeps status -1,
      so it counts as retryable. */
  lemma AttemptStatusUnset(cli: Client, env: Env, call: Call, k: nat)
    requires Prepare(cli, env, call).Ok?
    requires var o := cli.send(k, Prepare(cli, env, call).value); o.Failed? && o.partial.None?
    ensures Attempt(cli, env, call, k).resp.statusCode == -1
    ensures Continues(Attempt(cli, env, call, k))
  {
  }
}
