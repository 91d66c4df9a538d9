# Docker client request dispatch, modelled in Dafny

This project models the request dispatch pipeline of the Docker engine-api
client (`vendor/src/github.com/docker/engine-api/client/request.go`): how a
request is built from the client's custom headers and the caller's overlay,
how one attempt fills in the response envelope (`serverResponse`) and turns
transport errors and error statuses into errors with operator hints, how the
retry loop decides between returning, probing an intercepting proxy and
trying again, and how the proxy unlock probe decides success.

The network and the runtime are oracles. `Client.send(k, req)` is what
`httpClient.Do` answers on the k-th attempt of a dispatch. `Env` carries the
two environment variables (`DOCKER_HTTP_RETRY` as its raw text,
`DOCKER_USER_AGENT` as present or absent), the failure `http.NewRequest` may
report, `http.StatusText`, `http.Get`, and the regular-expression extraction
of the proxy unlock URL. The proxy probe and the one-second sleep are counted
as ghost outputs of the retry loop.

Modules, one per component:

- `Wrappers`: `Option` and `Result`, standing for nil and for Go's (value, error) pairs.
- `Strings`: `strings.Contains` (with its positional definition) and `bytes.TrimSpace`.
- `Strconv`: `strconv.Atoi` on a 64-bit platform, and `Itoa` as its inverse.
- `GoErrors`: Go errors with an optional `Timeout` method, the `*url.Error` wrapper, and `isTimeout`.
- `Http`: header maps and their `Get`/`Set`/`Del`, the request, and the transport's answers.
- `Builder`: the client configuration and `newRequest`, whose two map loops are a method with loop invariants.
- `Envelope`: the envelope, the error kinds and their messages, the transport error classifier and the status rule.
- `Proxy`: `tryProxy`.
- `Dispatch`: `doSendClientRequest` (a step-by-step method proved against `Attempt`), `sendClientRequest` (a loop proved against `Dispatch`), and `sendRequest`.

Where the code and its comments disagree, the model follows the code. The
comment at lines 204-205 says callers cannot change the client's headers, but
lines 210-213 let the caller's overlay replace any of them. `Builder.IsMerge`
and `Dispatch.Prepare` state the overlay-wins behaviour. Line 116 passes an
undefined `ctx` to `doSendClientRequest`, which takes no context. The model
makes the five-argument call the function declares.

## Model

| member | source | states |
|---|---|---|
| `Strings.ContainsIffOccurs` | vendor/src/github.com/docker/engine-api/client/request.go:167-174 | the substring test used by the classifier holds exactly when the text occurs at some position |
| `Strings.TrimSpace` | vendor/src/github.com/docker/engine-api/client/request.go:189 | the trimmed body is a slice of the body, preceded and followed only by white space, and starts and ends with non-space |
| `Strings.TrimSpaceEmptyIff` | vendor/src/github.com/docker/engine-api/client/request.go:189 | trimming leaves nothing exactly when the body is all white space |
| `Strings.TrimSpaceIdempotent` | vendor/src/github.com/docker/engine-api/client/request.go:189 | trimming a trimmed body changes nothing |
| `Strconv.Atoi` | vendor/src/github.com/docker/engine-api/client/request.go:110 | the budget read is always a 64-bit integer, and an unset variable reads as 0 |
| `Strconv.AtoiWellFormed` | vendor/src/github.com/docker/engine-api/client/request.go:110 | an optionally signed digit string reads as the number it denotes when that fits in 64 bits, and as the bound it exceeds otherwise |
| `Strconv.AtoiMalformed` | vendor/src/github.com/docker/engine-api/client/request.go:110 | a text whose syntax error comes before any overflow (nothing after the sign, or a first non-digit after it whose preceding digits denote at most 2^64-1) reads as 0 |
| `Strconv.LongLeadingZerosReadZero` | vendor/src/github.com/docker/engine-api/client/request.go:110 | twenty-one zeros followed by a space read as 0: length alone does not make a malformed text overflow |
| `Strconv.ShortMalformedSyntaxErrorFirst` | vendor/src/github.com/docker/engine-api/client/request.go:110 | every malformed text of at most 20 characters, such as "3 ", "2x", "1.5" or "1e3", is one whose syntax error comes first |
| `Strconv.AtoiOverflowFirst` | vendor/src/github.com/docker/engine-api/client/request.go:110 | once a well-formed prefix exceeds 2^64-1 the text reads as the bound of its sign, whatever non-digits follow, as ParseUint stops at the range error |
| `Strconv.AtoiCases` | vendor/src/github.com/docker/engine-api/client/request.go:110 | every text is well formed, or has its syntax error first, or has a well-formed prefix that overflows first, so the three reading lemmas characterise Atoi on every input |
| `Strconv.AtoiItoa` | vendor/src/github.com/docker/engine-api/client/request.go:110 | a budget written in decimal is read back exactly, negative ones included |
| `GoErrors.IsTimeout` | vendor/src/github.com/docker/engine-api/client/request.go:235-246 | a plain error is a timeout when its Timeout method answers true; a url.Error is unwrapped once and its inner error decides; a doubly wrapped error is never a timeout |
| `GoErrors.UrlErrorTextContains` | vendor/src/github.com/docker/engine-api/client/request.go:167-178 | text found in an inner error is found in its url.Error wrapper, so the text rules see through wrapping |
| `Builder.Merged` | vendor/src/github.com/docker/engine-api/client/request.go:206-214 | the header map has exactly the client's and the overlay's keys; an overlay key carries the overlay's whole value list; any other client key carries its one value |
| `Builder.BuildRequest` | vendor/src/github.com/docker/engine-api/client/request.go:197-217 | the request fails exactly when http.NewRequest fails, with its error; otherwise it keeps the verb, the body and the API path, and its headers are the merge |
| `Builder.NewRequest` | vendor/src/github.com/docker/engine-api/client/request.go:197-217 | the two loops over the header maps, in any iteration order, build the request BuildRequest describes |
| `Envelope.Message` | vendor/src/github.com/docker/engine-api/client/request.go:166-189 | every error but ErrConnectionFailed has a text: the hints and wrappers of these lines, the "no requests made" of line 113, and a build or encoding error's own text |
| `Envelope.MessageKeepsCause` | vendor/src/github.com/docker/engine-api/client/request.go:172-184 | every hint and wrapper message contains the original error's text: the hints are added around it, never instead of it |
| `Envelope.ClassifyTransport` | vendor/src/github.com/docker/engine-api/client/request.go:166-178 | a timeout, "connection refused" or "dial unix" gives ErrConnectionFailed whatever the scheme; otherwise the TLS hint only for http with "malformed HTTP response"; otherwise the certificate hint only for https with "remote error: bad certificate"; otherwise the generic wrapper; every wrapper keeps the original error |
| `Envelope.StatusError` | vendor/src/github.com/docker/engine-api/client/request.go:180-190 | an error status gives exactly one of three errors: the body read error as is, the empty-body error carrying the status text and URL exactly when the body is empty, or the daemon error carrying the trimmed body |
| `Envelope.StatusErrorMessage` | vendor/src/github.com/docker/engine-api/client/request.go:181-190 | an error status with an empty body gives a message that contains the status text and the request URL; with a non-empty body the message is the daemon prefix and the trimmed body |
| `Envelope.Reception` | vendor/src/github.com/docker/engine-api/client/request.go:161-194 | the status code is the response's when one arrived and -1 otherwise; there is no error exactly when a response arrived without a transport error and its status is in [200,400), and then body and header are the response's; on any error body and header stay nil; a transport error is classified; an error status gives the status error |
| `Proxy.ProbeUrl` | vendor/src/github.com/docker/engine-api/client/request.go:84 | the probe URL starts with the transport's scheme, "://", the daemon address and "/v", then holds the API version and ends with "/info" |
| `Proxy.ProbeMessage` | vendor/src/github.com/docker/engine-api/client/request.go:86-106 | a failed GET keeps its own text; an unhandled status gives "can not handle status code" followed directly by the status, which reads back as that status |
| `Proxy.TryProxy` | vendor/src/github.com/docker/engine-api/client/request.go:83-107 | the probe first requests scheme://addr/v{version}/info; it succeeds exactly when that answers 403 with a page from which an unlock URL is extracted, and then it has requested that URL second; a failed GET is returned as is and any other answer gives the status error |
| `Proxy.TryProxyAsWrittenPanics` | vendor/src/github.com/docker/engine-api/client/request.go:96-101 | the code as written panics exactly when the unlock GET fails without any response; a failure that still returns a response (a failed redirect check) is closed without harm; otherwise it agrees with TryProxy |
| `Proxy.UnreachableUnlockUrl` | vendor/src/github.com/docker/engine-api/client/request.go:98-99 | a concrete proxy page and unreachable unlock URL for which the code as written panics while TryProxy succeeds |
| `Dispatch.DefaultContentType` | vendor/src/github.com/docker/engine-api/client/request.go:148-150 | a payload request whose Content-Type reads as empty gets text/plain; otherwise the headers are unchanged; no other key ever changes |
| `Dispatch.OverrideUserAgent` | vendor/src/github.com/docker/engine-api/client/request.go:152-159 | unset leaves the headers alone, set but empty removes User-Agent, non-empty makes it exactly that value; no other key changes |
| `Dispatch.Prepare` | vendor/src/github.com/docker/engine-api/client/request.go:138-159 | the sent request is addressed to the client's scheme and address; a payload verb without a body sends an empty body; every other header is the overlay's where present and the client's otherwise; Content-Type defaults to text/plain only when it reads as empty; User-Agent follows the override |
| `Dispatch.Attempt` | vendor/src/github.com/docker/engine-api/client/request.go:132-195 | a request that cannot be built gives status -1 and the build error; an attempt without error got a response with a status in [200,400) and sets body and header |
| `Dispatch.DoSendClientRequest` | vendor/src/github.com/docker/engine-api/client/request.go:132-195 | the step-by-step attempt, rebinding the envelope and adjusting the request's address and headers one statement at a time, returns exactly the reply Attempt describes |
| `Dispatch.AttemptAsWrittenPanics` | vendor/src/github.com/docker/engine-api/client/request.go:143-145 | the code as written panics exactly when newRequest fails, and otherwise agrees with Attempt |
| `Dispatch.Budget` | vendor/src/github.com/docker/engine-api/client/request.go:110 | the budget is a 64-bit integer, 0 when unset; a well-formed value is the number it denotes clamped to 64 bits; a malformed value whose syntax error comes first is 0 |
| `Dispatch.Loop` | vendor/src/github.com/docker/engine-api/client/request.go:115-128 | from attempt k, the attempts made stay within the budget, every one but the last failed with status 407, 403 or -1, the loop stops early only after a success or a non-retryable failure, the result is the last attempt's, and each retryable failure, the last included, is followed by one probe |
| `Dispatch.Dispatch` | vendor/src/github.com/docker/engine-api/client/request.go:109-130 | a negative budget makes no attempt and returns nil with "no requests made"; otherwise between 1 and budget+1 attempts, the result is the last attempt's, the earlier ones were all retryable failures, and probes count the retryable failures |
| `Dispatch.SendClientRequest` | vendor/src/github.com/docker/engine-api/client/request.go:109-130 | the retry loop returns the response and error Dispatch describes, with as many attempts and probes, and one sleep per probe |
| `Dispatch.SendRequest` | vendor/src/github.com/docker/engine-api/client/request.go:67-81 | an encoding error is returned with no attempt; otherwise the dispatch of the encoded body, with Content-Type forced to application/json when there is a body |
| `Dispatch.EncodeData` | vendor/src/github.com/docker/engine-api/client/request.go:219-227 | no body encodes to an empty buffer, and a body's encoding or encoding error is passed on as the encoder gives it |
| `Dispatch.FirstSuccessReturned` | vendor/src/github.com/docker/engine-api/client/request.go:116-119 | a first attempt without error is returned unchanged after one attempt and no probe |
| `Dispatch.NonRetryableStopsAtOnce` | vendor/src/github.com/docker/engine-api/client/request.go:120-127 | a failure with any status but 407, 403 or -1 ends the dispatch after that one attempt, whatever the budget |
| `Dispatch.RetryableExhaustsBudget` | vendor/src/github.com/docker/engine-api/client/request.go:115-128 | when every attempt fails retryably, budget+1 attempts and budget+1 probes are made and the last failure is returned |
| `Dispatch.ProxyThenSuccess` | vendor/src/github.com/docker/engine-api/client/request.go:115-128 | budget 2 with replies 403, 407, success: three attempts, two probes, and the success is returned |
| `Dispatch.UnparseableBudgetOneAttempt` | vendor/src/github.com/docker/engine-api/client/request.go:110 | an unset budget, or a malformed one whose syntax error comes before any overflow ("3 ", "2x", "1.5"), makes exactly one attempt |
| `Dispatch.BuildFailureRetried` | vendor/src/github.com/docker/engine-api/client/request.go:115-128 | under the corrected attempt, a request that cannot be built is retried to the end of the budget: budget+1 attempts and probes, ending with the build error |
| `Dispatch.NegativeBudgetNoAttempt` | vendor/src/github.com/docker/engine-api/client/request.go:110-115 | a negative budget makes no attempt and the error reads "no requests made" |
| `Dispatch.JsonBodyLabelled` | vendor/src/github.com/docker/engine-api/client/request.go:73-78 | every request built for a body carries Content-Type application/json, over any client header and the text/plain default |
| `Dispatch.AttemptStatusUnset` | vendor/src/github.com/docker/engine-api/client/request.go:161-164 | an attempt that got an error and no response keeps status -1, which the loop retries |

## Left out

- Network I/O, body reading and closing (`ensureReaderClosed`), and logrus logging are not modelled: the transport and `http.Get` are oracles and a response body is the text it would yield.
- The verb wrappers `head`, `get`, `post`, `postRaw`, `put`, `putRaw` and `delete` (lines 32-65) only pass fixed verbs on; they are not modelled.
- JSON encoding in `encodeData` is a library call; it is the `encode` parameter of `Dispatch.SendRequest`.
- `getAPIPath` and `http.NewRequest` are not shown; they are the `apiPath` and `newHttpRequest` oracles, the second one deciding only whether construction fails.
- The regular expression at line 95 is the `extractProxyUrl` oracle; its matching rules are not modelled.
- `http.StatusText` is an oracle, and the text of `ErrConnectionFailed` is declared in errors.go, which is not part of this model (`Envelope.Message` gives None for it).
- `time.Sleep` and the environment lookups are not performed: sleeps are a ghost counter and the variables are fields of `Env`, read once per dispatch.
- Header names are used as given. Go's `Header.Set`, `Get` and `Del` canonicalise the name, while `req.Header[k] = v` does not, so a non-canonical overlay key may sit beside the canonical client key in Go; the model has one key.
- A body stream is read by the first attempt that sends it; later attempts of the same dispatch reuse the consumed stream. The model sends the same body content on every attempt.
- `sendRequest` stores Content-Type into the caller's own header map (line 77), which the caller can observe afterwards; the model passes a new map and does not capture that aliasing.
- Bodies are text: the UTF-8 decoding `bytes.TrimSpace` performs on bytes is not modelled.
- `Strconv.Atoi` assumes a 64-bit `int`, as `ParseInt` with bit size 0 does on amd64.
- GoErrors.IsTimeout: `*url.Error` is modelled as having no `Timeout` method of its own (true of Go before 1.6), so only one level of wrapping is looked through, as the function's own unwrap does.
- Dispatch.OverrideUserAgent: removing User-Agent describes the header map handed to the transport; net/http's request writer, which is not part of this model, then sends its own default User-Agent (`Go-http-client/1.1`) on the wire.
- Dispatch.Dispatch: Go's loop counter `try` (line 115) is an int64. With the budget 9223372036854775807, which any text above the 64-bit range clamps to, `try++` wraps to the minimum after the last attempt, so Go's loop would go on for as long as failures stay retryable. The model counts without bound and stops after budget+1 attempts, so it does not capture that wrap.
- Dispatch.SendClientRequest: the proxy probe is evaluated and counted but its requests are not recorded in the result, since the loop discards them.
- registry/config_unix.go is not modelled: it holds the two default registry URLs (`DefaultV1Registry`, `DefaultV2Registry`), the certificate directory read from the environment by `certsDir`, and `cleanPath`, which returns its argument unchanged; none of them is used by the request dispatch.

## Findings

| source | as written | input that shows it | evidently intended | confidence | as-written member | corrected member |
|---|---|---|---|---|---|---|
| vendor/src/github.com/docker/engine-api/client/request.go:143-145 | the error of `newRequest` is not checked, and `req.URL` is dereferenced even when `req` is nil | a path for which `http.NewRequest` fails (`getAPIPath`, which builds it, is not part of this model) | return the envelope (status -1) with the build error; the loop then retries status -1, so the failure is attempted budget+1 times, each followed by a probe and a sleep (`Dispatch.BuildFailureRetried`) | not executed | `Dispatch.AttemptAsWrittenPanics` | `Dispatch.Attempt` |
| vendor/src/github.com/docker/engine-api/client/request.go:98-99 | the error of the unlock `http.Get` is ignored, and `resp.Body.Close()` is called on a nil response | a proxy page naming an unlock URL that refuses the connection | ignore the failed unlock request and report the probe as done | not executed | `Proxy.UnreachableUnlockUrl` | `Proxy.TryProxy` |
