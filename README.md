# http-core: per-stream classification and dispatch

http-core is a small HTTP/2 server core. For each incoming stream it runs these steps:

- It names the stream with a random hexadecimal id.
- The *preamble* validates the request headers, the TLS session and the server policy. It returns either a `request` outcome for the application's router or an early terminal outcome (`error`, `unavailable`, `not-implemented`, `preflight`, `not-allowed`, `not-acceptable`, `trace`).
- The stream handler passes every preamble outcome to the router, whatever its type (src/index.js:484).
- The router's outcome goes to the *epilogue*. The epilogue appends an `X-Request-Id` header to the shared response metadata and then makes exactly one call to the response library, chosen by the outcome's `type`.

If the router rejects, or the epilogue itself throws, the pipeline renders the preamble's state again as an `error` outcome.

The model has these modules:

- `Headers`: header values and the validity helpers.
- `CloseCodes`: stream close-code labels.
- `RequestIds`: stream ids.
- `Outcome`: the outcome union, the shared `Meta` object and the stream envelope.
- `Preamble`: a pure classification `Classify`, plus a `Preamble` method that allocates the metadata and pushes the timing sample in place.
- `Epilogue`: a pure `Dispatch` switch, plus an `Epilogue` method that mutates the metadata and calls a `Responder`. The `Responder` records its calls in a log.
- `Server`: the stream handler, which connects the steps.

Some collaborators are passed in as values, so their behaviour is a parameter rather than something the model fixes. These are:

- the header-semantics library: content negotiation, conditional-request parsing, Forwarded parsing, Content-Type parsing and `Number.parseInt`;
- the WHATWG URL parser;
- the router.

## Model

| member | source | states |
|---|---|---|
| Headers.ValidLikeMeansNotMulti | src/index.js:331-333 | `isValidLikeHeader` holds exactly for an absent header or a single string |
| Headers.ValidMeansPresentSingle | src/index.js:323-325 | `isValidHeader` holds exactly for a present single string |
| Headers.ValidMethodExactly | src/index.js:339-343 | `isValidMethod` holds exactly for a single string naming one of the nine known methods (GET, HEAD, POST, PUT, PATCH, OPTIONS, DELETE, TRACE, QUERY), and implies `isValidHeader` |
| Headers.AsString | src/preamble.js:243-246 | a header that passed `isValidLikeHeader` is a string exactly when present, and that string is the header's value |
| CloseCodes.CloseCodeToString | src/index.js:348-365 | codes 0x0 to 0xd get their fixed labels; any other code is printed in decimal; every label is parenthesised |
| CloseCodes.DecimalRoundTrip | src/index.js:364 | the decimal rendering of a code reads back as the code |
| CloseCodes.LabelsDistinct | src/index.js:349-362 | the fourteen fixed labels are pairwise distinct |
| CloseCodes.CloseCodeToStringInjective | src/index.js:348-365 | different close codes get different labels |
| RequestIds.ToHex | src/index.js:376 | the rendering has two lower-case hex digits per byte |
| RequestIds.FromHexToHex | src/index.js:372-377 | decoding a rendered id recovers the bytes |
| RequestIds.ToHexFromHex | src/index.js:372-377 | any string that decodes is the rendering of the bytes it decodes to |
| RequestIds.RequestId | src/index.js:367-377 | a stream id of REQUEST_ID_SIZE = 5 bytes is 10 lower-case hex digits |
| RequestIds.RequestIdInjective | src/index.js:367-377 | different random bytes give different stream ids |
| Outcome.NamedTagsAreTheUnion | src/epilogue.js:52-126 | on outcomes whose unknown `type` is not one the union names, a `type` string is one of `request` and the thirty-one types the switch names exactly when the outcome is a member of the union |
| Outcome.Meta.constructor | src/preamble.js:160-165 | new metadata has the server name, the allowed origin, and empty sample and header lists |
| Outcome.Meta.PushSample | src/preamble.js:230 | appends one timing sample and changes nothing else |
| Outcome.Meta.PushHeader | src/epilogue.js:50 | appends one custom header and changes nothing else |
| Preamble.AllowedOrigin | src/preamble.js:150 | the Origin header is kept when the allow-list holds `*`, or when the header parses as a URL and is listed; otherwise there is no origin |
| Preamble.FirstImproperNone | src/preamble.js:187-198 | no cause is found exactly when none of the checked headers is an array |
| Preamble.FirstImproperAt | src/preamble.js:187-198 | the first repeated header in check order decides the cause |
| Preamble.ForwardedFailure | src/preamble.js:221-223 | the Forwarded trust checks never fail unless FORWARDED_REQUIRED is set; with it set, a missing element is 'forwarded required' |
| Preamble.BodyRequestFor | src/preamble.js:268-277 | the body is requested with a 1 MiB limit and a 2000 ms timeout, and with no content length when the header is absent |
| Preamble.ClassifyAsWritten | src/preamble.js:169-300 | the check chain as written; it throws only with 'Invalid URL' on a path whose URL does not resolve (see Preamble.UnresolvablePathThrows and the lemmas below, which state the chain through Preamble.Classify) |
| Preamble.Classify | src/preamble.js:169-300 | the classification always yields an outcome, and it equals the code as written wherever that does not throw |
| Preamble.Preamble | src/preamble.js:105-300 | with the corrected classification (see "## Findings"), so it never throws: the state carries the envelope unchanged, the classified outcome, fresh metadata holding the allowed origin, exactly the sample of the path taken and no custom headers |
| Preamble.ShutdownPrecedence | src/preamble.js:169-171 | an aborted shutdown signal yields `unavailable` with retry-after 60, whatever the rest of the input |
| Preamble.SessionChecksPrecedeHeaders | src/preamble.js:173-181 | a missing session, a non-TLS socket, then a null or false SNI are rejected, in that order and before any header check |
| Preamble.PathBeforeMethod | src/preamble.js:184-185 | a missing or repeated `:path` is 'improper path'; then an invalid or unknown method is `not-implemented` |
| Preamble.RepeatedHeaderRejected | src/preamble.js:187-198 | the first repeated header among the twelve checked ones gives its own error cause |
| Preamble.RepeatedHeaderNeverAdmitted | src/preamble.js:187-198 | an input with a repeated checked header never yields `request`, `preflight` or `trace`, and no sample is taken |
| Preamble.ForwardedRequiredChecks | src/preamble.js:216-223 | with FORWARDED_REQUIRED set: no element, then no `for`, then a secret other than FORWARDED_SECRET, each rejected with its own cause |
| Preamble.ForwardedOptionalNeverRejects | src/preamble.js:221-223 | without FORWARDED_REQUIRED, an input that reaches the trust checks (every earlier check passes and the URL resolves) is never turned into an `error` |
| Preamble.OptionsIsPreflight | src/preamble.js:228-232 | for an input that passes every earlier check, resolves its URL and passes the trust checks, OPTIONS is a `preflight` with an empty method list and the preflight sample |
| Preamble.TraceOutcomes | src/preamble.js:256-263 | for an input that passes every earlier check, resolves its URL and passes the trust checks, TRACE gives `not-allowed` when trace is disabled; otherwise `not-acceptable` offering only message/http unless that type was negotiated; otherwise `trace` with method TRACE, the URL, headers and accept triple, and Max-Forwards 0 when absent or `Number.parseInt` of the header (no radix) when present |
| Preamble.OtherMethodIsRequest | src/preamble.js:265-300 | for an input that passes every earlier check, resolves its URL and passes the trust checks, any other known method gives `request`, carrying the method, URL, headers, conditions, accept triple, client address, SNI and the body request (1 MiB, 2000 ms, Content-Length parsed in base 10) |
| Preamble.RequestOnlyWhenAdmitted | src/preamble.js:169-300 | conversely, `request` arises only from an input that passes every check, with a method other than OPTIONS and TRACE |
| Preamble.SampleNamesThePath | src/preamble.js:228-300 | the timing sample pushed is named after the path taken (preflight, trace or request); every other exit pushes none |
| Preamble.UnresolvablePathThrows | src/preamble.js:201 | a path that passes every header check but does not resolve makes the code as written throw, and the corrected classification returns 'improper path' |
| Preamble.DoubleSlashBracketPath | src/preamble.js:201 | a GET with `:path` `//[` over a valid TLS session throws as written, and is rejected when corrected |
| Epilogue.Epilogue | src/epilogue.js:47-127 | the method appends ['X-Request-Id', streamId] whatever the type. It then makes exactly the one Responder call the switch chooses, or none when that arm throws. It installs the SSE bridge exactly for an active `sse` |
| Epilogue.Dispatch | src/epilogue.js:52-126 | the switch: it throws only in the `created` arm, with 'Invalid URL' (see Epilogue.OnlyCreatedCanThrow, Epilogue.DispatchMatchesType and the lemmas below for what each arm sends) |
| Epilogue.Responder.Send | src/epilogue.js:54-125 | each Responder call is appended to the log |
| Epilogue.OnlyCreatedCanThrow | src/epilogue.js:59 | the switch throws exactly for `created` whose location does not resolve against the allowed origin |
| Epilogue.DispatchMatchesType | src/epilogue.js:52-117 | every named type is rendered by its own Responder operation, which receives each field of the outcome that the source passes to it (the redirects' location, the trace method, URL and headers, the preflight methods and query types, etags, ages, lengths, messages, the json and bytes arguments); `created` receives its location resolved against the allowed origin |
| Epilogue.JsonDowngrade | src/epilogue.js:96-107 | `json` is sent (private, max-age 60) only when JSON was negotiated; otherwise `notAcceptable` offering exactly application/json |
| Epilogue.NotAcceptableDefaultsToEmpty | src/epilogue.js:74 | `not-acceptable` without a list offers the empty list |
| Epilogue.UnknownTypeIsError | src/epilogue.js:122-126 | a type outside the switch (`request`, or a type the union does not name) is rendered as the error 'unknown type <type>' and does not throw |
| Epilogue.ErrorRendersCause | src/epilogue.js:112-117 | `error` is rendered as an error with its cause |
| Epilogue.SseAlwaysOpens | src/epilogue.js:89-95 | `sse` always opens the event stream, with `active` and `bom` spread into the metadata |
| Epilogue.FixedArguments | src/epilogue.js:60-109 | `not-modified` is always private for 60 s, and `bytes` is always sent with the identity encoding |
| Server.AsError | src/index.js:486 | the error state differs from the state it came from only in its outcome |
| Server.Pipeline | src/index.js:484-487 | a router rejection is rendered as the error carrying its message, with one request id. Two request ids are appended exactly when the router's outcome makes the epilogue throw; the client then gets 'Invalid URL' |
| Server.Render | src/index.js:484-487 | after the router settles, on whatever custom headers the metadata already holds: the metadata gains exactly the request ids the pipeline appends, after those headers, and the log gains exactly the one call the pipeline renders, seeing the final headers; server name, origin and samples are unchanged; the SSE bridge exists exactly for an active `sse` outcome, with the stream, the outcome's port, the stream id and the shutdown signal |
| Server.RequestIdHeaders | src/epilogue.js:50 | n appends leave n copies of the request-id header |
| Server.HandleStream | src/index.js:466-489 | the stream is named by its random bytes and classified by the preamble, with the corrected classification (see "## Findings"); as written, an unresolvable path throws out of the handler before any Responder call. The router sees the preamble's state. Exactly one Responder call reaches the client, with the metadata's final custom headers. The state keeps the configuration and shutdown signal. The SSE bridge exists exactly for an active `sse` outcome, with the stream, the outcome's port, the stream id and the shutdown signal |

## Left out

- The `H2CoreServer` wiring is not modelled: TLS options, certificate loading, `listen` and `close`, and the logging of server, session and stream events. `closeCodeToString` is modelled, but the `close` listener that logs it is not.
- The `isServerStream` guard is not modelled, because the stream handler never receives a null stream.
- Randomness, timing and I/O are not modelled. The id's random bytes are a parameter. Timing samples keep only their names, because `performance.now()` durations are clock readings. Nothing is written to a socket.
- The body reader (`requestBody`), the `AbortSignal.any` / `AbortSignal.timeout` combination and the SSE port handler are not modelled. Only the arguments given to them are kept: the body limits, and the bridge's stream, port, id and signal.
- The header-semantics library, the URL parser and `Number.parseInt` are uninterpreted function parameters. The model proves nothing about how they parse, only how the core routes their results.
- The environment-derived policy (FORWARDED_REQUIRED, FORWARDED_SKIP_LIST, FORWARDED_SECRET, ALLOWED_ORIGINS, ALLOW_TRACE) is a parameter. It is taken as already split, trimmed and filtered.
- Server.HandleStream: the router is taken to return the state it was given, with only the outcome replaced (`{ ...state, type, ... }`). A router that builds a fresh envelope or metadata object is not modelled.
- Server.HandleStream: a router that throws synchronously instead of returning a rejected promise is not modelled.
- Server.HandleStream: the router's own writes to the shared metadata (custom headers, timing samples) are not modelled. The router is a function of the state, so the ids-only custom headers and the preamble-only samples it promises hold for such routers only; Server.Render itself takes whatever custom headers are already there.
- Epilogue.OnlyCreatedCanThrow: every `Response.*` call is taken to return normally, so only the `created` URL can throw. In the source any Responder call can throw (for instance on a stream the client reset while the router was awaited). Such a throw reaches the same catch at src/index.js:486 and appends the request id a second time, and a throw from the `error` epilogue only reaches the `Top Level Error` log. The lemma, Server.Pipeline and Server.Render hold under this assumption.
- The outcome datatype does not enforce the `NonEmptyArray` typing of `objs` in `partial-bytes` (`PartialBytes.objs`), since nothing in the core depends on it.
- A router outcome whose `type` is outside the union is `Unknown` and must not spell one of the named types (`TaggedAction`): a plain object with such a `type` would take that arm and is modelled by that arm's constructor.
- The `lastModified` field of `json` and `bytes` is omitted, because the epilogue never reads it. The preamble state's initial `cause: 'initialize'` is omitted too, because every exit overwrites the type and it is never rendered.
- Server.AsError: `{ ...state, type: 'error', ... }` keeps the other fields of the state it spreads (a `request`'s method, URL, headers and body, for instance); the model replaces the whole outcome, since the epilogue's `error` arm reads only `cause`.
- Epilogue.Dispatch: the `preflight` call's third argument (always `undefined`) and `partial-bytes`' encoding (always `undefined`) are left out of the recorded operation.
- The values of the Node HTTP/2 constants and of the header library's MIME constants are written out as the strings those libraries define. They are not read from the libraries.

## Findings

| source | as written | input that shows it | evidently intended | confidence | as-written member | corrected member |
|---|---|---|---|---|---|---|
| src/preamble.js:201 | `new URL(fullPathAndQuery, scheme://authority)` runs outside any try. `preamble` is called synchronously at src/index.js:483, before the promise chain whose catches would turn a throw into an `error` response, so an unresolvable path escapes the stream handler | a GET with `:path` `//[` over a TLS session with a server name (the URL parser rejects the host `[`) | the stream gets an `error` outcome ('improper path'), like the other malformed-path case at src/preamble.js:184 | not executed | Preamble.ClassifyAsWritten, Preamble.DoubleSlashBracketPath | Preamble.Classify |
