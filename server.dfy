/**
 * The per-stream pipeline of src/index.js (the `stream` handler of
 * `H2CoreServer`): preamble, then the router, then the epilogue; a
 * rejection anywhere after the preamble is rendered again as an `error`
 * outcome built from the preamble's state.
 */
module Server {
  import opened Wrappers
  import opened Headers
  import opened Outcome
  import opened Preamble
  import opened Epilogue
  import RequestIds

  /** How the router's promise settles: with an outcome, or rejected with a message. */
  datatype RouterResult = Ok(action: TaggedAction) | Fail(message: string)

  /**
   * `{ ...state, type: 'error', cause: message, error: e }`: the same
   * stream state with only its outcome replaced by an error.
   */
  function AsError(state: Route, message: string): (r: Route)
    ensures r.action == Error(message, Some(Fault(message)))
    ensures r.(action := state.action) == state
  {
    state.(action := Error(message, Some(Fault(message))))
  }

  /**
   * What a stream's pipeline finally renders: the one Responder call that
   * reaches the client, and how many times the request id was appended.
   */
  datatype Rendered = Rendered(op: Op, extension: Option<SseFlags>, requestIds: nat)

  /**
   * The rendering for a settled router: its outcome through the epilogue;
   * if the router or that epilogue rejects, an `error` outcome with the
   * rejection's message through the epilogue again.
   */
  function Pipeline(routed: RouterResult, origin: Option<HeaderVal>, url: UrlApi): (r: Rendered)
    ensures r.requestIds == 1 || r.requestIds == 2
    ensures routed.Fail? ==> r == Rendered(ErrorOp(routed.message), None, 1)
    ensures r.requestIds == 2 <==> routed.Ok? && Dispatch(routed.action, origin, url).Raise?
    ensures r.requestIds == 2 ==> r == Rendered(ErrorOp("Invalid URL"), None, 2)
    ensures routed.Ok? && Dispatch(routed.action, origin, url).Respond? ==>
      r == Rendered(Dispatch(routed.action, origin, url).op, Dispatch(routed.action, origin, url).extension, 1)
  {
    match routed
    case Fail(message) => Rendered(Dispatch(Error(message, Some(Fault(message))), origin, url).op, None, 1)
    case Ok(action) =>
      match Dispatch(action, origin, url)
      case Respond(op, extension) => Rendered(op, extension, 1)
      case Raise(message) => Rendered(Dispatch(Error(message, Some(Fault(message))), origin, url).op, None, 2)
  }

  /** `n` copies of the request-id header. */
  function RequestIdHeaders(streamId: string, n: nat): (r: seq<(string, string)>)
    ensures |r| == n
    ensures forall i :: 0 <= i < n ==> r[i] == (REQUEST_ID_HEADER, streamId)
  {
    if n == 0 then [] else RequestIdHeaders(streamId, n - 1) + [(REQUEST_ID_HEADER, streamId)]
  }

  /**
   * The promise chain after the router settles: the epilogue on the
   * router's outcome, and on a rejection the epilogue again on the
   * preamble's state turned into an error.
   */
  method Render(state: Route, routed: RouterResult, url: UrlApi, responder: Responder) returns (bridge: Option<Bridge>)
    modifies state.meta, responder
    ensures var rendered := Pipeline(routed, state.meta.origin, url);
      && state.meta.customHeaders == old(state.meta.customHeaders) + RequestIdHeaders(state.streamId, rendered.requestIds)
      && responder.log == old(responder.log) + [Entry(state.stream, rendered.op, state.meta.View(rendered.extension))]
    ensures state.meta.servername == old(state.meta.servername) && state.meta.origin == old(state.meta.origin)
    ensures state.meta.performance == old(state.meta.performance)
    ensures bridge == if routed.Ok? && routed.action.Sse? && routed.action.active
      then Some(Bridge(state.stream, routed.action.port, state.streamId, state.shutdown)) else None
  {
    match routed {
      case Fail(message) =>
        var _, _ := Epilogue.Epilogue(AsError(state, message), url, responder);
        bridge := None;
      case Ok(action) =>
        var fault;
        ghost var step := Dispatch(action, state.meta.origin, url);
        fault, bridge := Epilogue.Epilogue(state.(action := action), url, responder);
        if fault.Some? {
          assert step.Raise?;
          var _, _ := Epilogue.Epilogue(AsError(state, fault.value.message), url, responder);
        } else {
          assert step.Respond?;
        }
    }
  }

  /**
   * The `stream` handler, given the random bytes of the stream's id: name
   * the stream, classify (the corrected classification, which does not
   * throw on an unresolvable path), hand the state to the router whatever
   * its type, render the router's outcome
   * (the router is taken to spread the state it was given, so the outcome
   * shares its envelope and metadata), and on a rejection render the
   * preamble's state as an error. Returns the preamble's state and the SSE
   * bridge installed, if any.
   */
  method HandleStream(config: Config, random: seq<RequestIds.byte>, stream: Stream, h: Headers, servername: Option<string>,
                      shutdown: Signal, policy: Policy, api: Semantics, router: Route -> RouterResult,
                      responder: Responder)
    returns (state: Route, bridge: Option<Bridge>)
    requires |random| == RequestIds.REQUEST_ID_SIZE
    modifies responder
    ensures fresh(state.meta)
    ensures state.streamId == RequestIds.RequestId(random) && state.stream == stream
    ensures state.config == config && state.shutdown == shutdown
    ensures state.action == Classify(policy, api, h, stream.session, shutdown.aborted).action
    ensures state.meta.performance == SamplesOf(Classify(policy, api, h, stream.session, shutdown.aborted))
    ensures state.meta.origin == AllowedOrigin(policy, api.url, Get(h, ORIGIN))
    ensures var rendered := Pipeline(router(state), state.meta.origin, api.url);
      && state.meta.customHeaders == RequestIdHeaders(state.streamId, rendered.requestIds)
      && responder.log == old(responder.log) + [Entry(stream, rendered.op, state.meta.View(rendered.extension))]
    ensures bridge == if router(state).Ok? && router(state).action.Sse? && router(state).action.active
      then Some(Bridge(stream, router(state).action.port, state.streamId, shutdown)) else None
  {
    var streamId := RequestIds.RequestId(random);
    state := Preamble.Preamble(config, streamId, stream, h, servername, shutdown, policy, api);
    var routed := router(state);
    bridge := Render(state, routed, api.url, responder);
  }
}
