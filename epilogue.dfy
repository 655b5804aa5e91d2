/**
 * The epilogue dispatcher of src/epilogue.js: appends the `X-Request-Id`
 * header to the outcome's metadata in place, then makes exactly one
 * Responder call chosen by the outcome's `type`.
 */
module Epilogue {
  import opened Wrappers
  import opened Headers
  import opened Outcome
  import Preamble

  /** The cache directive argument of a Responder call. */
  datatype CacheControl = CacheControl(priv: Option<bool>, maxAge: Option<int>)

  /** The fixed directive of `not-modified` and `json` responses. */
  const PRIVATE_ONE_MINUTE: CacheControl := CacheControl(Some(true), Some(60))

  const IDENTITY: string := "identity"

  /**
   * A Responder call, one constructor per `Response.*` operation, with the
   * arguments other than the stream and the metadata.
   */
  datatype Op =
    | TraceOp(traceMethod: string, traceUrl: Url, traceHeaders: Headers)
    | PreflightOp(allowMethods: seq<string>, queryTypes: Option<seq<string>>)
    | NoContentOp(etag: Option<Etag>)
    | CreatedOp(createdUrl: Url, etag: Option<Etag>)
    | NotModifiedOp(etag: Option<Etag>, age: Option<int>, cache: CacheControl)
    | GoneOp
    | MovedPermanentlyOp(location: string)
    | SeeOtherOp(location: string)
    | TemporaryRedirectOp(location: string)
    | PermanentRedirectOp(location: string)
    | NotFoundOp(message: string)
    | ConflictOp
    | NotAllowedOp(allowMethods: seq<string>)
    | NotAcceptableOp(mediaTypes: seq<string>)
    | UnsupportedMediaTypeOp(acceptable: MediaTypes, queryTypes: Option<seq<string>>)
    | UnprocessableOp
    | PreconditionFailedOp
    | RangeNotSatisfiableOp(size: int)
    | ContentTooLargeOp
    | InsufficientStorageOp
    | TooManyRequestsOp(limit: Payload, policies: seq<Payload>)
    | UnauthorizedOp(challenge: Payload)
    | ForbiddenOp
    | UnavailableOp(reason: Option<string>, retryAfter: Option<int>)
    | NotImplementedOp(reason: Option<string>)
    | TimeoutOp
    | SseOp
    | JsonOp(obj: Payload, encoding: Option<string>, etag: Option<Etag>, age: Option<int>, cache: CacheControl,
             queryTypes: Option<seq<string>>)
    | PartialContentOp(contentType: string, objs: seq<Part>, contentLength: Option<int>, etag: Option<Etag>,
                       age: Option<int>, cache: CacheControl)
    | BytesOp(contentType: string, source: Option<Payload>, contentLength: Option<int>, encoding: Option<string>,
              etag: Option<Etag>, age: Option<int>, cache: CacheControl, acceptRanges: Option<string>)
    | ErrorOp(cause: string)

  /**
   * The outcome types and the Responder operations that render them, pair
   * by pair (`trace` by `trace`, `404` by `notFound`, `not-satisfiable` by
   * `rangeNotSatisfiable`, `partial-bytes` by `partialContent`, ...), each
   * operation receiving the outcome's fields the source passes to it.
   */
  predicate RenderedBy(a: Action, op: Op)
  {
    match a
    case Trace(m, u, h, _, _) => op.TraceOp? && op.traceMethod == m && op.traceUrl == u && op.traceHeaders == h
    case Preflight(_, _, methods, queryTypes) => op.PreflightOp? && op.allowMethods == methods && op.queryTypes == queryTypes
    case NoContent(etag) => op.NoContentOp? && op.etag == etag
    case Created(_, etag) => op.CreatedOp? && op.etag == etag
    case NotModified(etag, age) => op.NotModifiedOp? && op.etag == etag && op.age == age
    case Gone => op.GoneOp?
    case MovedPermanently(location) => op.MovedPermanentlyOp? && op.location == location
    case SeeOther(location) => op.SeeOtherOp? && op.location == location
    case TemporaryRedirect(location) => op.TemporaryRedirectOp? && op.location == location
    case PermanentRedirect(location) => op.PermanentRedirectOp? && op.location == location
    case NotFound(_, _, message) => op.NotFoundOp? && op.message == message
    case Conflict(_) => op.ConflictOp?
    case NotAllowed(_, _, methods) => op.NotAllowedOp? && op.allowMethods == methods
    case NotAcceptable(types, _, _) => op.NotAcceptableOp? && (types.Some? ==> op.mediaTypes == types.value)
    case UnsupportedMedia(types, queryTypes) => op.UnsupportedMediaTypeOp? && op.acceptable == types && op.queryTypes == queryTypes
    case Unprocessable(_) => op.UnprocessableOp?
    case PreconditionFailed(_) => op.PreconditionFailedOp?
    case NotSatisfiable(length) => op.RangeNotSatisfiableOp? && op.size == length
    case ContentTooLarge => op.ContentTooLargeOp?
    case InsufficientStorage => op.InsufficientStorageOp?
    case TooManyRequests(limit, policies) => op.TooManyRequestsOp? && op.limit == limit && op.policies == policies
    case Unauthorized(challenge) => op.UnauthorizedOp? && op.challenge == challenge
    case Forbidden => op.ForbiddenOp?
    case Unavailable(reason, retryAfter) => op.UnavailableOp? && op.reason == reason && op.retryAfter == retryAfter
    case NotImplemented(reason) => op.NotImplementedOp? && op.reason == reason
    case Timeout => op.TimeoutOp?
    case Sse(_, _, _, _) => op.SseOp?
    case Json(accept, obj, etag, age, queryTypes) =>
      op.JsonOp? && op.obj == obj && op.encoding == accept.encoding && op.etag == etag && op.age == age &&
      op.queryTypes == queryTypes
    case PartialBytes(objs, contentType, contentLength, etag, age, maxAge) =>
      op.PartialContentOp? && op.objs == objs && op.contentType == contentType && op.contentLength == contentLength &&
      op.etag == etag && op.age == age && op.cache.maxAge == maxAge
    case Bytes(contentType, contentLength, source, etag, age, maxAge, acceptRanges) =>
      op.BytesOp? && op.contentType == contentType && op.source == source && op.contentLength == contentLength &&
      op.etag == etag && op.age == age && op.cache.maxAge == maxAge && op.acceptRanges == acceptRanges
    case Error(cause, _) => op.ErrorOp? && op.cause == cause
    case Request(_, _, _, _, _, _, _, _) => false
    case Unknown(_) => false
  }

  /** One Responder call, recorded with its stream and the metadata it was given. */
  datatype Entry = Entry(stream: Stream, op: Op, meta: MetaView)

  /** The SSE bridge between a message port and a stream, as installed. */
  datatype Bridge = Bridge(stream: Stream, port: Payload, streamId: string, shutdown: Signal)

  /**
   * What an arm does: call the Responder (with the extra metadata fields
   * the `sse` arm spreads in), or throw.
   */
  datatype Step = Respond(op: Op, extension: Option<SseFlags>) | Raise(message: string)

  /** `new URL(location, meta.origin)`: an absent origin is no base. */
  function CreatedUrl(url: UrlApi, location: string, origin: Option<HeaderVal>): Option<Url>
  {
    url.newUrl(location, if origin.None? then None else Some(Stringify(origin)))
  }

  /** The switch of `epilogue`: the one Responder call for an outcome. */
  function Dispatch(a: Action, origin: Option<HeaderVal>, url: UrlApi): (s: Step)
    ensures s.Raise? ==> a.Created? && s.message == "Invalid URL"
  {
    match a
    case Trace(m, u, h, _, _) => Respond(TraceOp(m, u, h), None)
    case Preflight(_, _, methods, queryTypes) => Respond(PreflightOp(methods, queryTypes), None)
    case NoContent(etag) => Respond(NoContentOp(etag), None)
    case Created(location, etag) =>
      (match CreatedUrl(url, location, origin)
       case Some(u) => Respond(CreatedOp(u, etag), None)
       case None => Raise("Invalid URL"))
    case NotModified(etag, age) => Respond(NotModifiedOp(etag, age, PRIVATE_ONE_MINUTE), None)
    case Gone => Respond(GoneOp, None)
    case MovedPermanently(location) => Respond(MovedPermanentlyOp(location), None)
    case SeeOther(location) => Respond(SeeOtherOp(location), None)
    case TemporaryRedirect(location) => Respond(TemporaryRedirectOp(location), None)
    case PermanentRedirect(location) => Respond(PermanentRedirectOp(location), None)
    case NotFound(_, _, message) => Respond(NotFoundOp(message), None)
    case Conflict(_) => Respond(ConflictOp, None)
    case NotAllowed(_, _, methods) => Respond(NotAllowedOp(methods), None)
    case NotAcceptable(types, _, _) => Respond(NotAcceptableOp(types.GetOr([])), None)
    case UnsupportedMedia(types, queryTypes) => Respond(UnsupportedMediaTypeOp(types, queryTypes), None)
    case Unprocessable(_) => Respond(UnprocessableOp, None)
    case PreconditionFailed(_) => Respond(PreconditionFailedOp, None)
    case NotSatisfiable(length) => Respond(RangeNotSatisfiableOp(length), None)
    case ContentTooLarge => Respond(ContentTooLargeOp, None)
    case InsufficientStorage => Respond(InsufficientStorageOp, None)
    case TooManyRequests(limit, policies) => Respond(TooManyRequestsOp(limit, policies), None)
    case Unauthorized(challenge) => Respond(UnauthorizedOp(challenge), None)
    case Forbidden => Respond(ForbiddenOp, None)
    case Unavailable(reason, retryAfter) => Respond(UnavailableOp(reason, retryAfter), None)
    case NotImplemented(reason) => Respond(NotImplementedOp(reason), None)
    case Timeout => Respond(TimeoutOp, None)
    case Sse(active, bom, _, _) => Respond(SseOp, Some(SseFlags(active, bom)))
    case Json(accept, obj, etag, age, queryTypes) =>
      if accept.mediaType == Some(Preamble.MIME_TYPE_JSON)
      then Respond(JsonOp(obj, accept.encoding, etag, age, PRIVATE_ONE_MINUTE, queryTypes), None)
      else Respond(NotAcceptableOp([Preamble.MIME_TYPE_JSON]), None)
    case PartialBytes(objs, contentType, contentLength, etag, age, maxAge) =>
      Respond(PartialContentOp(contentType, objs, contentLength, etag, age, CacheControl(None, maxAge)), None)
    case Bytes(contentType, contentLength, source, etag, age, maxAge, acceptRanges) =>
      Respond(BytesOp(contentType, source, contentLength, Some(IDENTITY), etag, age, CacheControl(None, maxAge), acceptRanges), None)
    case Error(cause, _) => Respond(ErrorOp(cause), None)
    case Request(_, _, _, _, _, _, _, _) => Respond(ErrorOp("unknown type " + Tag(a)), None)
    case Unknown(tag) => Respond(ErrorOp("unknown type " + tag), None)
  }

  /** The Responder: an append-only log of the calls made to it. */
  class Responder {
    var log: seq<Entry>

    constructor ()
      ensures log == []
    {
      log := [];
    }

    /** Makes one call. */
    method Send(e: Entry)
      modifies this
      ensures log == old(log) + [e]
    {
      log := log + [e];
    }
  }

  /**
   * `epilogue`: appends ['X-Request-Id', streamId] to the metadata's custom
   * headers whatever the outcome, then makes the one call the switch
   * chooses. Returns the exception the arm threw, if any, and the SSE
   * bridge it installed, if any.
   */
  method Epilogue(route: Route, url: UrlApi, responder: Responder) returns (fault: Option<Fault>, bridge: Option<Bridge>)
    requires WellTagged(route.action)
    modifies route.meta, responder
    ensures route.meta.customHeaders == old(route.meta.customHeaders) + [(REQUEST_ID_HEADER, route.streamId)]
    ensures route.meta.servername == old(route.meta.servername) && route.meta.origin == old(route.meta.origin)
    ensures route.meta.performance == old(route.meta.performance)
    ensures var step := Dispatch(route.action, route.meta.origin, url);
      && (step.Respond? ==>
            responder.log == old(responder.log) + [Entry(route.stream, step.op, route.meta.View(step.extension))] &&
            fault.None?)
      && (step.Raise? ==> responder.log == old(responder.log) && fault == Some(Fault(step.message)))
    ensures bridge == if route.action.Sse? && route.action.active
      then Some(Bridge(route.stream, route.action.port, route.streamId, route.shutdown)) else None
  {
    route.meta.PushHeader(REQUEST_ID_HEADER, route.streamId);
    var step := Dispatch(route.action, route.meta.origin, url);
    match step {
      case Respond(op, extension) =>
        responder.Send(Entry(route.stream, op, route.meta.View(extension)));
        fault := None;
      case Raise(message) =>
        fault := Some(Fault(message));
    }
    bridge := None;
    if route.action.Sse? && route.action.active {
      bridge := Some(Bridge(route.stream, route.action.port, route.streamId, route.shutdown));
    }
  }

  // ---------------------------------------------------------------------
  // Properties of the dispatch
  // ---------------------------------------------------------------------

  /**
   * Only the `created` arm can throw, and only when its location does not
   * resolve against the allowed origin; every other outcome is rendered.
   */
  lemma OnlyCreatedCanThrow(a: Action, origin: Option<HeaderVal>, url: UrlApi)
    ensures Dispatch(a, origin, url).Raise? <==> a.Created? && CreatedUrl(url, a.location, origin).None?
  {
  }

  /**
   * Each `type` the switch names is rendered by its own Responder
   * operation, carrying the outcome's fields the source passes to it:
   * `json` when JSON was negotiated, `created` (with its location resolved
   * against the allowed origin) when that location resolves.
   */
  lemma DispatchMatchesType(a: Action, origin: Option<HeaderVal>, url: UrlApi)
    requires !a.Request? && !a.Unknown?
    requires a.Json? ==> a.accept.mediaType == Some("application/json")
    requires a.Created? ==> CreatedUrl(url, a.location, origin).Some?
    ensures Dispatch(a, origin, url).Respond? && RenderedBy(a, Dispatch(a, origin, url).op)
    ensures a.Created? ==> Dispatch(a, origin, url).op == CreatedOp(CreatedUrl(url, a.location, origin).value, a.etag)
  {
  }

  /**
   * `json` is sent as JSON, privately cacheable for 60 s, only when JSON was
   * negotiated; otherwise the call is `notAcceptable` offering exactly
   * application/json, and no payload is sent.
   */
  lemma JsonDowngrade(a: Action, origin: Option<HeaderVal>, url: UrlApi)
    requires a.Json?
    ensures a.accept.mediaType == Some("application/json") ==>
      Dispatch(a, origin, url) ==
        Respond(JsonOp(a.obj, a.accept.encoding, a.etag, a.age, CacheControl(Some(true), Some(60)), a.supportedQueryTypes), None)
    ensures a.accept.mediaType != Some("application/json") ==>
      Dispatch(a, origin, url) == Respond(NotAcceptableOp(["application/json"]), None)
  {
  }

  /** `not-acceptable` without a list of acceptable types offers the empty list. */
  lemma NotAcceptableDefaultsToEmpty(a: Action, origin: Option<HeaderVal>, url: UrlApi)
    requires a.NotAcceptable?
    ensures a.acceptableMediaTypes.None? ==> Dispatch(a, origin, url) == Respond(NotAcceptableOp([]), None)
    ensures a.acceptableMediaTypes.Some? ==>
      Dispatch(a, origin, url) == Respond(NotAcceptableOp(a.acceptableMediaTypes.value), None)
  {
  }

  /**
   * An outcome outside the switch, `request` included, is rendered as an
   * error naming its type; it does not throw. An `Unknown` outcome names a
   * type the union does not, so it never stands for an arm of the switch.
   */
  lemma UnknownTypeIsError(a: Action, origin: Option<HeaderVal>, url: UrlApi)
    requires a.Request? || a.Unknown?
    requires WellTagged(a)
    ensures Dispatch(a, origin, url) == Respond(ErrorOp("unknown type " + Tag(a)), None)
    ensures a.Request? ==> Dispatch(a, origin, url) == Respond(ErrorOp("unknown type request"), None)
  {
    if a.Request? {
      assert "unknown type " + Tag(a) == "unknown type request";
    }
  }

  /** An `error` outcome is rendered as an error with its cause. */
  lemma ErrorRendersCause(a: Action, origin: Option<HeaderVal>, url: UrlApi)
    requires a.Error?
    ensures Dispatch(a, origin, url) == Respond(ErrorOp(a.cause), None)
  {
  }

  /** `sse` always opens the event stream, with `active` and `bom` spread into the metadata. */
  lemma SseAlwaysOpens(a: Action, origin: Option<HeaderVal>, url: UrlApi)
    requires a.Sse?
    ensures Dispatch(a, origin, url) == Respond(SseOp, Some(SseFlags(a.active, a.bom)))
  {
  }

  /**
   * Fixed arguments: `not-modified` is always privately cacheable for 60 s,
   * and `bytes` is always sent with the identity encoding.
   */
  lemma FixedArguments(a: Action, origin: Option<HeaderVal>, url: UrlApi)
    ensures a.NotModified? ==> Dispatch(a, origin, url).op.cache == CacheControl(Some(true), Some(60))
    ensures a.Bytes? ==>
      Dispatch(a, origin, url).op.BytesOp? && Dispatch(a, origin, url).op.encoding == Some("identity") &&
      Dispatch(a, origin, url).op.cache == CacheControl(None, a.maxAge)
  {
  }
}
