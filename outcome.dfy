/**
 * The route outcome union of src/index.js (`RouteRequest | RouteAction`)
 * and the envelope every outcome shares: the stream, its id, the shutdown
 * signal, the server configuration and the mutable response metadata.
 */
module Outcome {
  import opened Wrappers
  import opened Headers

  /** A parsed URL, by its serialisation. */
  datatype Url = Url(href: string)

  /**
   * The WHATWG URL operations the core calls, left uninterpreted:
   * `URL.canParse(input)` and `new URL(input, base)`, which is None where
   * the constructor throws a TypeError.
   */
  datatype UrlApi = UrlApi(canParse: string -> bool, newUrl: (string, Option<string>) -> Option<Url>)

  /**
   * A value this core passes along without looking inside it: a JSON object,
   * a body source, a message port, a rate-limit record, a challenge.
   */
  datatype Payload = Payload(id: nat)

  datatype Etag = Etag(weak: bool, opaqueTag: string)

  /** An IMF-fixdate, by its instant. */
  datatype FixDate = FixDate(epochSeconds: int)

  /** The result of `Number.parseInt`: an integer or NaN. */
  datatype ParsedInt = Num(value: int) | NaN

  /** A parsed Content-Type header. */
  datatype ContentType = ContentType(mimeType: string, charset: Option<string>)

  /** The validator of an If-Range header: a date or an entity tag. */
  datatype RangeValidator = RangeDate(date: FixDate) | RangeEtag(etag: Etag)

  /** Conditional-request directives (`RouteConditions`). */
  datatype Conditions = Conditions(
    matches: seq<Etag>,
    noneMatch: seq<Etag>,
    modifiedSince: Option<FixDate>,
    unmodifiedSince: Option<FixDate>,
    range: Option<RangeValidator>)

  /** The negotiated media type, encoding and language (`RouteRequestAccept`). */
  datatype AcceptTriple = AcceptTriple(mediaType: Option<string>, encoding: Option<string>, language: Option<string>)

  /** The remote end of the connection (`RouteRemoteClient`). */
  datatype Client = Client(family: Option<string>, ip: Option<string>, port: Option<int>)

  /** The arguments with which the body reader was asked for a body handle. */
  datatype BodyRequest = BodyRequest(
    byteLimit: nat,
    contentLength: Option<ParsedInt>,
    contentType: Option<ContentType>,
    timeoutMsec: nat)

  /** A failure captured for diagnostics (`Error`). */
  datatype Fault = Fault(message: string)

  /** `acceptableMediaTypes` of `unsupported-media`: an array or a single string. */
  datatype MediaTypes = MediaType(name: string) | MediaTypeList(names: seq<string>)

  /** One range of a multi-range response (`PartialBytes`). */
  datatype Part = Part(obj: Payload, range: Payload)

  /**
   * The outcome of a stream, one constructor per `type` discriminator: the
   * `RouteRequest` and `RouteAction` members, the further types the
   * epilogue's switch handles, and `Unknown` for a discriminator outside
   * the closed set.
   */
  datatype Action =
    | Request(httpMethod: string, url: Url, headers: Headers, body: BodyRequest, conditions: Conditions,
              accept: AcceptTriple, client: Client, sni: string)
    | Error(cause: string, error: Option<Fault>)
    | NotAllowed(httpMethod: string, url: Url, methods: seq<string>)
    | Preflight(httpMethod: string, url: Url, methods: seq<string>, supportedQueryTypes: Option<seq<string>>)
    | Bytes(contentType: string, contentLength: Option<int>, source: Option<Payload>, etag: Option<Etag>,
            age: Option<int>, maxAge: Option<int>, acceptRanges: Option<string>)
    | Json(accept: AcceptTriple, obj: Payload, etag: Option<Etag>, age: Option<int>,
           supportedQueryTypes: Option<seq<string>>)
    | NotFound(httpMethod: string, url: Url, message: string)
    | Sse(active: bool, bom: bool, port: Payload, accept: AcceptTriple)
    | Trace(httpMethod: string, url: Url, headers: Headers, maxForwards: ParsedInt, accept: AcceptTriple)
    | Created(location: string, etag: Option<Etag>)
    | UnsupportedMedia(acceptableTypes: MediaTypes, supportedQueryTypes: Option<seq<string>>)
    | NotModified(etag: Option<Etag>, age: Option<int>)
    | PreconditionFailed(etag: Option<Etag>)
    | Unprocessable(message: string)
    | NotAcceptable(acceptableMediaTypes: Option<seq<string>>, acceptableEncodings: Option<seq<string>>,
                    acceptableLanguages: Option<seq<string>>)
    | Conflict(conflictMessage: Option<string>)
    | NotImplemented(reason: Option<string>)
    | Unavailable(reason: Option<string>, retryAfter: Option<int>)
    | PartialBytes(objs: seq<Part>, contentType: string, contentLength: Option<int>, etag: Option<Etag>,
                   age: Option<int>, maxAge: Option<int>)
    | NotSatisfiable(resourceLength: int)
    | NoContent(etag: Option<Etag>)
    | Gone
    | MovedPermanently(location: string)
    | SeeOther(location: string)
    | TemporaryRedirect(location: string)
    | PermanentRedirect(location: string)
    | ContentTooLarge
    | InsufficientStorage
    | TooManyRequests(limit: Payload, policies: seq<Payload>)
    | Unauthorized(challenge: Payload)
    | Forbidden
    | Timeout
    | Unknown(tag: string)

  /** The `type` discriminator of an outcome, as the source spells it. */
  function Tag(a: Action): string
  {
    match a
    case Request(_, _, _, _, _, _, _, _) => "request"
    case Error(_, _) => "error"
    case NotAllowed(_, _, _) => "not-allowed"
    case Preflight(_, _, _, _) => "preflight"
    case Bytes(_, _, _, _, _, _, _) => "bytes"
    case Json(_, _, _, _, _) => "json"
    case NotFound(_, _, _) => "404"
    case Sse(_, _, _, _) => "sse"
    case Trace(_, _, _, _, _) => "trace"
    case Created(_, _) => "created"
    case UnsupportedMedia(_, _) => "unsupported-media"
    case NotModified(_, _) => "not-modified"
    case PreconditionFailed(_) => "precondition-failed"
    case Unprocessable(_) => "unprocessable"
    case NotAcceptable(_, _, _) => "not-acceptable"
    case Conflict(_) => "conflict"
    case NotImplemented(_) => "not-implemented"
    case Unavailable(_, _) => "unavailable"
    case PartialBytes(_, _, _, _, _, _) => "partial-bytes"
    case NotSatisfiable(_) => "not-satisfiable"
    case NoContent(_) => "no-content"
    case Gone => "gone"
    case MovedPermanently(_) => "moved-permanently"
    case SeeOther(_) => "see-other"
    case TemporaryRedirect(_) => "temporary-redirect"
    case PermanentRedirect(_) => "permanent-redirect"
    case ContentTooLarge => "content-too-large"
    case InsufficientStorage => "insufficient-storage"
    case TooManyRequests(_, _) => "too-many-requests"
    case Unauthorized(_) => "unauthorized"
    case Forbidden => "forbidden"
    case Timeout => "timeout"
    case Unknown(tag) => tag
  }

  /**
   * The `type` strings of the union: `request` and the thirty-one types the
   * epilogue's switch names.
   */
  const NAMED_TAGS: set<string> := {
    "request", "error", "not-allowed", "preflight", "bytes", "json", "404", "sse", "trace", "created",
    "unsupported-media", "not-modified", "precondition-failed", "unprocessable", "not-acceptable",
    "conflict", "not-implemented", "unavailable", "partial-bytes", "not-satisfiable", "no-content",
    "gone", "moved-permanently", "see-other", "temporary-redirect", "permanent-redirect",
    "content-too-large", "insufficient-storage", "too-many-requests", "unauthorized", "forbidden",
    "timeout"}

  /** An outcome whose `type`, when outside the union, is not one the union names. */
  predicate WellTagged(a: Action)
  {
    a.Unknown? ==> a.tag !in NAMED_TAGS
  }

  /** An outcome as a router can produce it: `Unknown` holds only a type the union does not name. */
  type TaggedAction = a: Action | WellTagged(a) witness Gone

  /**
   * Every constructor but `Unknown` carries a named type, so on well-tagged
   * outcomes the type string tells `Unknown` apart from every member of
   * the union.
   */
  lemma NamedTagsAreTheUnion(a: Action)
    requires WellTagged(a)
    ensures Tag(a) in NAMED_TAGS <==> !a.Unknown?
  {
  }

  /** The TLS server name of a socket: a name, or Node's `null` / `false`. */
  datatype Sni = SniNull | SniFalse | SniName(name: string)

  /** The session's socket as the classifier inspects it. */
  datatype Socket = Socket(isTls: bool, remoteFamily: Option<string>, remoteAddress: Option<string>,
                           remotePort: Option<int>, servername: Sni)

  datatype Session = Session(socket: Socket)

  /** A server stream, by its protocol id and its (possibly missing) session. */
  datatype Stream = Stream(id: nat, session: Option<Session>)

  /** The process-wide shutdown signal, as observed when the stream arrived. */
  datatype Signal = Signal(aborted: bool)

  /** The embedding application's configuration (`Config`), carried unread. */
  datatype Config = Config(maintenanceMode: Option<bool>)

  /** A timing sample; only its name is modelled. */
  datatype Sample = Sample(name: string)

  const REQUEST_ID_HEADER: string := "X-Request-Id"

  /** The extra fields the `sse` arm adds to a copy of the metadata. */
  datatype SseFlags = SseFlags(active: bool, bom: bool)

  /** A snapshot of the metadata as a Responder call receives it. */
  datatype MetaView = MetaView(
    servername: Option<string>,
    performance: seq<Sample>,
    origin: Option<HeaderVal>,
    customHeaders: seq<(string, string)>,
    extension: Option<SseFlags>)

  /**
   * Per-stream response metadata. Every copy of a stream's state shares the
   * one object, and the preamble and epilogue append to its lists in place.
   */
  class Meta {
    var servername: Option<string>
    var performance: seq<Sample>
    var origin: Option<HeaderVal>
    var customHeaders: seq<(string, string)>

    constructor (servername: Option<string>, origin: Option<HeaderVal>)
      ensures this.servername == servername && this.origin == origin
      ensures performance == [] && customHeaders == []
    {
      this.servername := servername;
      this.origin := origin;
      performance := [];
      customHeaders := [];
    }

    /** The metadata as a Responder call sees it, with `extension` spread in. */
    function View(extension: Option<SseFlags>): (v: MetaView)
      reads this
      ensures v.customHeaders == customHeaders && v.extension == extension
    {
      MetaView(servername, performance, origin, customHeaders, extension)
    }

    /** `performance.push(sample)`. */
    method PushSample(s: Sample)
      modifies this
      ensures performance == old(performance) + [s]
      ensures servername == old(servername) && origin == old(origin) && customHeaders == old(customHeaders)
    {
      performance := performance + [s];
    }

    /** `customHeaders.push([name, value])`. */
    method PushHeader(name: string, value: string)
      modifies this
      ensures customHeaders == old(customHeaders) + [(name, value)]
      ensures servername == old(servername) && origin == old(origin) && performance == old(performance)
    {
      customHeaders := customHeaders + [(name, value)];
    }
  }

  /** A stream's state: its outcome and the envelope every outcome carries (`RouteBase`). */
  datatype Route = Route(action: Action, config: Config, streamId: string, stream: Stream, meta: Meta, shutdown: Signal)
}
