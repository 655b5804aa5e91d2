/**
 * The preamble classifier of src/preamble.js: from a stream's headers, its
 * session, the server policy and the shutdown signal, either a validated
 * `request` outcome or an early terminal outcome. The checks run in a fixed
 * order and the first failing one decides.
 */
module Preamble {
  import opened Wrappers
  import opened Headers
  import opened Outcome

  /**
   * The policy the source reads from the process environment once at load
   * time: FORWARDED_REQUIRED, FORWARDED_SKIP_LIST, FORWARDED_SECRET,
   * ALLOWED_ORIGINS (already split, trimmed and without empty entries) and
   * ALLOW_TRACE.
   */
  datatype Policy = Policy(
    forwardedRequired: bool,
    forwardedDropRightmost: seq<string>,
    forwardedSecret: Option<string>,
    allowedOrigins: seq<string>,
    allowTrace: bool)

  /** A parsed Forwarded element: its parameters by name. */
  type ForwardedEntry = map<string, string>

  /**
   * The header-semantics library, left uninterpreted: content negotiation,
   * conditional-request parsing, Forwarded parsing and right-most selection,
   * Content-Type parsing, `Number.parseInt` (with an optional radix), the
   * encodings the encoder map supports and the known Forwarded keys.
   */
  datatype Semantics = Semantics(
    url: UrlApi,
    selectMediaType: (Option<string>, seq<string>) -> Option<string>,
    selectEncoding: (Option<string>, seq<string>) -> Option<string>,
    selectLanguage: (Option<string>, seq<string>) -> Option<string>,
    parseEtagList: Option<string> -> seq<Etag>,
    parseFixDate: Option<string> -> Option<FixDate>,
    parseEtag: Option<string> -> Option<Etag>,
    parseForwarded: (Option<HeaderVal>, seq<string>) -> seq<ForwardedEntry>,
    selectRightMost: (seq<ForwardedEntry>, seq<string>) -> Option<ForwardedEntry>,
    parseContentType: Option<string> -> Option<ContentType>,
    parseInt: (string, Option<nat>) -> ParsedInt,
    supportedEncodings: seq<string>,
    knownForwardedKeys: seq<string>)

  const MIME_TYPE_JSON: string := "application/json"
  const MIME_TYPE_XML: string := "application/xml"
  const MIME_TYPE_TEXT: string := "text/plain"
  const MIME_TYPE_EVENT_STREAM: string := "text/event-stream"
  const MIME_TYPE_MESSAGE_HTTP: string := "message/http"

  const DEFAULT_SUPPORTED_LANGUAGES: seq<string> := ["en-US", "en"]
  const DEFAULT_SUPPORTED_MIME_TYPES: seq<string> :=
    [MIME_TYPE_JSON, MIME_TYPE_XML, MIME_TYPE_TEXT, MIME_TYPE_EVENT_STREAM, MIME_TYPE_MESSAGE_HTTP]

  const FORWARDED_KEY_FOR: string := "for"
  const FORWARDED_KEY_SECRET: string := "secret"

  const BODY_TIMEOUT_MSEC: nat := 2 * 1000
  const BODY_BYTE_LENGTH: nat := 1024 * 1024
  const RETRY_AFTER_SEC: int := 60

  const SAMPLE_PREFLIGHT: Sample := Sample("preamble-preflight")
  const SAMPLE_TRACE: Sample := Sample("preamble-trace")
  const SAMPLE_REQUEST: Sample := Sample("preamble")

  /**
   * The twelve headers that must not be repeated, each with the cause of
   * the error it yields, in the order the source checks them.
   */
  const SINGLE_VALUED_CHECKS: seq<(string, string)> := [
    (CONTENT_TYPE, "improper header (content type)"),
    (CONTENT_LENGTH, "improper header (content length)"),
    (ACCEPT, "improper header (accept)"),
    (ACCEPT_ENCODING, "improper header (accept encoding)"),
    (ACCEPT_LANGUAGE, "improper header (accept language)"),
    (AUTHORIZATION, "improper header (authorization)"),
    (MAX_FORWARDS, "improper header (max forwards)"),
    (IF_MATCH, "improper header (if match)"),
    (IF_NONE_MATCH, "improper header (if none match)"),
    (IF_MODIFIED_SINCE, "improper header (if modified since)"),
    (IF_UNMODIFIED_SINCE, "improper header (if unmodified since)"),
    (IF_RANGE, "improper header (if range)")]

  /**
   * What the classification decided: an outcome and the timing sample it
   * pushed, if any; or, in the code as written, an exception.
   */
  datatype Verdict = Classified(action: Action, sample: Option<Sample>) | Throws(message: string)

  /** An `error` exit: no sample. */
  function Rejected(cause: string): Verdict
  {
    Classified(Error(cause, None), None)
  }

  /** `ALLOWED_ORIGINS.includes(origin)`: only a string can be listed. */
  predicate Listed(allowed: seq<string>, origin: HeaderVal)
  {
    origin.Single? && origin.s in allowed
  }

  /**
   * The origin the outcome's metadata carries: the Origin header when the
   * allow-list holds the wildcard or the header is a parsable URL that is
   * listed, and nothing otherwise.
   */
  function AllowedOrigin(policy: Policy, url: UrlApi, origin: Option<HeaderVal>): (r: Option<HeaderVal>)
    ensures "*" in policy.allowedOrigins ==> r == origin
    ensures (exists s :: origin == Some(Single(s)) && url.canParse(s) && s in policy.allowedOrigins) ==> r == origin
    ensures r != origin ==> r == None
    ensures r.Some? ==>
      ("*" in policy.allowedOrigins ||
       (origin.value.Single? && url.canParse(origin.value.s) && origin.value.s in policy.allowedOrigins))
  {
    if "*" in policy.allowedOrigins || (origin.Some? && url.canParse(Stringify(origin)) && Listed(policy.allowedOrigins, origin.value))
    then origin
    else None
  }

  /** The cause of the first check whose header is an array, if any. */
  function FirstImproper(h: Headers, checks: seq<(string, string)>): Option<string>
  {
    if checks == [] then None
    else if !IsValidLikeHeader(Get(h, checks[0].0)) then Some(checks[0].1)
    else FirstImproper(h, checks[1..])
  }

  /** No cause is found exactly when no checked header is an array. */
  lemma {:induction false} FirstImproperNone(h: Headers, checks: seq<(string, string)>)
    ensures FirstImproper(h, checks).None? <==>
      forall i :: 0 <= i < |checks| ==> IsValidLikeHeader(Get(h, checks[i].0))
  {
    if checks != [] {
      FirstImproperNone(h, checks[1..]);
      assert forall i :: 1 <= i < |checks| ==> checks[i] == checks[1..][i - 1];
    }
  }

  /** The first checked header that is an array decides the cause. */
  lemma {:induction false} FirstImproperAt(h: Headers, checks: seq<(string, string)>, k: nat)
    requires k < |checks|
    requires !IsValidLikeHeader(Get(h, checks[k].0))
    requires forall j :: 0 <= j < k ==> IsValidLikeHeader(Get(h, checks[j].0))
    ensures FirstImproper(h, checks) == Some(checks[k].1)
  {
    if k > 0 {
      FirstImproperAt(h, checks[1..], k - 1);
    }
  }

  /** Session and transport: a TLS socket with a server name. */
  predicate SessionOk(session: Option<Session>)
  {
    session.Some? && session.value.socket.isTls && session.value.socket.servername.SniName?
  }

  /** Path, method and the twelve single-valued headers pass. */
  predicate HeadersOk(h: Headers)
  {
    IsValidHeader(Get(h, PATH)) && IsValidMethod(Get(h, METHOD)) &&
    FirstImproper(h, SINGLE_VALUED_CHECKS).None?
  }

  /** `new URL(path, `${scheme}://${authority}`)`. */
  function RequestUrl(api: Semantics, h: Headers): Option<Url>
  {
    api.url.newUrl(Stringify(Get(h, PATH)), Some(Stringify(Get(h, SCHEME)) + "://" + Stringify(Get(h, AUTHORITY))))
  }

  /** The conditional-request directives of the (validated) headers. */
  function ParseConditions(api: Semantics, h: Headers): Conditions
  {
    var ifRange := AsString(Get(h, IF_RANGE));
    Conditions(
      api.parseEtagList(AsString(Get(h, IF_MATCH))),
      api.parseEtagList(AsString(Get(h, IF_NONE_MATCH))),
      api.parseFixDate(AsString(Get(h, IF_MODIFIED_SINCE))),
      api.parseFixDate(AsString(Get(h, IF_UNMODIFIED_SINCE))),
      match api.parseFixDate(ifRange)
      case Some(d) => Some(RangeDate(d))
      case None => match api.parseEtag(ifRange)
        case Some(e) => Some(RangeEtag(e))
        case None => None)
  }

  /** The right-most Forwarded element left after dropping the configured hops. */
  function SelectedForwarded(policy: Policy, api: Semantics, h: Headers): Option<ForwardedEntry>
  {
    var list := api.parseForwarded(Get(h, FORWARDED), api.knownForwardedKeys + [FORWARDED_KEY_SECRET]);
    api.selectRightMost(list, policy.forwardedDropRightmost)
  }

  /** `forwarded?.get(key)`. */
  function ForwardedParam(entry: Option<ForwardedEntry>, key: string): Option<string>
  {
    if entry.Some? && key in entry.value then Some(entry.value[key]) else None
  }

  /**
   * The Forwarded trust checks: the cause of the first one that fails, and
   * None whenever the policy does not require the header.
   */
  function ForwardedFailure(policy: Policy, api: Semantics, h: Headers): (r: Option<string>)
    ensures !policy.forwardedRequired ==> r.None?
    ensures policy.forwardedRequired && SelectedForwarded(policy, api, h).None? ==> r == Some("forwarded required")
  {
    var forwarded := SelectedForwarded(policy, api, h);
    if policy.forwardedRequired && forwarded.None? then Some("forwarded required")
    else if policy.forwardedRequired && ForwardedParam(forwarded, FORWARDED_KEY_FOR).None? then Some("forwarded for required")
    else if policy.forwardedRequired && ForwardedParam(forwarded, FORWARDED_KEY_SECRET) != policy.forwardedSecret then Some("forwarded invalid")
    else None
  }

  /** The accept triple chosen by content negotiation. */
  function Negotiate(api: Semantics, h: Headers): AcceptTriple
  {
    AcceptTriple(
      api.selectMediaType(AsString(Get(h, ACCEPT)), DEFAULT_SUPPORTED_MIME_TYPES),
      api.selectEncoding(AsString(Get(h, ACCEPT_ENCODING)), api.supportedEncodings),
      api.selectLanguage(AsString(Get(h, ACCEPT_LANGUAGE)), DEFAULT_SUPPORTED_LANGUAGES))
  }

  /** The arguments of the body-reader call. */
  function BodyRequestFor(api: Semantics, h: Headers): (b: BodyRequest)
    ensures b.byteLimit == BODY_BYTE_LENGTH && b.timeoutMsec == BODY_TIMEOUT_MSEC
    ensures Get(h, CONTENT_LENGTH).None? ==> b.contentLength.None?
  {
    var length := AsString(Get(h, CONTENT_LENGTH));
    BodyRequest(
      BODY_BYTE_LENGTH,
      if length.None? then None else Some(api.parseInt(length.value, Some(10))),
      api.parseContentType(AsString(Get(h, CONTENT_TYPE))),
      BODY_TIMEOUT_MSEC)
  }

  /** `Number.parseInt` of Max-Forwards, and 0 when the header is absent. */
  function MaxForwards(api: Semantics, h: Headers): ParsedInt
  {
    match AsString(Get(h, MAX_FORWARDS))
    case None => Num(0)
    case Some(s) => api.parseInt(s, None)
  }

  /** The TRACE short-circuit. */
  function TraceVerdict(policy: Policy, api: Semantics, h: Headers, url: Url): Verdict
  {
    if !policy.allowTrace then Classified(NotAllowed(TRACE, url, []), None)
    else
      var accept := Negotiate(api, h);
      if accept.mediaType != Some(MIME_TYPE_MESSAGE_HTTP)
      then Classified(NotAcceptable(Some([MIME_TYPE_MESSAGE_HTTP]), None, None), Some(SAMPLE_TRACE))
      else Classified(Trace(TRACE, url, h, MaxForwards(api, h), accept), Some(SAMPLE_TRACE))
  }

  /** Everything after the header checks, once the URL is built. */
  function AdmittedVerdict(policy: Policy, api: Semantics, h: Headers, socket: Socket, verb: string, url: Url): Verdict
    requires socket.servername.SniName?
  {
    match ForwardedFailure(policy, api, h)
    case Some(cause) => Rejected(cause)
    case None =>
      if verb == OPTIONS then Classified(Preflight(OPTIONS, url, [], None), Some(SAMPLE_PREFLIGHT))
      else if verb == TRACE then TraceVerdict(policy, api, h, url)
      else
        var client := Client(socket.remoteFamily, socket.remoteAddress, socket.remotePort);
        Classified(
          Request(verb, url, h, BodyRequestFor(api, h), ParseConditions(api, h), Negotiate(api, h),
                  client, socket.servername.name),
          Some(SAMPLE_REQUEST))
  }

  /**
   * The classification as the source writes it (src/preamble.js:169-300).
   * `new URL` at line 201 throws on a path it cannot resolve, and nothing in
   * the function catches it.
   */
  function ClassifyAsWritten(policy: Policy, api: Semantics, h: Headers, session: Option<Session>, aborted: bool): (v: Verdict)
    ensures v.Throws? ==> v.message == "Invalid URL" && RequestUrl(api, h).None?
  {
    if aborted then Classified(Unavailable(None, Some(RETRY_AFTER_SEC)), None)
    else if session.None? then Rejected("undefined session")
    else if !session.value.socket.isTls then Rejected("not a TLSSocket")
    else if !session.value.socket.servername.SniName? then Rejected("invalid or unknown SNI")
    else if !IsValidHeader(Get(h, PATH)) then Rejected("improper path")
    else if !IsValidMethod(Get(h, METHOD)) then Classified(NotImplemented(Some("unknown or invalid method")), None)
    else match FirstImproper(h, SINGLE_VALUED_CHECKS)
      case Some(cause) => Rejected(cause)
      case None =>
        match RequestUrl(api, h)
        case None => Throws("Invalid URL")
        case Some(url) => AdmittedVerdict(policy, api, h, session.value.socket, Get(h, METHOD).value.s, url)
  }

  /**
   * The classification, total: a path the URL constructor rejects yields an
   * `error` outcome ('improper path') instead of an exception. On every
   * other input it is the classification as written.
   */
  function Classify(policy: Policy, api: Semantics, h: Headers, session: Option<Session>, aborted: bool): (v: Verdict)
    ensures v.Classified?
    ensures ClassifyAsWritten(policy, api, h, session, aborted).Classified? ==> v == ClassifyAsWritten(policy, api, h, session, aborted)
  {
    match ClassifyAsWritten(policy, api, h, session, aborted)
    case Throws(_) => Rejected("improper path")
    case c => c
  }

  /**
   * `preamble`: builds the metadata object (server name, allowed origin,
   * empty sample and header lists), classifies, and pushes the timing
   * sample of the path taken onto the metadata in place.
   */
  method Preamble(config: Config, streamId: string, stream: Stream, h: Headers, servername: Option<string>,
                  shutdown: Signal, policy: Policy, api: Semantics) returns (state: Route)
    ensures fresh(state.meta)
    ensures state.config == config && state.streamId == streamId && state.stream == stream && state.shutdown == shutdown
    ensures state.action == Classify(policy, api, h, stream.session, shutdown.aborted).action
    ensures state.meta.performance == SamplesOf(Classify(policy, api, h, stream.session, shutdown.aborted))
    ensures state.meta.origin == AllowedOrigin(policy, api.url, Get(h, ORIGIN))
    ensures state.meta.servername == servername && state.meta.customHeaders == []
  {
    var meta := new Meta(servername, AllowedOrigin(policy, api.url, Get(h, ORIGIN)));
    var verdict := Classify(policy, api, h, stream.session, shutdown.aborted);
    if verdict.sample.Some? {
      meta.PushSample(verdict.sample.value);
    }
    state := Route(verdict.action, config, streamId, stream, meta, shutdown);
  }

  /** The samples a classified verdict leaves in the metadata. */
  function SamplesOf(v: Verdict): (r: seq<Sample>)
    requires v.Classified?
    ensures |r| <= 1
  {
    if v.sample.Some? then [v.sample.value] else []
  }

  // ---------------------------------------------------------------------
  // Properties of the classification
  // ---------------------------------------------------------------------

  /** Every check before the Forwarded trust checks passes and the URL resolves. */
  predicate Reached(api: Semantics, h: Headers, session: Option<Session>, aborted: bool)
  {
    !aborted && SessionOk(session) && HeadersOk(h) && RequestUrl(api, h).Some?
  }

  /** A shutdown already signalled yields `unavailable`, retry after 60 s, whatever else holds. */
  lemma ShutdownPrecedence(policy: Policy, api: Semantics, h: Headers, session: Option<Session>)
    ensures Classify(policy, api, h, session, true) == Classified(Unavailable(None, Some(60)), None)
  {
  }

  /** The session checks come next, in order, before any header is looked at. */
  lemma SessionChecksPrecedeHeaders(policy: Policy, api: Semantics, h: Headers, session: Option<Session>)
    ensures session.None? ==> Classify(policy, api, h, session, false) == Rejected("undefined session")
    ensures session.Some? && !session.value.socket.isTls ==>
      Classify(policy, api, h, session, false) == Rejected("not a TLSSocket")
    ensures session.Some? && session.value.socket.isTls && session.value.socket.servername in {SniNull, SniFalse} ==>
      Classify(policy, api, h, session, false) == Rejected("invalid or unknown SNI")
  {
  }

  /** A missing or repeated path is an error; then an invalid or unknown method is `not-implemented`. */
  lemma PathBeforeMethod(policy: Policy, api: Semantics, h: Headers, session: Option<Session>)
    requires SessionOk(session)
    ensures (PATH !in h || h[PATH].Multi?) ==> Classify(policy, api, h, session, false) == Rejected("improper path")
    ensures PATH in h && h[PATH].Single? && !(METHOD in h && h[METHOD].Single? && h[METHOD].s in KNOWN_METHODS) ==>
      Classify(policy, api, h, session, false) == Classified(NotImplemented(Some("unknown or invalid method")), None)
  {
  }

  /**
   * With session, path and method valid, the first of the twelve headers
   * that is repeated decides the error cause.
   */
  lemma RepeatedHeaderRejected(policy: Policy, api: Semantics, h: Headers, session: Option<Session>, k: nat)
    requires SessionOk(session) && IsValidHeader(Get(h, PATH)) && IsValidMethod(Get(h, METHOD))
    requires k < |SINGLE_VALUED_CHECKS|
    requires SINGLE_VALUED_CHECKS[k].0 in h && h[SINGLE_VALUED_CHECKS[k].0].Multi?
    requires forall j :: 0 <= j < k ==> IsValidLikeHeader(Get(h, SINGLE_VALUED_CHECKS[j].0))
    ensures Classify(policy, api, h, session, false) == Rejected(SINGLE_VALUED_CHECKS[k].1)
  {
    FirstImproperAt(h, SINGLE_VALUED_CHECKS, k);
  }

  /**
   * A repeated checked header never lets a request through: the outcome is
   * `unavailable`, `error` or `not-implemented`, never `request`,
   * `preflight` or `trace`, and no timing sample is taken.
   */
  lemma RepeatedHeaderNeverAdmitted(policy: Policy, api: Semantics, h: Headers, session: Option<Session>, aborted: bool, k: nat)
    requires k < |SINGLE_VALUED_CHECKS|
    requires SINGLE_VALUED_CHECKS[k].0 in h && h[SINGLE_VALUED_CHECKS[k].0].Multi?
    ensures var v := Classify(policy, api, h, session, aborted);
      (v.action.Unavailable? || v.action.Error? || v.action.NotImplemented?) && v.sample.None?
  {
    FirstImproperNone(h, SINGLE_VALUED_CHECKS);
    assert !IsValidLikeHeader(Get(h, SINGLE_VALUED_CHECKS[k].0));
  }

  /** With FORWARDED_REQUIRED, the three trust checks fail in order. */
  lemma ForwardedRequiredChecks(policy: Policy, api: Semantics, h: Headers, session: Option<Session>)
    requires Reached(api, h, session, false) && policy.forwardedRequired
    ensures var f := SelectedForwarded(policy, api, h);
      var v := Classify(policy, api, h, session, false);
      && (f.None? ==> v == Rejected("forwarded required"))
      && (f.Some? && FORWARDED_KEY_FOR !in f.value ==> v == Rejected("forwarded for required"))
      && (f.Some? && FORWARDED_KEY_FOR in f.value && ForwardedParam(f, FORWARDED_KEY_SECRET) != policy.forwardedSecret ==>
            v == Rejected("forwarded invalid"))
  {
  }

  /** Without FORWARDED_REQUIRED, an input that reaches the trust checks never becomes an `error`. */
  lemma ForwardedOptionalNeverRejects(policy: Policy, api: Semantics, h: Headers, session: Option<Session>)
    requires Reached(api, h, session, false) && !policy.forwardedRequired
    ensures !Classify(policy, api, h, session, false).action.Error?
  {
  }

  /** OPTIONS past the trust checks is a `preflight` with no methods; no body is requested. */
  lemma OptionsIsPreflight(policy: Policy, api: Semantics, h: Headers, session: Option<Session>)
    requires Reached(api, h, session, false) && ForwardedFailure(policy, api, h).None?
    requires h[METHOD] == Single("OPTIONS")
    ensures Classify(policy, api, h, session, false) ==
      Classified(Preflight("OPTIONS", RequestUrl(api, h).value, [], None), Some(Sample("preamble-preflight")))
  {
  }

  /**
   * TRACE past the trust checks: `not-allowed` when trace is disabled;
   * otherwise `not-acceptable` offering only message/http unless that is
   * the negotiated type; otherwise `trace`, with Max-Forwards 0 when absent.
   */
  lemma TraceOutcomes(policy: Policy, api: Semantics, h: Headers, session: Option<Session>)
    requires Reached(api, h, session, false) && ForwardedFailure(policy, api, h).None?
    requires h[METHOD] == Single("TRACE")
    ensures var v := Classify(policy, api, h, session, false);
      var url := RequestUrl(api, h).value;
      var accept := Negotiate(api, h);
      && (!policy.allowTrace ==> v == Classified(NotAllowed("TRACE", url, []), None))
      && (policy.allowTrace && accept.mediaType != Some("message/http") ==>
            v == Classified(NotAcceptable(Some(["message/http"]), None, None), Some(Sample("preamble-trace"))))
      && (policy.allowTrace && accept.mediaType == Some("message/http") ==>
            v.sample == Some(Sample("preamble-trace")) && v.action.Trace? && v.action.httpMethod == "TRACE" &&
            v.action.url == url && v.action.headers == h && v.action.accept == accept &&
            (MAX_FORWARDS !in h ==> v.action.maxForwards == Num(0)) &&
            (MAX_FORWARDS in h ==> h[MAX_FORWARDS].Single? && v.action.maxForwards == api.parseInt(h[MAX_FORWARDS].s, None)))
  {
    FirstImproperNone(h, SINGLE_VALUED_CHECKS);
    assert SINGLE_VALUED_CHECKS[6].0 == MAX_FORWARDS;
  }

  /**
   * Any other known method past the trust checks is a `request` carrying
   * the method, URL, headers, conditions, accept triple, client and SNI,
   * with a body requested under a 1 MiB limit and a 2 s timeout.
   */
  lemma OtherMethodIsRequest(policy: Policy, api: Semantics, h: Headers, session: Option<Session>)
    requires Reached(api, h, session, false) && ForwardedFailure(policy, api, h).None?
    requires h[METHOD].s != "OPTIONS" && h[METHOD].s != "TRACE"
    ensures var v := Classify(policy, api, h, session, false);
      var socket := session.value.socket;
      && v.sample == Some(Sample("preamble"))
      && v.action.Request?
      && v.action.httpMethod == h[METHOD].s && v.action.url == RequestUrl(api, h).value && v.action.headers == h
      && v.action.body.byteLimit == 1048576 && v.action.body.timeoutMsec == 2000
      && v.action.body == BodyRequestFor(api, h)
      && v.action.conditions == ParseConditions(api, h) && v.action.accept == Negotiate(api, h)
      && v.action.client == Client(socket.remoteFamily, socket.remoteAddress, socket.remotePort)
      && v.action.sni == socket.servername.name
  {
  }

  /**
   * Conversely, a `request` comes only from an input that passes every
   * check, with a method other than OPTIONS and TRACE.
   */
  lemma RequestOnlyWhenAdmitted(policy: Policy, api: Semantics, h: Headers, session: Option<Session>, aborted: bool)
    requires Classify(policy, api, h, session, aborted).action.Request?
    ensures Reached(api, h, session, aborted) && ForwardedFailure(policy, api, h).None?
    ensures h[METHOD].s in KNOWN_METHODS && h[METHOD].s != "OPTIONS" && h[METHOD].s != "TRACE"
  {
  }

  /**
   * The timing sample each kind of outcome is returned with: the preflight,
   * trace (its `not-acceptable` included) and request paths each push one,
   * named after the path; every other exit pushes none.
   */
  function SampleFor(a: Action): Option<Sample>
  {
    if a.Preflight? then Some(SAMPLE_PREFLIGHT)
    else if a.Trace? || a.NotAcceptable? then Some(SAMPLE_TRACE)
    else if a.Request? then Some(SAMPLE_REQUEST)
    else None
  }

  /** The sample pushed is the one for the outcome returned, on every input. */
  lemma SampleNamesThePath(policy: Policy, api: Semantics, h: Headers, session: Option<Session>, aborted: bool)
    ensures var v := Classify(policy, api, h, session, aborted);
      v.sample == SampleFor(v.action)
  {
    if Reached(api, h, session, aborted) {
      var url := RequestUrl(api, h).value;
      assert Classify(policy, api, h, session, aborted) ==
        AdmittedVerdict(policy, api, h, session.value.socket, h[METHOD].s, url);
      if ForwardedFailure(policy, api, h).None? && h[METHOD].s == TRACE {
        assert Classify(policy, api, h, session, aborted) == TraceVerdict(policy, api, h, url);
      }
    }
  }

  // ---------------------------------------------------------------------
  // The uncaught URL exception (as written) and its correction
  // ---------------------------------------------------------------------

  /**
   * As written, a path that passes every header check but that the URL
   * constructor rejects makes `preamble` throw; the corrected
   * classification returns an `error` outcome instead.
   */
  lemma UnresolvablePathThrows(policy: Policy, api: Semantics, h: Headers, session: Option<Session>)
    requires SessionOk(session) && HeadersOk(h) && RequestUrl(api, h).None?
    ensures ClassifyAsWritten(policy, api, h, session, false) == Throws("Invalid URL")
    ensures Classify(policy, api, h, session, false) == Rejected("improper path")
  {
  }

  /** An API whose URL constructor rejects the authority `[`, as the WHATWG URL parser does. */
  function RejectingBracketHost(): Semantics
  {
    Semantics(
      UrlApi(s => true, (input, base) => if input == "//[" then None else Some(Url(input))),
      (a, l) => None, (a, l) => None, (a, l) => None,
      s => [], s => None, s => None,
      (f, k) => [], (l, d) => None,
      s => None, (s, r) => NaN,
      [], [])
  }

  /**
   * A GET for the path `//[` over a TLS session with a server name: the
   * code as written throws where the corrected classification rejects.
   */
  lemma DoubleSlashBracketPath()
    ensures var h := map[METHOD := Single("GET"), PATH := Single("//["), SCHEME := Single("https"),
                         AUTHORITY := Single("example.org")];
      var session := Some(Session(Socket(true, None, None, None, SniName("example.org"))));
      var policy := Policy(false, [], None, [], false);
      && ClassifyAsWritten(policy, RejectingBracketHost(), h, session, false).Throws?
      && Classify(policy, RejectingBracketHost(), h, session, false) == Rejected("improper path")
  {
    var h := map[METHOD := Single("GET"), PATH := Single("//["), SCHEME := Single("https"),
                 AUTHORITY := Single("example.org")];
    FirstImproperNone(h, SINGLE_VALUED_CHECKS);
  }
}
