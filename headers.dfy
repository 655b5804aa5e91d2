/**
 * Header values as the HTTP/2 layer delivers them, and the validation
 * predicates of src/index.js over them.
 */
module Headers {
  import opened Wrappers

  /** A header value: one string, or an array of strings for a repeated header. */
  datatype HeaderVal = Single(s: string) | Multi(list: seq<string>)

  /** A header set; a header that was not sent is a key that is not in the map. */
  type Headers = map<string, HeaderVal>

  // Pseudo-header and header names, as the HTTP/2 layer spells them (lower case).
  const METHOD: string := ":method"
  const PATH: string := ":path"
  const AUTHORITY: string := ":authority"
  const SCHEME: string := ":scheme"
  const AUTHORIZATION: string := "authorization"
  const FORWARDED: string := "forwarded"
  const MAX_FORWARDS: string := "max-forwards"
  const CONTENT_TYPE: string := "content-type"
  const CONTENT_LENGTH: string := "content-length"
  const ACCEPT: string := "accept"
  const ACCEPT_ENCODING: string := "accept-encoding"
  const ACCEPT_LANGUAGE: string := "accept-language"
  const ORIGIN: string := "origin"
  const IF_MATCH: string := "if-match"
  const IF_NONE_MATCH: string := "if-none-match"
  const IF_MODIFIED_SINCE: string := "if-modified-since"
  const IF_UNMODIFIED_SINCE: string := "if-unmodified-since"
  const IF_RANGE: string := "if-range"

  // Method names.
  const GET: string := "GET"
  const HEAD: string := "HEAD"
  const POST: string := "POST"
  const PUT: string := "PUT"
  const PATCH: string := "PATCH"
  const OPTIONS: string := "OPTIONS"
  const DELETE: string := "DELETE"
  const TRACE: string := "TRACE"
  const QUERY: string := "QUERY"

  /** The methods the server knows, in source order. */
  const KNOWN_METHODS: seq<string> := [GET, HEAD, POST, PUT, PATCH, OPTIONS, DELETE, TRACE, QUERY]

  /** `headers[name]`: the value sent under `name`, or None. */
  function Get(h: Headers, name: string): (r: Option<HeaderVal>)
    ensures r.Some? <==> name in h
    ensures r.Some? ==> r.value == h[name]
  {
    if name in h then Some(h[name]) else None
  }

  /** `isValidLikeHeader`: the header is not an array (absent or one string). */
  predicate IsValidLikeHeader(h: Option<HeaderVal>)
  {
    !(h.Some? && h.value.Multi?)
  }

  /** `isValidHeader`: the header is present and not an array. */
  predicate IsValidHeader(h: Option<HeaderVal>)
  {
    h.Some? && IsValidLikeHeader(h)
  }

  /** `isValidMethod`: the header is valid and names a known method. */
  predicate IsValidMethod(m: Option<HeaderVal>)
  {
    IsValidHeader(m) && m.value.s in KNOWN_METHODS
  }

  /** `isValidLikeHeader` holds exactly for an absent header or a single string. */
  lemma ValidLikeMeansNotMulti(h: Option<HeaderVal>)
    ensures IsValidLikeHeader(h) <==> (h == None || exists s :: h == Some(Single(s)))
  {
    if h.Some? && h.value.Single? {
      assert h == Some(Single(h.value.s));
    }
  }

  /** `isValidHeader` holds exactly for a present single string. */
  lemma ValidMeansPresentSingle(h: Option<HeaderVal>)
    ensures IsValidHeader(h) <==> exists s :: h == Some(Single(s))
  {
    if h.Some? && h.value.Single? {
      assert h == Some(Single(h.value.s));
    }
  }

  /**
   * `isValidMethod` holds exactly for a single string that is one of the nine
   * known methods, and it implies `isValidHeader`.
   */
  lemma ValidMethodExactly(m: Option<HeaderVal>)
    ensures IsValidMethod(m) <==>
      exists s :: m == Some(Single(s)) &&
        s in {"GET", "HEAD", "POST", "PUT", "PATCH", "OPTIONS", "DELETE", "TRACE", "QUERY"}
    ensures IsValidMethod(m) ==> IsValidHeader(m)
  {
    if m.Some? && m.value.Single? {
      assert m == Some(Single(m.value.s));
    }
  }

  /**
   * JavaScript's template-literal rendering of a header value: `undefined`
   * for an absent header, the elements joined by commas for an array.
   */
  function Stringify(h: Option<HeaderVal>): (r: string)
    ensures h.Some? && h.value.Single? ==> r == h.value.s
  {
    match h
    case None => "undefined"
    case Some(Single(s)) => s
    case Some(Multi(list)) => Join(list)
  }

  /** `Array.prototype.join` with a comma. */
  function Join(list: seq<string>): (r: string)
    ensures list == [] ==> r == ""
    ensures |list| == 1 ==> r == list[0]
  {
    if list == [] then ""
    else if |list| == 1 then list[0]
    else Join(list[..|list| - 1]) + "," + list[|list| - 1]
  }

  /**
   * The string of a header that has passed `isValidLikeHeader` (JavaScript
   * `string|undefined`); the classifier only applies it to such headers.
   */
  function AsString(h: Option<HeaderVal>): (r: Option<string>)
    ensures IsValidLikeHeader(h) ==> (r.Some? <==> h.Some?)
    ensures r.Some? ==> h == Some(Single(r.value))
  {
    match h
    case Some(Single(s)) => Some(s)
    case _ => None
  }
}
