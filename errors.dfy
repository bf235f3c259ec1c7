/**
 * The library's error taxonomy (src/error.rs): a closed sum of four failure
 * sources, the conversions that route each foreign error into its variant,
 * and the fixed message format of `Display`.
 */
module Errors {
  import opened Wrappers
  import opened Text

  /** Rust's `u16`, the width of the HTTP status in `RequestError`. */
  type u16 = x: int | 0 <= x < 0x1_0000

  /** Foreign error values, known here only by the message their `Display` shows. */
  datatype TransportError = TransportError(message: string)
  datatype IoError = IoError(message: string)
  datatype UrlEncodeError = UrlEncodeError(message: string)
  datatype JsonError = JsonError(message: string)

  /** A non-2xx answer: its HTTP status and the service's overload hint. */
  datatype RequestError = RequestError(httpStatus: u16, shouldWait: bool)

  /** Any one of the values that an `Error` wraps, seen as a `&dyn std::error::Error`. */
  datatype SourceError =
    | Request(request: RequestError)
    | Transport(transport: TransportError)
    | Read(read: IoError)
    | UrlEncoding(urlEncoding: UrlEncodeError)
    | JsonDecoding(jsonDecoding: JsonError)

  datatype Error =
    | Bing(request: RequestError)
    | Http(transport: TransportError)
    | Io(io: IoError)
    | Conversion(boxed: SourceError)

  datatype Kind = BingKind | HttpKind | IoKind | ConversionKind

  function KindOf(e: Error): Kind
  {
    match e
    case Bing(_) => BingKind
    case Http(_) => HttpKind
    case Io(_) => IoKind
    case Conversion(_) => ConversionKind
  }

  /** The fixed description that `Display` puts first, one per variant. */
  function Describe(k: Kind): string
  {
    match k
    case BingKind => "error reported by bing maps"
    case HttpKind => "error communicating with bing maps"
    case IoKind => "error reading response from bing maps"
    // written as two literals so that the verifier sees the individual characters
    case ConversionKind => "error converting between wire " + "format and Rust types"
  }

  lemma DescriptionsDistinct(k1: Kind, k2: Kind)
    ensures Describe(k1) == Describe(k2) <==> k1 == k2
  {
  }

  /** `RequestError`'s own `description()`. */
  function RequestErrorDescription(): (d: string)
    ensures d == Describe(BingKind)
  {
    "error reported by bing maps"
  }

  /** `Display` of `RequestError`: its status in decimal inside `RequestError(...)`. */
  function RequestErrorDisplay(re: RequestError): string
  {
    "RequestError(" + Decimal(re.httpStatus) + ")"
  }

  /** Reads the status back out of a `RequestError` display, if it has that shape. */
  function StatusOfDisplay(s: string): Option<nat>
  {
    var open := "RequestError(";
    if |s| >= |open| + 1 && s[..|open|] == open && s[|s| - 1] == ')'
    then ParseDecimal(s[|open|..|s| - 1])
    else None
  }

  lemma RequestErrorDisplayRecoversStatus(re: RequestError)
    ensures StatusOfDisplay(RequestErrorDisplay(re)) == Some(re.httpStatus)
  {
    var open, digits := "RequestError(", Decimal(re.httpStatus);
    var s := RequestErrorDisplay(re);
    assert s[..|open|] == open;
    assert s[|open|..|s| - 1] == digits;
    DecimalRoundTrip(re.httpStatus);
  }

  /** `RequestError::default()`. */
  function DefaultRequestError(): (re: RequestError)
    ensures re.httpStatus == 0 && !re.shouldWait
    ensures RequestErrorDisplay(re) == "RequestError(0)"
  {
    RequestError(0, false)
  }

  function SourceDisplay(s: SourceError): string
  {
    match s
    case Request(re) => RequestErrorDisplay(re)
    case Transport(t) => t.message
    case Read(i) => i.message
    case UrlEncoding(u) => u.message
    case JsonDecoding(j) => j.message
  }

  /** `Error::cause`: the wrapped error, present for every variant. */
  function Cause(e: Error): (c: Option<SourceError>)
    ensures c.Some?
    ensures e.Bing? ==> c.value == Request(e.request)
    ensures e.Http? ==> c.value == Transport(e.transport)
    ensures e.Io? ==> c.value == Read(e.io)
    ensures e.Conversion? ==> c.value == e.boxed
  {
    match e
    case Bing(re) => Some(Request(re))
    case Http(t) => Some(Transport(t))
    case Io(i) => Some(Read(i))
    case Conversion(b) => Some(b)
  }

  /** `Display` of `Error`: the variant's description, `": "`, then the wrapped error. */
  function Display(e: Error): string
  {
    var description := Describe(KindOf(e));
    match e
    case Bing(re) => description + ": " + RequestErrorDisplay(re)
    case Http(t) => description + ": " + t.message
    case Io(i) => description + ": " + i.message
    case Conversion(b) => description + ": " + SourceDisplay(b)
  }

  lemma DisplayIsDescriptionThenCause(e: Error)
    ensures Display(e) == Describe(KindOf(e)) + ": " + SourceDisplay(Cause(e).value)
  {
  }

  /** Which variant a displayed error came from, judged by its leading description. */
  function KindOfDisplay(s: string): Option<Kind>
  {
    if HasPrefix(s, Describe(BingKind) + ": ") then Some(BingKind)
    else if HasPrefix(s, Describe(HttpKind) + ": ") then Some(HttpKind)
    else if HasPrefix(s, Describe(IoKind) + ": ") then Some(IoKind)
    else if HasPrefix(s, Describe(ConversionKind) + ": ") then Some(ConversionKind)
    else None
  }

  lemma {:induction false} KindOfPrefixed(k: Kind, t: string)
    ensures KindOfDisplay(Describe(k) + ": " + t) == Some(k)
  {
    var s := Describe(k) + ": " + t;
    var bing, http, io :=
      Describe(BingKind) + ": ", Describe(HttpKind) + ": ", Describe(IoKind) + ": ";
    PrefixOfConcat(Describe(k) + ": ", t);
    match k
    case BingKind =>
    case HttpKind =>
      assert s[6] == 'c';
      MismatchIsNoPrefix(s, bing, 6);
    case IoKind =>
      assert s[6] == 'r' && s[8] == 'a';
      MismatchIsNoPrefix(s, bing, 8);
      MismatchIsNoPrefix(s, http, 6);
    case ConversionKind =>
      var d := Describe(ConversionKind);
      assert d[6] == 'c' && d[8] == 'n';
      assert s[6] == d[6] && s[8] == d[8];
      MismatchIsNoPrefix(s, bing, 6);
      MismatchIsNoPrefix(s, http, 8);
      MismatchIsNoPrefix(s, io, 6);
  }

  /** The message alone tells which of the four failure sources produced it. */
  lemma DisplayRecoversKind(e: Error)
    ensures KindOfDisplay(Display(e)) == Some(KindOf(e))
  {
    DisplayIsDescriptionThenCause(e);
    KindOfPrefixed(KindOf(e), SourceDisplay(Cause(e).value));
  }

  /** `From<RequestError> for Error`. */
  function FromRequestError(re: RequestError): (e: Error)
    ensures KindOf(e) == BingKind && Cause(e) == Some(Request(re))
  {
    Bing(re)
  }

  /** `From<reqwest::Error> for Error`. */
  function FromTransportError(t: TransportError): (e: Error)
    ensures KindOf(e) == HttpKind && Cause(e) == Some(Transport(t))
  {
    Http(t)
  }

  /** `From<io::Error> for Error`. */
  function FromIoError(i: IoError): (e: Error)
    ensures KindOf(e) == IoKind && Cause(e) == Some(Read(i))
  {
    Io(i)
  }

  /** `From<serde_urlencoded::ser::Error> for Error`: boxed as a conversion error. */
  function FromUrlEncodeError(u: UrlEncodeError): (e: Error)
    ensures KindOf(e) == ConversionKind && Cause(e) == Some(UrlEncoding(u))
  {
    Conversion(UrlEncoding(u))
  }

  /** `From<serde_json::Error> for Error`: boxed as a conversion error. */
  function FromJsonError(j: JsonError): (e: Error)
    ensures KindOf(e) == ConversionKind && Cause(e) == Some(JsonDecoding(j))
  {
    Conversion(JsonDecoding(j))
  }

  /** Encoding and decoding failures share a variant but stay apart inside it. */
  lemma ConversionKeepsDirection(u: UrlEncodeError, j: JsonError)
    ensures FromUrlEncodeError(u) != FromJsonError(j)
    ensures Display(FromUrlEncodeError(u)) == Describe(ConversionKind) + ": " + u.message
    ensures Display(FromJsonError(j)) == Describe(ConversionKind) + ": " + j.message
  {
  }
}
