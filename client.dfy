/**
 * The client (src/client.rs): it owns the API key, injects it into the
 * caller's parameter map, builds the request URL, and classifies the answer
 * into a decoded value or an error. The network exchange itself, the query
 * encoder and the JSON decoder are given as function parameters.
 */
module Clients {
  import opened Wrappers
  import opened Errors

  type byte = x: int | 0 <= x < 0x100

  const BaseUrl := "https://dev.virtualearth.net/REST/v1/"
  const KeyParam := "key"
  const WsInfoHeader := "X-MS-BM-WS-INFO"
  /** The header line `b"1"`. */
  const OverloadedLine: seq<byte> := [49]

  /** One named header with its raw lines, as hyper keeps them. */
  datatype Header = Header(name: string, lines: seq<seq<byte>>)

  /** What the server sent back: status, headers, and the body as read (or the read failure). */
  datatype HttpResponse = HttpResponse(status: u16, headers: seq<Header>, body: Result<string, IoError>)

  /** The response or the transport failure that `request.send()` gives for a URL. */
  type Transport = string -> Result<HttpResponse, TransportError>

  /** `serde_urlencoded::to_string` on a parameter map. */
  type QueryEncoder = map<string, string> -> Result<string, UrlEncodeError>

  function AsciiLower(c: char): char
  {
    if 'A' <= c <= 'Z' then (c as int + 32) as char else c
  }

  /** Header names compare without regard to ASCII case. */
  predicate SameName(a: string, b: string)
  {
    |a| == |b| && forall i :: 0 <= i < |a| ==> AsciiLower(a[i]) == AsciiLower(b[i])
  }

  /**
   * `headers.get_raw(name)`: hyper keeps one entry per name, ignoring case,
   * and a field that arrives more than once adds its values to that entry's
   * lines. Here every matching entry's lines are joined in arrival order.
   */
  function GetRaw(headers: seq<Header>, name: string): (raw: Option<seq<seq<byte>>>)
    ensures raw.None? <==> forall j :: 0 <= j < |headers| ==> !SameName(headers[j].name, name)
  {
    if |headers| == 0 then None
    else
      var rest := GetRaw(headers[1..], name);
      if SameName(headers[0].name, name) then
        Some(headers[0].lines + (if rest.Some? then rest.value else []))
      else rest
  }

  /** Raw lines of two header runs, the earlier run's lines first. */
  function JoinRaw(x: Option<seq<seq<byte>>>, y: Option<seq<seq<byte>>>): Option<seq<seq<byte>>>
  {
    match (x, y)
    case (None, _) => y
    case (_, None) => x
    case (Some(p), Some(q)) => Some(p + q)
  }

  /** One header contributes its own lines exactly when its name matches. */
  lemma GetRawSingle(h: Header, name: string)
    ensures GetRaw([h], name) == if SameName(h.name, name) then Some(h.lines) else None
  {
    assert [h][1..] == [];
    assert h.lines + [] == h.lines;
  }

  /** Lines keep their arrival order: the raw lines of `a + b` are those of `a`, then those of `b`. */
  lemma {:induction false} GetRawAppend(a: seq<Header>, b: seq<Header>, name: string)
    ensures GetRaw(a + b, name) == JoinRaw(GetRaw(a, name), GetRaw(b, name))
    decreases |a|
  {
    if |a| == 0 {
      assert a + b == b;
    } else {
      assert (a + b)[1..] == a[1..] + b;
      assert (a + b)[0] == a[0];
      GetRawAppend(a[1..], b, name);
      if SameName(a[0].name, name) {
        var tail, rest := GetRaw(a[1..], name), GetRaw(b, name);
        if tail.Some? && rest.Some? {
          assert a[0].lines + (tail.value + rest.value) == (a[0].lines + tail.value) + rest.value;
        } else if tail.None? && rest.Some? {
          assert a[0].lines + [] == a[0].lines;
        }
      }
    }
  }

  /** The raw lines are exactly the lines of the matching headers. */
  lemma {:induction false} GetRawCollectsMatches(headers: seq<Header>, name: string)
    requires GetRaw(headers, name).Some?
    ensures forall l :: l in GetRaw(headers, name).value <==>
      exists j :: 0 <= j < |headers| && SameName(headers[j].name, name) && l in headers[j].lines
  {
    var raw := GetRaw(headers, name).value;
    var rest := GetRaw(headers[1..], name);
    if rest.Some? {
      GetRawCollectsMatches(headers[1..], name);
    }
    forall l | l in raw
      ensures exists j :: 0 <= j < |headers| && SameName(headers[j].name, name) && l in headers[j].lines
    {
      if SameName(headers[0].name, name) && l in headers[0].lines {
      } else {
        var j :| 0 <= j < |headers[1..]| && SameName(headers[1..][j].name, name) && l in headers[1..][j].lines;
        assert headers[j + 1] == headers[1..][j];
      }
    }
    forall l, j | 0 <= j < |headers| && SameName(headers[j].name, name) && l in headers[j].lines
      ensures l in raw
    {
      if j > 0 {
        assert headers[1..][j - 1] == headers[j];
      }
    }
  }

  /** A field sent twice contributes both values in order: the later one decides the wait hint. */
  lemma GetRawJoinsRepeatedField(first: seq<seq<byte>>, second: seq<seq<byte>>)
    ensures GetRaw([Header(WsInfoHeader, first), Header(WsInfoHeader, second)], WsInfoHeader) == Some(first + second)
    ensures !LastLineIsOverloaded(GetRaw([Header(WsInfoHeader, [[49]]), Header(WsInfoHeader, [[48]])], WsInfoHeader))
  {
    var h := [Header(WsInfoHeader, first), Header(WsInfoHeader, second)];
    assert SameName(h[0].name, WsInfoHeader) && h[1..] == [Header(WsInfoHeader, second)];
    assert GetRaw(h[1..], WsInfoHeader) == Some(second + []);
    assert second + [] == second;
  }

  /** The overload hint: the header is there and its last line is exactly `1`. */
  predicate LastLineIsOverloaded(raw: Option<seq<seq<byte>>>)
  {
    raw.Some? && |raw.value| > 0 && raw.value[|raw.value| - 1] == OverloadedLine
  }

  /** The `should_wait` loop of `send`: each line overwrites the flag in turn. */
  method ShouldWait(raw: Option<seq<seq<byte>>>) returns (wait: bool)
    ensures wait <==> LastLineIsOverloaded(raw)
  {
    wait := false;
    if raw.Some? {
      var lines := raw.value;
      var i := 0;
      while i < |lines|
        invariant 0 <= i <= |lines|
        invariant wait <==> i > 0 && lines[i - 1] == OverloadedLine
      {
        wait := lines[i] == OverloadedLine;
        i := i + 1;
      }
    }
  }

  /** What `send` returns for an exchange, in the order the checks are made. */
  function Classify<T>(reply: Result<HttpResponse, TransportError>, decode: string -> Result<T, JsonError>): Result<T, Error>
  {
    match reply
    case Failure(t) => Failure(FromTransportError(t))
    case Success(response) =>
      match response.body
      case Failure(i) => Failure(FromIoError(i))
      case Success(body) =>
        if 200 <= response.status <= 299 then
          match decode(body)
          case Success(value) => Success(value)
          case Failure(j) => Failure(FromJsonError(j))
        else
          var wait := LastLineIsOverloaded(GetRaw(response.headers, WsInfoHeader));
          Failure(FromRequestError(RequestError(response.status, wait)))
  }

  /** `send`: surfaces a transport failure, then a body-read failure, then the status. */
  method Send<T>(reply: Result<HttpResponse, TransportError>, decode: string -> Result<T, JsonError>) returns (r: Result<T, Error>)
    ensures r == Classify(reply, decode)
  {
    if reply.Failure? {
      return Failure(FromTransportError(reply.error));
    }
    var response := reply.value;
    if response.body.Failure? {
      return Failure(FromIoError(response.body.error));
    }
    var status := response.status;
    if !(200 <= status <= 299) {
      var wait := ShouldWait(GetRaw(response.headers, WsInfoHeader));
      return Failure(FromRequestError(RequestError(status, wait)));
    }
    r := match decode(response.body.value)
      case Success(value) => Success(value)
      case Failure(j) => Failure(FromJsonError(j));
  }

  /** Only a 2xx status with a readable, decodable body succeeds, and then with the decoded value. */
  lemma SuccessOnlyFrom2xx<T>(reply: Result<HttpResponse, TransportError>, decode: string -> Result<T, JsonError>)
    ensures Classify(reply, decode).Success? <==>
      reply.Success? && reply.value.body.Success? && 200 <= reply.value.status <= 299 &&
      decode(reply.value.body.value).Success?
    ensures Classify(reply, decode).Success? ==>
      Classify(reply, decode).value == decode(reply.value.body.value).value
  {
  }

  /** The failure sources are consulted in order: transport, body read, status, decoding. */
  lemma CheckOrder<T>(reply: Result<HttpResponse, TransportError>, decode: string -> Result<T, JsonError>)
    ensures reply.Failure? ==> Classify(reply, decode) == Failure(Http(reply.error))
    ensures reply.Success? && reply.value.body.Failure? ==>
      Classify(reply, decode) == Failure(Io(reply.value.body.error))
    ensures (reply.Success? && reply.value.body.Success? && 200 <= reply.value.status <= 299 &&
             decode(reply.value.body.value).Failure?) ==>
      Classify(reply, decode) == Failure(Conversion(JsonDecoding(decode(reply.value.body.value).error)))
  {
  }

  /** A non-2xx status becomes a service error carrying that status, whatever the decoder would say. */
  lemma Non2xxIsServiceError<T>(response: HttpResponse, decode: string -> Result<T, JsonError>, other: string -> Result<T, JsonError>)
    requires response.body.Success? && !(200 <= response.status <= 299)
    ensures Classify(Success(response), decode) == Classify(Success(response), other)
    ensures Classify(Success(response), decode).Failure?
    ensures var e := Classify(Success(response), decode).error;
      e.Bing? && e.request.httpStatus == response.status &&
      (e.request.shouldWait <==> LastLineIsOverloaded(GetRaw(response.headers, WsInfoHeader)))
  {
  }

  /** A 404 with `X-MS-BM-WS-INFO: 1` asks the caller to wait; one without the header does not. */
  lemma NotFoundWaitHint(decode: string -> Result<int, JsonError>)
    ensures Classify(Success(HttpResponse(404, [Header(WsInfoHeader, [[49]])], Success(""))), decode)
      == Failure(Bing(RequestError(404, true)))
    ensures Classify(Success(HttpResponse(404, [], Success(""))), decode)
      == Failure(Bing(RequestError(404, false)))
  {
    var headers := [Header(WsInfoHeader, [[49]])];
    assert SameName(headers[0].name, WsInfoHeader) && headers[1..] == [];
    assert GetRaw(headers, WsInfoHeader) == Some([[49]] + []);
  }

  /** Only the last line counts: `1` followed by `0` does not ask to wait. */
  lemma LastLineDecides()
    ensures !LastLineIsOverloaded(Some([[49], [48]]))
    ensures LastLineIsOverloaded(Some([[48], [49]]))
    ensures !LastLineIsOverloaded(Some([]))
    ensures !LastLineIsOverloaded(None)
  {
  }

  /** `Client::url`: base, path, `?`, then the encoded query or nothing when encoding fails. */
  function Url(path: string, params: map<string, string>, encode: QueryEncoder): string
  {
    var query := match encode(params) case Success(q) => q case Failure(_) => "";
    BaseUrl + path + "?" + query
  }

  lemma UrlParts(path: string, params: map<string, string>, encode: QueryEncoder)
    ensures var url := Url(path, params, encode);
      var head := BaseUrl + path + "?";
      |head| <= |url| && url[..|head|] == head &&
      url[|head|..] == (if encode(params).Success? then encode(params).value else "")
  {
    var url, head := Url(path, params, encode), BaseUrl + path + "?";
    assert url == head + url[|head|..];
  }

  /** The parameter map after the key is injected. */
  function WithKey(params: map<string, string>, key: string): (r: map<string, string>)
    ensures r.Keys == params.Keys + {KeyParam}
    ensures r[KeyParam] == key
    ensures forall k :: k in params && k != KeyParam ==> r[k] == params[k]
  {
    params[KeyParam := key]
  }

  /** What `get` returns for a path and the caller's parameters. */
  function Fetch<T>(key: string, path: string, params: map<string, string>,
                    encode: QueryEncoder, transport: Transport,
                    decode: string -> Result<T, JsonError>): Result<T, Error>
  {
    Classify(transport(Url(path, WithKey(params, key), encode)), decode)
  }

  /** `HashMap<&str, &str>`, the mutable parameter map callers hand to `get`. */
  class Params {
    var entries: map<string, string>

    constructor ()
      ensures entries == map[]
    {
      entries := map[];
    }

    /** `HashMap::insert`: adds the entry, replacing one already under `k`. */
    method Insert(k: string, v: string)
      modifies this
      ensures entries == old(entries)[k := v]
    {
      entries := entries[k := v];
    }
  }

  class Client {
    /** Never changed after construction, since the client may be shared between threads. */
    const key: string

    /** `Client::new`, without the TLS connector. */
    constructor (key: string)
      ensures this.key == key
    {
      this.key := key;
    }

    /** `get`: injects the key into the caller's map, requests the URL, and classifies the answer. */
    method Get<T>(path: string, params: Params, encode: QueryEncoder, transport: Transport,
                  decode: string -> Result<T, JsonError>) returns (r: Result<T, Error>)
      modifies params
      ensures params.entries == WithKey(old(params.entries), key)
      ensures r == Fetch(key, path, old(params.entries), encode, transport, decode)
    {
      params.Insert(KeyParam, key);
      var url := Url(path, params.entries, encode);
      r := Send(transport(url), decode);
    }
  }
}
