/**
 * The transport (src/web_api_client.rs): a header map that is frozen into
 * an HTTP client configuration, and the classification of a POST exchange
 * into a parsed JSON value or a `PostFailed` error.
 *
 * The HTTP client (reqwest) is represented by the configuration its builder
 * is given; whether `build` fails is a parameter of the operations that
 * build. The network is a function from the exchange (client, URL, JSON
 * body) to its outcome.
 */
module WebApi {
  import opened Wrappers
  import opened Wire
  import opened Urls

  /** `CARGO_PKG_NAME` and `CARGO_PKG_VERSION`, fixed when the crate is built. */
  const AppName: string
  const AppVersion: string

  // ---------------------------------------------------------------------------
  // Errors

  datatype WebApiClientError =
    | HeaderCreationError(msg: string)
    | ClientCreationError(msg: string)
    | PostFailed(msg: string)
    | InvalidApiKey(msg: string)
    | InvalidInput(msg: string)
    | ParseError(msg: string)
  {
    /** The fixed text `Display` writes in front of the message. */
    function Prefix(): (p: string)
      ensures |p| > 8
    {
      match this
      case HeaderCreationError(_) => "Header creation error: "
      case ClientCreationError(_) => "Client creation error: "
      case PostFailed(_) => "POST request failed: "
      case InvalidApiKey(_) => "Invalid API key: "
      case InvalidInput(_) => "Invalid input: "
      case ParseError(_) => "Parse error: "
    }

    /** `impl Display for WebApiClientError`. */
    function ToString(): string {
      Prefix() + msg
    }
  }

  /** Two variants never share a prefix, nor is one prefix an initial part of another. */
  lemma PrefixesDiverge(a: WebApiClientError, b: WebApiClientError)
    requires a.Prefix() != b.Prefix()
    ensures a.Prefix()[0] != b.Prefix()[0] || a.Prefix()[1] != b.Prefix()[1] || a.Prefix()[8] != b.Prefix()[8]
  {
  }

  /** Display loses nothing: the displayed text determines the variant and its message. */
  lemma DisplayInjective(a: WebApiClientError, b: WebApiClientError)
    ensures a.ToString() == b.ToString() ==> a == b
  {
    var pa, pb := a.Prefix(), b.Prefix();
    if pa != pb {
      PrefixesDiverge(a, b);
      var k := if pa[0] != pb[0] then 0 else if pa[1] != pb[1] then 1 else 8;
      assert a.ToString()[k] == pa[k] && b.ToString()[k] == pb[k];
    } else if a.ToString() == b.ToString() {
      assert a.msg == a.ToString()[|pa|..] == b.ToString()[|pb|..] == b.msg;
    }
  }

  // ---------------------------------------------------------------------------
  // Header names and values (the http crate's `HeaderName` and `HeaderValue`)

  /** A `tchar` of RFC 9110 section 5.6.2, the characters of a field name. */
  predicate IsTokenChar(c: char) {
    'a' <= c <= 'z' || 'A' <= c <= 'Z' || '0' <= c <= '9' ||
    c == '!' || c == '#' || c == '$' || c == '%' || c == '&' || c == '\'' || c == '*' ||
    c == '+' || c == '-' || c == '.' || c == '^' || c == '_' || c == '`' || c == '|' || c == '~'
  }

  predicate IsToken(s: string) {
    |s| > 0 && forall k :: 0 <= k < |s| ==> IsTokenChar(s[k])
  }

  /** `HeaderName::try_from`: a token is accepted and stored lower-cased. */
  function ParseHeaderName(key: string): (r: Option<string>)
    ensures r.Some? <==> IsToken(key)
    ensures r.Some? ==> |r.value| == |key|
  {
    if IsToken(key) then Some(Lower(key)) else None
  }

  lemma TokenCaseInsensitive(s: string)
    ensures IsToken(s) <==> IsToken(Lower(s))
  {
    if IsToken(Lower(s)) {
      forall k | 0 <= k < |s| ensures IsTokenChar(s[k]) {
        assert IsTokenChar(Lower(s)[k]);
      }
    }
  }

  /** Header names are case-insensitive: two spellings with the same lower case name the same header. */
  lemma HeaderNameCaseInsensitive(k1: string, k2: string)
    requires Lower(k1) == Lower(k2)
    ensures ParseHeaderName(k1) == ParseHeaderName(k2)
  {
    TokenCaseInsensitive(k1);
    TokenCaseInsensitive(k2);
  }

  /** The stored form of a name is canonical: parsing it again gives it back. */
  lemma HeaderNameCanonical(key: string)
    requires ParseHeaderName(key).Some?
    ensures ParseHeaderName(ParseHeaderName(key).value) == ParseHeaderName(key)
  {
    TokenCaseInsensitive(key);
    LowerIdempotent(key);
  }

  const ContentType := "content-type"
  const Authorization := "authorization"

  lemma StandardHeaderNames()
    ensures ParseHeaderName("Content-Type") == Some(ContentType)
    ensures ParseHeaderName("Authorization") == Some(Authorization)
  {
    assert IsToken("Content-Type");
    assert IsToken("Authorization");
    assert Lower("Content-Type") == ContentType;
    assert Lower("Authorization") == Authorization;
  }

  /** `HeaderValue::from_str`: every byte visible ASCII, space, tab or part of a non-ASCII character. */
  predicate IsValueChar(c: char) {
    (c as int >= 0x20 && c as int != 0x7f) || c == '\t'
  }

  predicate ValidHeaderValue(v: string) {
    forall k :: 0 <= k < |v| ==> IsValueChar(v[k])
  }

  const Bearer := "Bearer "

  /** A bearer credential is a valid header value exactly when the key is. */
  lemma BearerValueValid(key: string)
    ensures ValidHeaderValue(Bearer + key) <==> ValidHeaderValue(key)
  {
    var v := Bearer + key;
    assert forall k :: 0 <= k < |key| ==> v[|Bearer| + k] == key[k];
    assert forall k :: 0 <= k < |Bearer| ==> IsValueChar(v[k]);
  }

  /** The crate's error texts, shown after the name in `add_header`'s messages. */
  const InvalidHeaderNameText := "invalid HTTP header name"
  const InvalidHeaderValueText := "failed to parse header value"

  // ---------------------------------------------------------------------------
  // Client configuration

  datatype RedirectPolicy = Limited(max: nat) | NoRedirects

  /** What reqwest's `ClientBuilder` is given and `build` freezes into a `Client`. */
  datatype ClientConfig = ClientConfig(
    userAgent: Option<string>,
    defaultHeaders: map<string, string>,
    redirect: RedirectPolicy,
    connectTimeout: Option<u64>,
    timeout: Option<u64>)

  /** `Client::new()`: no user agent or headers of ours, up to ten redirects, no timeouts. */
  const DefaultClient := ClientConfig(None, map[], Limited(10), None, None)

  // ---------------------------------------------------------------------------
  // The POST exchange

  type StatusCode = c: int | 100 <= c <= 999 witness 200

  /** A response status with the canonical reason phrase the http crate knows for it, if any. */
  datatype Status = Status(code: StatusCode, canonicalReason: Option<string>)

  /** `StatusCode::is_success`: the 2xx class of RFC 9110 section 15.3. */
  predicate IsSuccess(s: Status) {
    200 <= s.code <= 299
  }

  /** How `{status}` displays: the code, a space, and the reason phrase. */
  function StatusText(s: Status): string {
    Decimal(s.code) + " " + s.canonicalReason.GetOr("<unknown status code>")
  }

  /** One POST as the server sees it: the client configuration, the URL and the JSON body. */
  datatype Exchange = Exchange(client: ClientConfig, url: Url, body: Json)

  /**
   * How a POST ends: the request could not be sent, the body could not be
   * read, or a status and body text arrived; `parsed` is what
   * `serde_json::from_str` makes of that text.
   */
  datatype HttpOutcome =
    | SendFailed(cause: string)
    | BodyReadFailed(cause: string)
    | Responded(status: Status, text: string, parsed: Result<Json, string>)

  const StatusPrefix := "Server returned error status "

  /** `post_request` after the I/O: every failure is `PostFailed`, success is the parsed 2xx body. */
  function Classify(o: HttpOutcome): (r: Result<Json, WebApiClientError>)
    ensures r.Failure? ==> r.error.PostFailed?
    ensures r.Success? <==> o.Responded? && IsSuccess(o.status) && o.parsed.Success?
    ensures r.Success? ==> r.value == o.parsed.value
    ensures o.SendFailed? ==> r == Failure(PostFailed("HTTP POST error: " + o.cause))
    ensures o.BodyReadFailed? ==> r == Failure(PostFailed("Error reading response body: " + o.cause))
    ensures o.Responded? && !IsSuccess(o.status) ==>
      r == Failure(PostFailed(StatusPrefix + StatusText(o.status) + ": " + o.text))
    ensures o.Responded? && IsSuccess(o.status) && o.parsed.Failure? ==>
      r == Failure(PostFailed("Failed to parse JSON response: " + o.parsed.error))
  {
    match o
    case SendFailed(e) => Failure(PostFailed("HTTP POST error: " + e))
    case BodyReadFailed(e) => Failure(PostFailed("Error reading response body: " + e))
    case Responded(status, text, parsed) =>
      if !IsSuccess(status) then Failure(PostFailed(StatusPrefix + StatusText(status) + ": " + text))
      else match parsed
        case Failure(e) => Failure(PostFailed("Failed to parse JSON response: " + e))
        case Success(v) => Success(v)
  }

  /** The displayed text of the error `post_request` reports for a non-2xx answer. */
  function StatusErrorDisplay(status: Status, text: string): string {
    PostFailed(StatusPrefix + StatusText(status) + ": " + text).ToString()
  }

  /**
   * A non-2xx answer is not swallowed: the displayed error carries the three
   * status digits at a fixed place, readable back as the code, and ends with
   * the raw body text.
   */
  lemma ErrorStatusReported(o: HttpOutcome)
    requires o.Responded? && !IsSuccess(o.status)
    ensures Classify(o).error.ToString() == StatusErrorDisplay(o.status, o.text)
    ensures var m := StatusErrorDisplay(o.status, o.text);
      var p := |PostFailed("").Prefix() + StatusPrefix|;
      |m| >= p + 3 + |o.text| &&
      ParseDecimal(m[p..p + 3]) == o.status.code &&
      m[|m| - |o.text|..] == o.text
  {
    StatusDigits(o.status, o.text);
  }

  /** The layout of the non-2xx error text: prefix, the code's digits, reason, body. */
  lemma StatusDigits(status: Status, text: string)
    ensures var m := StatusErrorDisplay(status, text);
      var p := |PostFailed("").Prefix() + StatusPrefix|;
      |m| >= p + 3 + |text| &&
      m[p..p + 3] == Decimal(status.code) &&
      ParseDecimal(m[p..p + 3]) == status.code &&
      m[|m| - |text|..] == text
  {
    var head := PostFailed("").Prefix() + StatusPrefix;
    var digits := Decimal(status.code);
    var reason := status.canonicalReason.GetOr("<unknown status code>");
    var tail := " " + reason + ": " + text;
    assert StatusErrorDisplay(status, text) == head + digits + tail by {
      assert StatusText(status) == digits + " " + reason;
      assert PostFailed(StatusPrefix + StatusText(status) + ": " + text).ToString() ==
        PostFailed("").Prefix() + (StatusPrefix + (digits + " " + reason) + ": " + text);
      Regroup(PostFailed("").Prefix(), StatusPrefix, digits, reason, text);
    }
    DecimalLength(status.code);
    DecimalRoundTrip(status.code);
    SliceOut(head, digits, tail, text);
  }

  lemma Regroup(a: string, b: string, digits: string, reason: string, text: string)
    ensures a + (b + (digits + " " + reason) + ": " + text) == (a + b) + digits + (" " + reason + ": " + text)
  {
  }

  /** The middle of a three-part text, and a suffix of its last part, can be sliced back out. */
  lemma SliceOut(head: string, mid: string, tail: string, suffix: string)
    requires |suffix| <= |tail| && tail[|tail| - |suffix|..] == suffix
    ensures var m := head + mid + tail;
      |m| >= |head| + |mid| + |suffix| &&
      m[|head|..|head| + |mid|] == mid && m[|m| - |suffix|..] == suffix
  {
    var m := head + mid + tail;
    assert m[|head|..|head| + |mid|] == mid;
    assert m[|m| - |suffix|..] == tail[|tail| - |suffix|..];
  }

  // ---------------------------------------------------------------------------
  // The client

  class WebApiClient {
    var headers: map<string, string>
    var userAgent: string
    var connectionTimeout: Option<u64>
    var deadlineTimeout: Option<u64>
    var client: ClientConfig

    /** The configuration `get_client` builds from the current fields. */
    function Configured(): ClientConfig
      reads this
    {
      ClientConfig(Some(userAgent), headers, NoRedirects, connectionTimeout, deadlineTimeout)
    }

    /** The built client reflects the current headers, user agent and timeouts. */
    ghost predicate ClientCurrent()
      reads this
    {
      client == Configured()
    }

    /** `WebApiClient::new`; the first build of the client is taken to succeed. */
    constructor (connectionTimeout: Option<u64>, deadlineTimeout: Option<u64>)
      ensures headers == map[ContentType := "application/json"]
      ensures userAgent == AppName + " " + AppVersion
      ensures this.connectionTimeout == connectionTimeout && this.deadlineTimeout == deadlineTimeout
      ensures ClientCurrent()
      ensures client.redirect == NoRedirects
    {
      StandardHeaderNames();
      headers := map[ParseHeaderName("Content-Type").value := "application/json"];
      userAgent := AppName + " " + AppVersion;
      this.connectionTimeout := connectionTimeout;
      this.deadlineTimeout := deadlineTimeout;
      client := DefaultClient;
      new;
      var built := GetClient(None);
      client := built.value;
    }

    /**
     * `get_client`: user agent, default headers and no redirects, then each
     * timeout only when it is configured.
     */
    method GetClient(buildError: Option<string>) returns (r: Result<ClientConfig, WebApiClientError>)
      ensures buildError.Some? ==> r == Failure(ClientCreationError("Failed to create HTTP client: " + buildError.value))
      ensures buildError.None? <==> r.Success?
      ensures r.Success? ==> r.value.redirect == NoRedirects
      ensures r.Success? ==> r.value.userAgent == Some(userAgent) && r.value.defaultHeaders == headers
      ensures r.Success? ==> (r.value.connectTimeout.Some? <==> connectionTimeout.Some?) && r.value.connectTimeout == connectionTimeout
      ensures r.Success? ==> (r.value.timeout.Some? <==> deadlineTimeout.Some?) && r.value.timeout == deadlineTimeout
      ensures r.Success? ==> r.value == Configured()
    {
      var builder := DefaultClient.(userAgent := Some(userAgent), defaultHeaders := headers, redirect := NoRedirects);
      if connectionTimeout.Some? {
        builder := builder.(connectTimeout := Some(connectionTimeout.value));
      }
      if deadlineTimeout.Some? {
        builder := builder.(timeout := Some(deadlineTimeout.value));
      }
      match buildError
      case None => r := Success(builder);
      case Some(e) => r := Failure(ClientCreationError("Failed to create HTTP client: " + e));
    }

    /**
     * `add_header`: validate the name, then the value, then insert (over any
     * earlier value for that name) and rebuild the client. The insert comes
     * first, so a failed rebuild leaves the new header beside the old client.
     */
    method AddHeader(key: string, value: string, buildError: Option<string>) returns (r: Result<(), WebApiClientError>)
      modifies this`headers, this`client
      ensures ParseHeaderName(key).None? ==>
        r == Failure(HeaderCreationError("Invalid header name `" + key + "`: " + InvalidHeaderNameText))
      ensures ParseHeaderName(key).Some? && !ValidHeaderValue(value) ==>
        r == Failure(HeaderCreationError("Invalid header value for `" + key + "`: " + InvalidHeaderValueText))
      ensures (r.Failure? && r.error.HeaderCreationError?) <==> (ParseHeaderName(key).None? || !ValidHeaderValue(value))
      ensures r.Failure? && r.error.HeaderCreationError? ==> headers == old(headers) && client == old(client)
      ensures ParseHeaderName(key).Some? && ValidHeaderValue(value) ==>
        headers == old(headers)[ParseHeaderName(key).value := value] &&
        (r.Success? <==> buildError.None?)
      ensures r.Success? ==> ClientCurrent()
      ensures r.Failure? && r.error.ClientCreationError? ==>
        r.error.msg == "Failed to create HTTP client: " + buildError.value && client == old(client)
      ensures r.Failure? && r.error.ClientCreationError? && old(ClientCurrent()) ==>
        (ClientCurrent() <==> headers == old(headers))
      ensures r.Failure? ==> r.error.HeaderCreationError? || r.error.ClientCreationError?
    {
      var name := ParseHeaderName(key);
      if name.None? {
        return Failure(HeaderCreationError("Invalid header name `" + key + "`: " + InvalidHeaderNameText));
      }
      if !ValidHeaderValue(value) {
        return Failure(HeaderCreationError("Invalid header value for `" + key + "`: " + InvalidHeaderValueText));
      }
      headers := headers[name.value := value];
      var built := GetClient(buildError);
      if built.Failure? {
        return Failure(built.error);
      }
      client := built.value;
      return Success(());
    }

    /** `post_request`: the exchange goes out with the current client; its outcome is classified. */
    function PostRequest(url: Url, payload: Json, network: Exchange -> HttpOutcome): (r: Result<Json, WebApiClientError>)
      reads this
      ensures r.Failure? ==> r.error.PostFailed?
      ensures r.Success? ==>
        var o := network(Exchange(client, url, payload));
        o.Responded? && IsSuccess(o.status) && o.parsed == Success(r.value)
    {
      Classify(network(Exchange(client, url, payload)))
    }
  }
}
