/**
 * What payment.go, info.go, reversal.go and shift.go share: the outbound request
 * (a header map set in place), the abstract net/http transport, the abstract JSON
 * codec, the error classes an operation returns, the non-200 envelope rule and the
 * decimal rendering of payment ids in URLs (strconv.FormatInt(id, 10)).
 */
module Gateway {
  import opened Wrappers
  import opened Types
  import opened Conv
  import opened ServerErrors

  const StatusOK := 200

  datatype HttpMethod = Get | Post

  /** A request as it is handed to the transport. */
  datatype HttpRequest = HttpRequest(httpMethod: HttpMethod, url: string, header: map<string, string>, body: Bytes)

  /** What `httpClient.Do` makes of a request: a transport error, or a status code and a body. */
  datatype Exchange = TransportFailed | Response(statusCode: int, body: Bytes)

  /**
   * net/http as the operations see it: whether `http.NewRequestWithContext` accepts
   * the method and URL, and the round trip performed by `httpClient.Do`.
   */
  datatype Transport = Transport(
    newRequestOk: (HttpMethod, string) -> bool,
    roundTrip: HttpRequest -> Exchange)

  /**
   * encoding/json and time.Parse(time.RFC3339): every decoder and parser gives None
   * exactly where the library returns an error. The `decode…` fields stand for
   * `json.NewDecoder(body).Decode`, which reads the first JSON value and ignores what
   * follows; `unmarshalPaymentInfo` stands for `json.Unmarshal`, which also refuses
   * trailing data.
   */
  datatype Codec = Codec(
    encodePaymentRequest: NewPaymentRequest -> Option<Bytes>,
    encodeReversePaymentRequest: ReversePaymentRequest -> Option<Bytes>,
    decodeErrorResponse: Bytes -> Option<ErrorResponse>,
    decodeNewPaymentResponse: Bytes -> Option<NewPaymentResponse>,
    decodePaymentInfo: Bytes -> Option<PaymentInfoResponse>,
    decodePaymentInfoList: Bytes -> Option<seq<PaymentInfoResponse>>,
    unmarshalPaymentInfo: Bytes -> Option<PaymentInfoResponse>,
    parseTime: string -> Option<Time>)

  /** The error classes of an operation; the wrapping message text is not modelled. */
  datatype ClientError =
    | EncodingFailed                      // json.Marshal of the request body failed
    | InitFailed                          // http.NewRequestWithContext failed
    | ExecutionFailed                     // httpClient.Do failed: a transport error
    | ErrorDecodeFailed(statusCode: int)  // non-200 whose envelope did not decode
    | Server(serverError: ServerError)    // non-200 with a decoded envelope
    | ResponseDecodeFailed                // 200 whose body did not decode
    | HandlingFailed(cause: ConvError)    // 200 whose record did not map

  /** An outbound `*http.Request`: method, URL and body fixed, the header map set in place. */
  class Request {
    const httpMethod: HttpMethod
    const url: string
    const body: Bytes
    var header: map<string, string>

    constructor (httpMethod: HttpMethod, url: string, body: Bytes)
      ensures this.httpMethod == httpMethod && this.url == url && this.body == body
      ensures header == map[]
    {
      this.httpMethod := httpMethod;
      this.url := url;
      this.body := body;
      header := map[];
    }

    /** `r.Header.Set(key, value)`: replaces any earlier value of the key. */
    method SetHeader(key: string, value: string)
      modifies this
      ensures header == old(header)[key := value]
    {
      header := header[key := value];
    }

    function Value(): HttpRequest
      reads this
    {
      HttpRequest(httpMethod, url, header, body)
    }
  }

  /** The headers every request carries (info.go:44-45, shift.go:20-21). */
  function AuthHeader(c: Client): (h: map<string, string>)
    ensures h.Keys == {"RegNum", "Password"}
    ensures h["RegNum"] == c.cashboxRegNumber && h["Password"] == c.cashboxPassword
  {
    map["RegNum" := c.cashboxRegNumber, "Password" := c.cashboxPassword]
  }

  /** The headers of a request with a JSON body (payment.go:65-67, reversal.go:40-42). */
  function JsonHeader(c: Client): (h: map<string, string>)
    ensures h.Keys == {"RegNum", "Password", "Content-Type"}
    ensures h["RegNum"] == c.cashboxRegNumber && h["Password"] == c.cashboxPassword
    ensures h["Content-Type"] == "application/json"
  {
    AuthHeader(c)["Content-Type" := "application/json"]
  }

  /** Sets the credentials on a request, as each operation does first. */
  method SetAuthHeader(r: Request, c: Client)
    modifies r
    ensures r.header == old(r.header)["RegNum" := c.cashboxRegNumber]["Password" := c.cashboxPassword]
  {
    r.SetHeader("RegNum", c.cashboxRegNumber);
    r.SetHeader("Password", c.cashboxPassword);
  }

  /**
   * The branch every operation takes on a status other than 200: a decoded envelope
   * becomes a ServerError (the English user message is dropped); an envelope that does
   * not decode gives an error carrying the HTTP status code.
   */
  function ErrorFromResponse(statusCode: int, body: Bytes, codec: Codec): (err: ClientError)
    ensures err.Server? <==> codec.decodeErrorResponse(body).Some?
    ensures !err.Server? ==> err == ErrorDecodeFailed(statusCode)
    ensures err.Server? ==> var e := codec.decodeErrorResponse(body).value;
      err.serverError == ServerError(e.code, e.internalCode, e.devMessage, e.userMessage.langRu)
  {
    match codec.decodeErrorResponse(body)
    case None => ErrorDecodeFailed(statusCode)
    case Some(e) => Server(ServerError(e.code, e.internalCode, e.devMessage, e.userMessage.langRu))
  }

  /**
   * How every operation classifies what the transport returned: a transport error,
   * the non-200 rule, or the 200 body decoded as T.
   */
  function Classify<T>(ex: Exchange, decode: Bytes -> Option<T>, codec: Codec): (r: Result<T, ClientError>)
    ensures r.Success? <==> ex.Response? && ex.statusCode == StatusOK && decode(ex.body).Some?
    ensures r.Success? ==> Some(r.value) == decode(ex.body)
    ensures ex.TransportFailed? ==> r.Failure? && r.error == ExecutionFailed
    ensures ex.Response? && ex.statusCode != StatusOK ==>
      r.Failure? && r.error == ErrorFromResponse(ex.statusCode, ex.body, codec)
    ensures ex.Response? && ex.statusCode == StatusOK && r.Failure? ==> r.error == ResponseDecodeFailed
  {
    match ex
    case TransportFailed => Failure(ExecutionFailed)
    case Response(status, body) =>
      if status != StatusOK then Failure(ErrorFromResponse(status, body, codec))
      else match decode(body)
        case None => Failure(ResponseDecodeFailed)
        case Some(v) => Success(v)
  }

  /** Only a non-200 response yields a ServerError or an envelope decode error, and the latter keeps its status. */
  lemma ErrorClassesNeedNon200<T>(ex: Exchange, decode: Bytes -> Option<T>, codec: Codec)
    ensures var r := Classify(ex, decode, codec);
      r.Failure? && (r.error.Server? || r.error.ErrorDecodeFailed?) ==>
        ex.Response? && ex.statusCode != StatusOK
    ensures var r := Classify(ex, decode, codec);
      r.Failure? && r.error.ErrorDecodeFailed? ==> r.error.statusCode == ex.statusCode
  {
  }

  // ----- strconv.FormatInt(n, 10) -----

  function Digit(d: int): (c: char)
    requires 0 <= d < 10
    ensures '0' <= c <= '9' && (c as int) - ('0' as int) == d
  {
    ['0', '1', '2', '3', '4', '5', '6', '7', '8', '9'][d]
  }

  predicate IsDigits(s: string)
  {
    forall i :: 0 <= i < |s| ==> '0' <= s[i] <= '9'
  }

  /** The number a string of decimal digits denotes. */
  function DigitsValue(s: string): nat
    requires IsDigits(s)
  {
    if s == [] then 0
    else DigitsValue(s[..|s| - 1]) * 10 + ((s[|s| - 1] as int) - ('0' as int))
  }

  /** Decimal digits of a non-negative number, without leading zeros. */
  function FormatNat(n: nat): (s: string)
    ensures |s| >= 1 && IsDigits(s)
    ensures s[0] == '0' ==> n == 0 && s == "0"
    decreases n
  {
    if n < 10 then [Digit(n)] else FormatNat(n / 10) + [Digit(n % 10)]
  }

  /** `strconv.FormatInt(n, 10)`: a '-' before the digits of a negative number. */
  function FormatInt(n: int): (s: string)
    ensures |s| >= 1
    ensures n >= 0 ==> IsDigits(s)
    ensures n < 0 ==> s[0] == '-' && IsDigits(s[1..])
  {
    if n < 0 then "-" + FormatNat(-n) else FormatNat(n)
  }

  /** The digits read back as the number they were made from. */
  lemma {:induction false} FormatNatReadsBack(n: nat)
    ensures DigitsValue(FormatNat(n)) == n
    decreases n
  {
    if n >= 10 {
      var s := FormatNat(n);
      assert s[..|s| - 1] == FormatNat(n / 10);
      FormatNatReadsBack(n / 10);
    }
  }

  /** An optional '-' followed by at least one decimal digit. */
  predicate IsSignedDigits(s: string)
  {
    |s| >= 1 && if s[0] == '-' then IsDigits(s[1..]) else IsDigits(s)
  }

  /** The inverse of FormatInt. */
  function ParseInt(s: string): int
    requires IsSignedDigits(s)
  {
    if s[0] == '-' then -(DigitsValue(s[1..]) as int) else DigitsValue(s)
  }

  /** Every id survives rendering and reading back. */
  lemma FormatIntReadsBack(n: int)
    ensures IsSignedDigits(FormatInt(n)) && ParseInt(FormatInt(n)) == n
  {
    if n < 0 {
      NegativeReadsBack(n);
    } else {
      FormatNatReadsBack(n);
      assert FormatInt(n)[0] != '-';
    }
  }

  lemma NegativeReadsBack(n: int)
    requires n < 0
    ensures IsSignedDigits(FormatInt(n)) && ParseInt(FormatInt(n)) == n
  {
    var t := FormatNat(-n);
    assert FormatInt(n) == "-" + t;
    assert ("-" + t)[1..] == t;
    FormatNatReadsBack(-n);
  }

  /** Distinct payment ids render as distinct strings. */
  lemma FormatIntInjective(a: int, b: int)
    requires FormatInt(a) == FormatInt(b)
    ensures a == b
  {
    FormatIntReadsBack(a);
    FormatIntReadsBack(b);
  }
}
