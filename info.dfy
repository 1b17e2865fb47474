/** info.go: GetPaymentInfo, GET /pos/payments/{paymentId}. */
module Info {
  import opened Wrappers
  import opened Types
  import opened Conv
  import opened Gateway

  const PaymentsPath := "/pos/payments/"

  /** The URL of one payment: the id rendered in decimal after the collection path. */
  function PaymentUrl(c: Client, paymentId: int): (url: string)
    ensures |url| == |c.baseUrl| + |PaymentsPath| + |FormatInt(paymentId)|
    ensures url[..|c.baseUrl|] == c.baseUrl
    ensures url[|c.baseUrl|..|c.baseUrl| + |PaymentsPath|] == PaymentsPath
    ensures url[|c.baseUrl| + |PaymentsPath|..] == FormatInt(paymentId)
  {
    c.baseUrl + PaymentsPath + FormatInt(paymentId)
  }

  /** Distinct payment ids address distinct resources. */
  lemma PaymentUrlIdentifiesPayment(c: Client, a: int, b: int)
    requires PaymentUrl(c, a) == PaymentUrl(c, b)
    ensures a == b
  {
    var prefix := c.baseUrl + PaymentsPath;
    assert FormatInt(a) == PaymentUrl(c, a)[|prefix|..];
    assert FormatInt(b) == PaymentUrl(c, b)[|prefix|..];
    FormatIntInjective(a, b);
  }

  /**
   * GetPaymentInfo (info.go:38-79): only the credential headers and no body; on 200
   * the decoded record is mapped by makePaymentInfoFromRaw, whose failure is an error.
   * Every error comes with the zero PaymentInfo.
   */
  method GetPaymentInfo(c: Client, paymentId: int, codec: Codec, net: Transport)
    returns (sent: Option<HttpRequest>, info: PaymentInfo, err: Option<ClientError>)
    ensures !net.newRequestOk(Get, PaymentUrl(c, paymentId)) ==> sent.None? && err == Some(InitFailed)
    ensures net.newRequestOk(Get, PaymentUrl(c, paymentId)) ==>
      sent == Some(HttpRequest(Get, PaymentUrl(c, paymentId), AuthHeader(c), []))
    ensures sent.Some? ==>
      match Classify(net.roundTrip(sent.value), codec.decodePaymentInfo, codec)
      case Failure(e) => err == Some(e)
      case Success(raw) =>
        match PaymentInfoFromRaw(raw, codec.parseTime)
        case Failure(e) => err == Some(HandlingFailed(e))
        case Success(p) => err == None && info == p
    ensures err.None? ==>
      && sent.Some?
      && net.roundTrip(sent.value).Response?
      && net.roundTrip(sent.value).statusCode == StatusOK
    ensures err.Some? ==> info == ZeroPaymentInfo
  {
    info := ZeroPaymentInfo;
    sent := None;
    var url := PaymentUrl(c, paymentId);
    if !net.newRequestOk(Get, url) {
      return sent, info, Some(InitFailed);
    }
    var r := new Request(Get, url, []);
    SetAuthHeader(r, c);
    sent := Some(r.Value());
    var resp := net.roundTrip(r.Value());
    if resp.TransportFailed? {
      return sent, info, Some(ExecutionFailed);
    }
    if resp.statusCode != StatusOK {
      return sent, info, Some(ErrorFromResponse(resp.statusCode, resp.body, codec));
    }
    var rawPaymentInfo := codec.decodePaymentInfo(resp.body);
    if rawPaymentInfo.None? {
      return sent, info, Some(ResponseDecodeFailed);
    }
    var mapped, mapErr := MakePaymentInfoFromRaw(rawPaymentInfo.value, codec.parseTime);
    if mapErr.Some? {
      return sent, info, Some(HandlingFailed(mapErr.value));
    }
    info, err := mapped, None;
  }
}
