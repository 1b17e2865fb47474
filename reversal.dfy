/** reversal.go: ReversePayment, POST /pos/payments/{paymentId}/reversals. */
module Reversal {
  import opened Wrappers
  import opened Types
  import opened Conv
  import opened Gateway
  import Info

  const ReversalsSuffix := "/reversals"

  /** The reversal sub-resource of a payment. */
  function ReversalUrl(c: Client, paymentId: int): (url: string)
    ensures url == Info.PaymentUrl(c, paymentId) + ReversalsSuffix
  {
    c.baseUrl + Info.PaymentsPath + FormatInt(paymentId) + ReversalsSuffix
  }

  /**
   * ReversePayment (reversal.go:27-76): the body is the encoded reversal request, the
   * JSON headers are set, and on 200 the decoded record is mapped by
   * makePaymentInfoFromRaw. Every error comes with the zero PaymentInfo.
   */
  method ReversePayment(c: Client, paymentId: int, payment: PaymentReversal, codec: Codec, net: Transport)
    returns (sent: Option<HttpRequest>, info: PaymentInfo, err: Option<ClientError>)
    ensures var body := codec.encodeReversePaymentRequest(MakeReversePaymentRequest(c, payment));
      && (body.None? ==> sent.None? && err == Some(EncodingFailed))
      && (body.Some? && !net.newRequestOk(Post, ReversalUrl(c, paymentId)) ==>
            sent.None? && err == Some(InitFailed))
      && (body.Some? && net.newRequestOk(Post, ReversalUrl(c, paymentId)) ==>
            sent == Some(HttpRequest(Post, ReversalUrl(c, paymentId), JsonHeader(c), body.value)))
    ensures sent.Some? ==>
      match Classify(net.roundTrip(sent.value), codec.decodePaymentInfo, codec)
      case Failure(e) => err == Some(e)
      case Success(raw) =>
        match PaymentInfoFromRaw(raw, codec.parseTime)
        case Failure(e) => err == Some(HandlingFailed(e))
        case Success(p) => err == None && info == p
    ensures err.None? ==>
      && sent.Some?
      && net.roundTrip(sent.value).Response?
      && net.roundTrip(sent.value).statusCode == StatusOK
    ensures err.Some? ==> info == ZeroPaymentInfo
  {
    info := ZeroPaymentInfo;
    sent := None;
    var request := MakeReversePaymentRequest(c, payment);
    var body := codec.encodeReversePaymentRequest(request);
    if body.None? {
      return sent, info, Some(EncodingFailed);
    }
    var url := ReversalUrl(c, paymentId);
    if !net.newRequestOk(Post, url) {
      return sent, info, Some(InitFailed);
    }
    var r := new Request(Post, url, body.value);
    SetAuthHeader(r, c);
    r.SetHeader("Content-Type", "application/json");
    sent := Some(r.Value());
    var resp := net.roundTrip(r.Value());
    if resp.TransportFailed? {
      return sent, info, Some(ExecutionFailed);
    }
    if resp.statusCode != StatusOK {
      return sent, info, Some(ErrorFromResponse(resp.statusCode, resp.body, codec));
    }
    var rawPaymentInfo := codec.decodePaymentInfo(resp.body);
    if rawPaymentInfo.None? {
      return sent, info, Some(ResponseDecodeFailed);
    }
    var mapped, mapErr := MakePaymentInfoFromRaw(rawPaymentInfo.value, codec.parseTime);
    if mapErr.Some? {
      return sent, info, Some(HandlingFailed(mapErr.value));
    }
    info, err := mapped, None;
  }
}
