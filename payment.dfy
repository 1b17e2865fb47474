/** payment.go: CreatePayment, POST /pos/webPayments/v2. */
module Payment {
  import opened Wrappers
  import opened Types
  import opened Conv
  import opened Gateway

  const CreatePaymentPath := "/pos/webPayments/v2"

  /**
   * CreatePayment (payment.go:52-99). `sent` is the request handed to the transport,
   * None when the call ended before sending. A result other than the zero value is
   * only ever returned from a 200 response whose body decoded.
   */
  method CreatePayment(c: Client, payment: Payment, codec: Codec, net: Transport)
    returns (sent: Option<HttpRequest>, result: SuccessfulPayment, err: Option<ClientError>)
    ensures var body := codec.encodePaymentRequest(MakePaymentRequest(c, payment));
      && (body.None? ==> sent.None? && err == Some(EncodingFailed))
      && (body.Some? && !net.newRequestOk(Post, c.baseUrl + CreatePaymentPath) ==>
            sent.None? && err == Some(InitFailed))
      && (body.Some? && net.newRequestOk(Post, c.baseUrl + CreatePaymentPath) ==>
            sent == Some(HttpRequest(Post, c.baseUrl + CreatePaymentPath, JsonHeader(c), body.value)))
    ensures sent.Some? ==>
      match Classify(net.roundTrip(sent.value), codec.decodeNewPaymentResponse, codec)
      case Failure(e) => err == Some(e)
      case Success(p) => err == None && result == SuccessfulPayment(p.paymentId, p.redirectUrl)
    ensures err.None? ==>
      && sent.Some?
      && net.roundTrip(sent.value).Response?
      && net.roundTrip(sent.value).statusCode == StatusOK
    ensures err.Some? ==> result == ZeroSuccessfulPayment
  {
    result := ZeroSuccessfulPayment;
    sent := None;
    var request := MakePaymentRequest(c, payment);
    var body := codec.encodePaymentRequest(request);
    if body.None? {
      return sent, result, Some(EncodingFailed);
    }
    var url := c.baseUrl + CreatePaymentPath;
    if !net.newRequestOk(Post, url) {
      return sent, result, Some(InitFailed);
    }
    var r := new Request(Post, url, body.value);
    SetAuthHeader(r, c);
    r.SetHeader("Content-Type", "application/json");
    sent := Some(r.Value());
    var resp := net.roundTrip(r.Value());
    if resp.TransportFailed? {
      return sent, result, Some(ExecutionFailed);
    }
    if resp.statusCode != StatusOK {
      return sent, result, Some(ErrorFromResponse(resp.statusCode, resp.body, codec));
    }
    var successfulPayment := codec.decodeNewPaymentResponse(resp.body);
    if successfulPayment.None? {
      return sent, result, Some(ResponseDecodeFailed);
    }
    result := SuccessfulPayment(successfulPayment.value.paymentId, successfulPayment.value.redirectUrl);
    err := None;
  }
}
