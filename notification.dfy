/**
 * notification.go: the webhook endpoint. Construction validates the public key and the
 * handler; each request goes through signature decoding, body reading, SHA-256 +
 * RSASSA-PKCS1-v1_5 verification of the raw body (section 8.2 of RFC 8017), JSON
 * decoding, mapping, and the handler, and each failure has a fixed status.
 * Base64 (section 4 of RFC 4648), PKIX key parsing (section 4.1 of RFC 5280), SHA-256
 * and RSA are uninterpreted inputs.
 */
module Notification {
  import opened Wrappers
  import opened Types
  import opened Conv
  import opened Gateway

  const StatusUnauthorized := 401
  const StatusBadRequest := 400
  const StatusInternalServerError := 500

  const SignatureHeader := "Server-Sign"

  datatype RsaPublicKey = RsaPublicKey(modulus: nat, exponent: nat)

  /** What `x509.ParsePKIXPublicKey` may yield: an RSA key or a key of another algorithm. */
  datatype PublicKey = RsaKey(key: RsaPublicKey) | OtherKey(algorithm: string)

  /** The cryptographic primitives, as total functions with None for a decoding error. */
  datatype Crypto = Crypto(
    base64Decode: string -> Option<Bytes>,
    parsePkixPublicKey: Bytes -> Option<PublicKey>,
    sha256: Bytes -> Bytes,
    verifyPkcs1v15: (RsaPublicKey, Bytes, Bytes) -> bool)

  /** The caller's PaymentNotificationHandler: `handlePayment` is true where it returns nil. */
  datatype PaymentHandler = PaymentHandler(handlePayment: PaymentInfo -> bool)

  /** Why NewHTTPNotificationHandler refused to build an endpoint. */
  datatype SetupError = KeyNotBase64 | KeyNotPkix | KeyNotRsa | NilHandler

  /** An inbound webhook request; `body` is None when reading it fails. */
  datatype InboundRequest = InboundRequest(header: map<string, string>, body: Option<Bytes>)

  /** `r.Header.Get(key)`: the empty string for an absent header. */
  function HeaderGet(header: map<string, string>, key: string): string
  {
    if key in header then header[key] else ""
  }

  /**
   * The validation chain of NewHTTPNotificationHandler (notification.go:43-61): base64,
   * then PKIX, then RSA, then a non-nil handler; each error means every earlier check passed.
   */
  function CheckSetup(publicKey: string, handler: Option<PaymentHandler>, crypto: Crypto): (r: Result<RsaPublicKey, SetupError>)
    ensures r == Failure(KeyNotBase64) <==> crypto.base64Decode(publicKey).None?
    ensures r == Failure(KeyNotPkix) <==>
      crypto.base64Decode(publicKey).Some? &&
      crypto.parsePkixPublicKey(crypto.base64Decode(publicKey).value).None?
    ensures r == Failure(KeyNotRsa) <==>
      crypto.base64Decode(publicKey).Some? &&
      crypto.parsePkixPublicKey(crypto.base64Decode(publicKey).value).Some? &&
      !crypto.parsePkixPublicKey(crypto.base64Decode(publicKey).value).value.RsaKey?
    ensures r == Failure(NilHandler) <==>
      crypto.base64Decode(publicKey).Some? &&
      crypto.parsePkixPublicKey(crypto.base64Decode(publicKey).value).Some? &&
      crypto.parsePkixPublicKey(crypto.base64Decode(publicKey).value).value.RsaKey? &&
      handler.None?
    ensures r.Success? ==>
      && handler.Some?
      && crypto.base64Decode(publicKey).Some?
      && crypto.parsePkixPublicKey(crypto.base64Decode(publicKey).value) == Some(RsaKey(r.value))
  {
    match crypto.base64Decode(publicKey)
    case None => Failure(KeyNotBase64)
    case Some(rawKey) =>
      match crypto.parsePkixPublicKey(rawKey)
      case None => Failure(KeyNotPkix)
      case Some(OtherKey(_)) => Failure(KeyNotRsa)
      case Some(RsaKey(key)) => if handler.None? then Failure(NilHandler) else Success(key)
  }

  /** How far a request got through the pipeline, one constructor per exit of ServeHTTP. */
  datatype Verdict =
    | SignatureNotBase64                    // notification.go:70-74
    | BodyUnreadable                        // notification.go:76-80
    | SignatureInvalid                      // notification.go:82-88
    | PayloadNotJson                        // notification.go:90-95
    | PayloadUnmappable(cause: ConvError)   // notification.go:97-101
    | HandlerFailed(info: PaymentInfo)      // notification.go:103-107
    | Handled(info: PaymentInfo)            // notification.go:108
  {
    /** The signature over the raw body was checked and accepted. */
    predicate Authenticated()
    {
      !(SignatureNotBase64? || BodyUnreadable? || SignatureInvalid?)
    }

    /** The handler was called. */
    predicate Dispatched()
    {
      HandlerFailed? || Handled?
    }
  }

  /**
   * The response status of each exit; a handled request writes nothing and gets Go's
   * default 200. Each status stands for exactly one class of outcome.
   */
  function StatusOf(v: Verdict): (status: int)
    ensures status == StatusUnauthorized <==> !v.Authenticated()
    ensures status == StatusBadRequest <==> v.Authenticated() && !v.Dispatched()
    ensures status == StatusInternalServerError <==> v.HandlerFailed?
    ensures status == StatusOK <==> v.Handled?
  {
    match v
    case SignatureNotBase64 | BodyUnreadable | SignatureInvalid => StatusUnauthorized
    case PayloadNotJson | PayloadUnmappable(_) => StatusBadRequest
    case HandlerFailed(_) => StatusInternalServerError
    case Handled(_) => StatusOK
  }

  /** An `http.ResponseWriter` as far as the status line goes. */
  class ResponseWriter {
    var written: Option<int>

    constructor ()
      ensures written == None
    {
      written := None;
    }

    /** `http.Error(w, msg, code)`: the first status written is the one sent. */
    method Error(code: int)
      modifies this
      ensures written == if old(written).None? then Some(code) else old(written)
    {
      if written.None? {
        written := Some(code);
      }
    }

    /** The status the client receives: 200 when nothing was written. */
    function Status(): int
      reads this
    {
      written.GetOr(StatusOK)
    }
  }

  /** HTTPNotificationHandler: a read-only key and handler, and a ghost log of handler calls. */
  class HttpNotificationHandler {
    const publicKey: RsaPublicKey
    const handler: PaymentHandler
    ghost var handled: seq<PaymentInfo>

    constructor (publicKey: RsaPublicKey, handler: PaymentHandler)
      ensures this.publicKey == publicKey && this.handler == handler
      ensures handled == []
    {
      this.publicKey := publicKey;
      this.handler := handler;
      handled := [];
    }

    /**
     * Where a request ends up. Authentication holds exactly when the signature header
     * decodes, the body reads and the signature verifies over the SHA-256 of the raw
     * body; the payload is decoded only then, and the handler sees exactly the mapped
     * record.
     */
    function Serve(r: InboundRequest, crypto: Crypto, codec: Codec): (v: Verdict)
      ensures v.Authenticated() <==>
        && crypto.base64Decode(HeaderGet(r.header, SignatureHeader)).Some?
        && r.body.Some?
        && crypto.verifyPkcs1v15(publicKey, crypto.sha256(r.body.value),
                                 crypto.base64Decode(HeaderGet(r.header, SignatureHeader)).value)
      ensures v.Authenticated() ==>
        (v.PayloadNotJson? <==> codec.unmarshalPaymentInfo(r.body.value).None?)
      ensures v.PayloadUnmappable? ==>
        && codec.unmarshalPaymentInfo(r.body.value).Some?
        && PaymentInfoFromRaw(codec.unmarshalPaymentInfo(r.body.value).value, codec.parseTime) == Failure(v.cause)
      ensures v.Dispatched() ==>
        && v.Authenticated()
        && codec.unmarshalPaymentInfo(r.body.value).Some?
        && PaymentInfoFromRaw(codec.unmarshalPaymentInfo(r.body.value).value, codec.parseTime) == Success(v.info)
        && (v.Handled? <==> handler.handlePayment(v.info))
    {
      match crypto.base64Decode(HeaderGet(r.header, SignatureHeader))
      case None => SignatureNotBase64
      case Some(signature) =>
        match r.body
        case None => BodyUnreadable
        case Some(body) =>
          if !crypto.verifyPkcs1v15(publicKey, crypto.sha256(body), signature) then SignatureInvalid
          else match codec.unmarshalPaymentInfo(body)
            case None => PayloadNotJson
            case Some(raw) =>
              match PaymentInfoFromRaw(raw, codec.parseTime)
              case Failure(e) => PayloadUnmappable(e)
              case Success(info) => if handler.handlePayment(info) then Handled(info) else HandlerFailed(info)
    }

    /**
     * ServeHTTP (notification.go:69-108): the steps in the source's order, each failure
     * writing its status and returning; the handler is called at most once.
     */
    method ServeHTTP(w: ResponseWriter, r: InboundRequest, crypto: Crypto, codec: Codec)
      requires w.written.None?
      modifies this`handled, w
      ensures w.written == if Serve(r, crypto, codec).Handled? then None else Some(StatusOf(Serve(r, crypto, codec)))
      ensures w.Status() == StatusOf(Serve(r, crypto, codec))
      ensures handled == old(handled) + if Serve(r, crypto, codec).Dispatched() then [Serve(r, crypto, codec).info] else []
    {
      var decodedSignature := crypto.base64Decode(HeaderGet(r.header, SignatureHeader));
      if decodedSignature.None? {
        w.Error(StatusUnauthorized);
        return;
      }
      if r.body.None? {
        w.Error(StatusUnauthorized);
        return;
      }
      var body := r.body.value;
      var sum := crypto.sha256(body);
      if !crypto.verifyPkcs1v15(publicKey, sum, decodedSignature.value) {
        w.Error(StatusUnauthorized);
        return;
      }
      var rawPaymentInfo := codec.unmarshalPaymentInfo(body);
      if rawPaymentInfo.None? {
        w.Error(StatusBadRequest);
        return;
      }
      var paymentInfo, err := MakePaymentInfoFromRaw(rawPaymentInfo.value, codec.parseTime);
      if err.Some? {
        w.Error(StatusBadRequest);
        return;
      }
      handled := handled + [paymentInfo];
      if !handler.handlePayment(paymentInfo) {
        w.Error(StatusInternalServerError);
        return;
      }
    }
  }

  /**
   * NewHTTPNotificationHandler (notification.go:43-67). On failure the result is null,
   * standing for Go's zero HTTPNotificationHandler.
   */
  method NewHttpNotificationHandler(publicKey: string, paymentHandler: Option<PaymentHandler>, crypto: Crypto)
    returns (nh: HttpNotificationHandler?, err: Option<SetupError>)
    ensures CheckSetup(publicKey, paymentHandler, crypto).Failure? ==>
      nh == null && err == Some(CheckSetup(publicKey, paymentHandler, crypto).error)
    ensures CheckSetup(publicKey, paymentHandler, crypto).Success? ==>
      && err == None && nh != null && fresh(nh)
      && nh.publicKey == CheckSetup(publicKey, paymentHandler, crypto).value
      && nh.handler == paymentHandler.value
      && nh.handled == []
  {
    var checked := CheckSetup(publicKey, paymentHandler, crypto);
    if checked.Failure? {
      return null, Some(checked.error);
    }
    nh := new HttpNotificationHandler(checked.value, paymentHandler.value);
    err := None;
  }

  /** A body altered after signing is refused as unauthenticated, whatever it contains. */
  lemma TamperedBodyRejected(nh: HttpNotificationHandler, r: InboundRequest, crypto: Crypto, codec: Codec)
    requires r.body.Some?
    requires crypto.base64Decode(HeaderGet(r.header, SignatureHeader)).Some?
    requires !crypto.verifyPkcs1v15(nh.publicKey, crypto.sha256(r.body.value),
                                    crypto.base64Decode(HeaderGet(r.header, SignatureHeader)).value)
    ensures StatusOf(nh.Serve(r, crypto, codec)) == StatusUnauthorized
    ensures !nh.Serve(r, crypto, codec).Dispatched()
  {
  }

  /** An authentic, well-formed JSON body with an unparseable date is a bad request, never a handler call. */
  lemma BadTimestampIsBadRequest(nh: HttpNotificationHandler, r: InboundRequest, crypto: Crypto, codec: Codec)
    requires nh.Serve(r, crypto, codec).Authenticated()
    requires codec.unmarshalPaymentInfo(r.body.value).Some?
    requires codec.parseTime(codec.unmarshalPaymentInfo(r.body.value).value.createdDate).None?
    ensures nh.Serve(r, crypto, codec) == PayloadUnmappable(BadCreatedDate)
    ensures StatusOf(nh.Serve(r, crypto, codec)) == StatusBadRequest
  {
  }
}
