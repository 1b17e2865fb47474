/**
 * The records the SDK exchanges with its callers and with the gateway.
 * Domain records come from payment.go, info.go, reversal.go and server-error.go;
 * wire records (the JSON shapes) from dto.go; the client configuration from client.go.
 * Go's int64/int fields are unbounded `int`s here and float64 wire amounts are exact `real`s.
 */
module Types {

  /** Raw bytes of an HTTP body, a signature or a key. */
  type Bytes = seq<bv8>

  // ----- payment.go: item kinds (named integers, never range-checked) -----
  const PaymentItemTypeProduct: int := 1
  const PaymentItemTypeService: int := 2

  // ----- payment-types.go and payment-statuses.go: wire constants -----
  const PaymentTypeSell: int := 1
  const PaymentTypeBuy: int := 2
  const PaymentTypeSellReverse: int := 3
  const PaymentTypeBuyReverse: int := 4

  const PaymentStatusInProgress: int := 0
  const PaymentStatusDone: int := 1
  const PaymentStatusDeclined: int := 2
  const PaymentStatusNotEnoughMoney: int := 3
  const PaymentStatusTimeout: int := 4
  const PaymentStatusTechCancel: int := 5

  /** One receipt line; `cost` is in kopecks (545 stands for 5.45 BYN). */
  datatype PaymentItem = PaymentItem(itemType: int, name: string, cost: int)

  /** What a caller supplies to create a payment. */
  datatype Payment = Payment(
    shift: string,
    orderNumber: string,
    items: seq<PaymentItem>,
    receiptFooterText: string,
    successUrl: string,
    failureUrl: string,
    notificationUrl: string)

  /** What a caller supplies to reverse a payment: no redirect or notification URLs. */
  datatype PaymentReversal = PaymentReversal(
    shift: string,
    orderNumber: string,
    items: seq<PaymentItem>,
    receiptFooterText: string)

  datatype SuccessfulPayment = SuccessfulPayment(paymentId: int, redirectUrl: string)

  const ZeroSuccessfulPayment := SuccessfulPayment(0, "")

  /** A point in time as produced by an RFC 3339 parser; Time(0) stands for Go's zero time.Time. */
  datatype Time = Time(instant: int)

  /** A payment as the SDK reports it; `sum` is in kopecks. */
  datatype PaymentInfo = PaymentInfo(
    id: int,
    paymentType: int,
    sum: int,
    status: int,
    createdDate: Time,
    paidDate: Time,
    orderNumber: string,
    pursePublicId: string)

  /** Go's `PaymentInfo{}`, returned beside every error. */
  const ZeroPaymentInfo := PaymentInfo(0, 0, 0, 0, Time(0), Time(0), "", "")

  // ----- dto.go: wire shapes -----

  datatype ErrorResponseUserMessage = ErrorResponseUserMessage(langRu: string, langEn: string)

  /** The gateway's error envelope `{code, internalCode, devMessage, userMessage}`. */
  datatype ErrorResponse = ErrorResponse(
    code: string,
    internalCode: string,
    devMessage: string,
    userMessage: ErrorResponseUserMessage)

  datatype PaymentRequestDetailsItem = PaymentRequestDetailsItem(itemType: int, name: string, cost: real)

  datatype PaymentRequestDetails = PaymentRequestDetails(
    regNum: string,
    items: seq<PaymentRequestDetailsItem>,
    amountTotal: real,
    footerInfo: string)

  datatype NewPaymentRequest = NewPaymentRequest(
    shift: string,
    sum: real,
    orderNumber: string,
    regNum: string,
    details: PaymentRequestDetails,
    successUrl: string,
    failureUrl: string,
    notificationUrl: string)

  datatype NewPaymentResponse = NewPaymentResponse(paymentId: int, redirectUrl: string)

  /** The payment record as the gateway sends it (also the webhook body). */
  datatype PaymentInfoResponse = PaymentInfoResponse(
    paymentId: int,
    paymentType: int,
    sum: real,
    status: int,
    createdDate: string,
    paidDate: string,
    orderNumber: string,
    pursePublicId: string)

  datatype ReversePaymentRequest = ReversePaymentRequest(
    shift: string,
    sum: real,
    orderNumber: string,
    regNum: string,
    details: PaymentRequestDetails)

  // ----- client.go: the immutable part of Client -----

  datatype Client = Client(baseUrl: string, cashboxRegNumber: string, cashboxPassword: string)
}
