# go-acquiring (Oplati payment gateway SDK) — a Dafny model

This project models the core of the Go client SDK for the Oplati payment gateway:

- **Money and record mapping** (`conv.go`): receipt items are mapped one to one, and their
  kopeck costs are summed as integers and scaled once to the wire's decimal major units. A
  payment or reversal request carries that total twice and the cashbox registration number
  twice. A wire payment record is read back with round-half-away-from-zero, and the first
  date that does not parse (creation date, then paid date) is an error.
- **Gateway operations** (`payment.go`, `info.go`, `reversal.go`, `shift.go`): each builds
  its URL and header map, hands the request to the transport and classifies the answer.
  A transport error is one class. A status other than 200 gives a `ServerError` mapped from
  the error envelope, or a decode error that carries the status code. A 200 response gives
  the decoded body, mapped where needed. The shift listing maps its records in order and
  aborts on the first bad one.
- **Webhook endpoint** (`notification.go`): the constructor checks the key (base64, then
  PKIX, then RSA) and then the handler. Each request goes through: signature header →
  body → SHA-256 + RSASSA-PKCS1-v1_5 verification over the raw bytes (section 8.2 of
  RFC 8017) → JSON → mapping → handler. A failure at any step writes 401, 400 or 500, and
  success leaves the default 200.
- **`ServerError.Error()`** (`server-error.go`).

Layout: `wrappers.dfy` (Option, Result) and `types.dfy` (domain and wire records from
`dto.go`, `payment.go`, `info.go`, `reversal.go`, and the `Client` configuration) hold the
records. `money.dfy` does the scaling and rounding, `conv.dfy` the mapping and
`server_error.dfy` the error text. `gateway.dfy` holds what the operations share: the
`Request` class whose header map is set in place, the abstract transport and codec, the
non-200 rule and `strconv.FormatInt`. Then come `payment.dfy`, `info.dfy`, `reversal.dfy`,
`shift.dfy` and `notification.dfy`.

Inputs the model treats as parameters:
- `Transport`: whether `http.NewRequestWithContext` accepts the URL, and `httpClient.Do`
  as a function from request to exchange.
- `Codec`: `encoding/json` encoders and decoders, and `time.Parse(time.RFC3339)`. Each
  gives None where the library errs. The operations read responses with
  `json.NewDecoder(...).Decode`, which ignores data after the first value; the webhook uses
  `json.Unmarshal`, which refuses it, so the two are separate parameters.
- `Crypto`: base64 (section 4 of RFC 4648), PKIX parsing (section 4.1 of RFC 5280),
  SHA-256 and PKCS #1 v1.5 verification.
- `PaymentHandler`: the caller's handler, as a function of the payment telling whether it
  returned nil.

Go's `(value, error)` pairs are two out-parameters: the value is the zero value whenever the
error is present. A nil slice is `None`. The zero `HTTPNotificationHandler` returned on a
failed construction is `null`. Each operation also returns `sent`: the request handed to the
transport, or None when the call stopped before sending.

The model follows the code where a stricter contract might be expected:
- The code does not check that amounts are non-negative, so negative costs are accepted.
- The code copies `PaymentId` and `RedirectUrl` of a created payment without checking them.
- Cancellation surfaces as the ordinary "request execution failed" transport error.

## Model

| member | source | states |
|---|---|---|
| `Money.ToWire` | conv.go:17 | the wire amount times 100 is exactly the kopeck amount |
| `Money.Round` | conv.go:66 | `math.Round`: the result is within 1/2 of the input, and a tie goes away from zero |
| `Money.FromWire` | conv.go:66 | the kopecks read back are the nearest integer to 100 × the wire amount, a tie going away from zero |
| `Money.RoundUnique` | conv.go:66 | Round's contract admits exactly one integer, so it fully specifies the rounding |
| `Money.RoundInteger` | conv.go:66 | an integral value rounds to itself |
| `Money.RoundTrip` | conv.go:17 | for every integer n, `round((n/100)*100) == n`: scaling to the wire and back is lossless |
| `Money.NoisyAmountsReadBack` | conv.go:66 | 545 ↦ 5.45, and 5.45 and 5.449999 both read back as 545; 5.455 ↦ 546 and −5.455 ↦ −546 (ties away from zero) |
| `Conv.WireItems` | conv.go:11-18 | same length as the items; item i has the same type and name and cost `items[i].Cost / 100` |
| `Conv.MakePaymentItems` | conv.go:9-23 | the loop fills a preallocated array in order (same length, type, name, cost/100 per item) and returns the integer kopeck sum scaled once; an empty list gives `[]` and 0 |
| `Conv.ScaledOnce` | conv.go:19-22 | summing integer kopecks and scaling once equals the exact sum of the scaled item costs |
| `Conv.WireItemsReadBack` | conv.go:17 | every wire item cost reads back as the caller's kopecks |
| `Conv.MakePaymentRequest` | conv.go:25-43 | `Sum` and `Details.AmountTotal` are both the scaled item total; `RegNum` and `Details.RegNum` are both the cashbox number; the shift, order number, footer text (as `FooterInfo`) and three URLs are copied unchanged |
| `Conv.MakeReversePaymentRequest` | conv.go:45-60 | the same item/total mapping and the same double `RegNum`, with no URLs |
| `Conv.TwoItemTotal` | conv.go:19-22 | costs 499 and 5999 give a wire total of exactly 64.98 |
| `Conv.PaymentRequestTotals` | conv.go:26-36 | a payment request's total equals the sum of its own wire item costs and reads back as the integer kopeck total |
| `Conv.ReversalRequestTotals` | conv.go:46-56 | the same self-consistency for a reversal request |
| `Conv.ReversalMatchesPayment` | conv.go:25-60 | a reversal of the same receipt carries exactly the payment request's shift, sum, order number, RegNum and details |
| `Conv.PaymentInfoFromRaw` | conv.go:62-85 | succeeds iff both dates parse; the error is the creation-date one iff that date fails; on success the id, order number and purse id are copied, type and status are cast unchecked, the dates are the parsed ones, and the sum is `FromWire` of the wire sum |
| `Conv.InfoSumRoundTrip` | conv.go:66 | a record whose sum was scaled from n kopecks maps back to exactly n |
| `Conv.MakePaymentInfoFromRaw` | conv.go:62-85 | the step-by-step version agrees with `PaymentInfoFromRaw`; every failure returns the zero `PaymentInfo` |
| `ServerErrors.ErrorText` | server-error.go:15-17 | the text is `"OPLATI error "`, then the internal code, then `": "`, then the message; its length is 15 + the two field lengths |
| `ServerErrors.ErrorTextIgnoresStatusAndUserMessage` | server-error.go:16 | status code and user message do not affect the text |
| `ServerErrors.FirstColonEndsCode` | server-error.go:16 | if the code has no ':', the first ':' after the prefix is the one after the code |
| `ServerErrors.ErrorTextRecoversFields` | server-error.go:16 | if codes have no ':', equal texts mean equal internal codes and messages |
| `Gateway.Request.constructor` | payment.go:60 | a new request has the given method, URL and body, and an empty header map |
| `Gateway.Request.SetHeader` | payment.go:65-67 | `Header.Set` replaces that one key and leaves the other keys as they were |
| `Gateway.SetAuthHeader` | info.go:44-45 | sets `RegNum` to the cashbox number and `Password` to the cashbox password |
| `Gateway.AuthHeader` | info.go:44-45 | exactly the keys `RegNum` and `Password`, holding the cashbox credentials |
| `Gateway.JsonHeader` | payment.go:65-67 | exactly `RegNum`, `Password` and `Content-Type: application/json` |
| `Gateway.ErrorFromResponse` | payment.go:75-87 | a decoded envelope becomes a `ServerError` (code, internalCode, devMessage, lang_ru; lang_en dropped); otherwise a decode error that carries the HTTP status |
| `Gateway.Classify` | payment.go:69-93 | success iff the status is 200 and the body decodes; a transport error is `ExecutionFailed`; any other status goes through `ErrorFromResponse`; a 200 body that does not decode is `ResponseDecodeFailed` |
| `Gateway.ErrorClassesNeedNon200` | payment.go:75-87 | a `ServerError` or an envelope decode error arises only from a non-200 response, and the latter keeps that status |
| `Gateway.FormatNat` | info.go:39 | non-empty decimal digits with no leading zero |
| `Gateway.FormatInt` | info.go:39 | `strconv.FormatInt(n, 10)`: digits, with a leading '-' exactly for negatives |
| `Gateway.FormatNatReadsBack` | info.go:39 | the digits denote the number they were made from |
| `Gateway.FormatIntReadsBack` | info.go:39 | `ParseInt(FormatInt(n)) == n` for every n |
| `Gateway.FormatIntInjective` | info.go:39 | distinct ids render as distinct strings |
| `Payment.CreatePayment` | payment.go:52-99 | the body is the encoding of `MakePaymentRequest`; POST to `baseUrl + "/pos/webPayments/v2"` with the JSON headers; classification as in `Classify`; on 200 `PaymentId`/`RedirectUrl` are copied; any non-200 or error gives the zero result |
| `Info.PaymentUrl` | info.go:39 | the URL is the base URL, then `/pos/payments/`, then the decimal id |
| `Info.PaymentUrlIdentifiesPayment` | info.go:39 | distinct payment ids give distinct URLs |
| `Info.GetPaymentInfo` | info.go:38-79 | GET to `baseUrl + "/pos/payments/" + decimal(id)` with only the credential headers; on 200 the result is exactly `PaymentInfoFromRaw` of the decoded record, and its failure is an error; every error returns the zero `PaymentInfo` |
| `Reversal.ReversalUrl` | reversal.go:35 | the reversal URL is the payment URL followed by `/reversals` |
| `Reversal.ReversePayment` | reversal.go:27-76 | the body is the encoding of `MakeReversePaymentRequest`; POST to the reversal URL with the JSON headers; classification and mapping as in `GetPaymentInfo`; every error returns the zero `PaymentInfo` |
| `Shift.ShiftUrl` | shift.go:15 | the URL ends with the shift exactly as given, with no escaping |
| `Shift.MapRecords` | shift.go:49-55 | maps the records front to back, stopping at the first failure; a success has one element per record |
| `Shift.MapRecordsContents` | shift.go:49-55 | `MapRecords` succeeds iff every record maps; then element i is record i's mapping; on failure the error is that of the first record that fails |
| `Shift.MakePayments` | shift.go:49-55 | the loop fills a preallocated array by index and exits at the first record that does not map; it returns exactly `MapRecords`, with no partial list on failure |
| `Shift.PrefixFailureDecides` | shift.go:50-54 | once a prefix fails, later records cannot change the outcome |
| `Shift.GetPaymentsOnShift` | shift.go:14-58 | GET to `baseUrl + "/pos/paymentReports?shift=" + shift` with only the credential headers; the loop over a preallocated array returns `MapRecords` of the decoded array, or nil plus an error, with no partial list |
| `Shift.EmptyShiftIsEmptyList` | shift.go:43-57 | an empty array maps to an empty list, not an error |
| `Notification.CheckSetup` | notification.go:43-61 | the failures come in the source's order (not base64, not PKIX, not RSA, nil handler), each only after the earlier checks passed; success yields the parsed RSA key |
| `Notification.NewHttpNotificationHandler` | notification.go:43-67 | failure returns no handler plus `CheckSetup`'s error; success stores the parsed RSA key and the given handler |
| `Notification.HttpNotificationHandler.constructor` | notification.go:63-66 | the endpoint keeps the given key and handler; no handler calls yet |
| `Notification.HttpNotificationHandler.Serve` | notification.go:69-108 | authenticated iff the header decodes, the body reads and the signature verifies over SHA-256 of the raw body; the JSON is unmarshalled only after that; the handler sees exactly the mapped record; success is exactly the handler returning nil |
| `Notification.HttpNotificationHandler.ServeHTTP` | notification.go:69-108 | writes `StatusOf(Serve(...))`, or nothing (default 200) on success; the handler is called once, with the mapped record, exactly when the request was authenticated and mapped |
| `Notification.StatusOf` | notification.go:70-107 | 401 iff not authenticated, 400 iff authenticated but not dispatched, 500 iff the handler failed, 200 (nothing written) iff it succeeded |
| `Notification.TamperedBodyRejected` | notification.go:82-88 | a body whose signature does not verify gets 401 and no handler call, whatever it contains |
| `Notification.BadTimestampIsBadRequest` | notification.go:97-101 | an authentic, decodable body with a bad creation date gets 400 and no handler call |

## Left out

- HTTP transport details are not modelled: request contexts and cancellation, `resp.Body.Close`, and how `io.ReadAll` reads. The transport is a function from request to exchange, and the webhook body is given already read, or marked unreadable.
- JSON encoding and decoding, base64, `x509.ParsePKIXPublicKey`, SHA-256, RSA and `time.Parse` are uninterpreted parameters. They are foreign library code.
- float64 is not modelled: wire amounts are exact reals, so representation error is not captured.
- `Conv.MakePaymentItems`: the int64 overflow of the running kopeck sum (conv.go:19) is not modelled, because kopecks are unbounded integers. Neither is the int64 conversion of a rounded sum out of range (conv.go:66).
- Header keys are not canonicalised as `http.Header.Set`/`Get` do (`RegNum` goes out as `Regnum`). HTTP header names are case-insensitive, so the model keeps the keys as written.
- `Notification.ResponseWriter`: only the status is modelled, not the message body `http.Error` writes.
- Error message wording (`fmt.Errorf` wrapping) is left out. Only the error class is modelled, plus the status code of an envelope that fails to decode.
- The caller's handler is a function of its argument. Its side effects are not modelled, except that the ghost log `handled` records each call.
- `client.go` and `opts.go` are not modelled beyond the immutable `Client` record: they only wire up `net/http` options. `doc.go` is documentation.
- `payment-types.go` and `payment-statuses.go` become named integers only. Type and status are cast without a range check, as in the source.
- The source repeats the non-200 branch and the header-setting lines in every operation. The model factors them into `Gateway.ErrorFromResponse`, `Gateway.Classify` and `Gateway.SetAuthHeader`, which behave the same.
