/**
 * conv.go: the mapping between the caller's records and the gateway's wire records.
 * Item lists keep length and order, costs are summed as kopecks and scaled once,
 * and a wire payment record is read back with round-half-away-from-zero.
 */
module Conv {
  import opened Wrappers
  import opened Types
  import opened Money

  /** Why a wire payment record could not be turned into a PaymentInfo (conv.go:74, conv.go:80). */
  datatype ConvError = BadCreatedDate | BadPaidDate

  /** The integer kopeck total of a list of items, accumulated front to back. */
  function CostSum(items: seq<PaymentItem>): int
  {
    if items == [] then 0 else CostSum(items[..|items| - 1]) + items[|items| - 1].cost
  }

  /** The exact decimal total of a list of wire items, accumulated front to back. */
  function WireCostSum(wire: seq<PaymentRequestDetailsItem>): real
  {
    if wire == [] then 0.0 else WireCostSum(wire[..|wire| - 1]) + wire[|wire| - 1].cost
  }

  /** One receipt line on the wire: kind and name copied, cost scaled to major units. */
  function WireItem(item: PaymentItem): PaymentRequestDetailsItem
  {
    PaymentRequestDetailsItem(item.itemType, item.name, ToWire(item.cost))
  }

  /** The item list of makePaymentItems, as a function for use in specifications. */
  function WireItems(items: seq<PaymentItem>): (r: seq<PaymentRequestDetailsItem>)
    ensures |r| == |items|
    ensures forall i :: 0 <= i < |items| ==> r[i] == WireItem(items[i])
  {
    seq(|items|, i requires 0 <= i < |items| => WireItem(items[i]))
  }

  /**
   * makePaymentItems (conv.go:9-23): fills a preallocated slice item by item and
   * accumulates the integer kopeck sum, which it scales once at the end.
   * The int64 overflow of the running sum is not modelled.
   */
  method MakePaymentItems(items: seq<PaymentItem>) returns (wire: seq<PaymentRequestDetailsItem>, total: real)
    ensures |wire| == |items|
    ensures forall i :: 0 <= i < |items| ==>
      && wire[i].itemType == items[i].itemType
      && wire[i].name == items[i].name
      && wire[i].cost == ToWire(items[i].cost)
    ensures total == ToWire(CostSum(items))
    ensures wire == WireItems(items)
  {
    var sum := 0;
    var paymentItems := new PaymentRequestDetailsItem[|items|];
    for i := 0 to |items|
      invariant forall k :: 0 <= k < i ==> paymentItems[k] == WireItem(items[k])
      invariant sum == CostSum(items[..i])
    {
      paymentItems[i] := WireItem(items[i]);
      assert items[..i + 1][..i] == items[..i];
      sum := sum + items[i].cost;
    }
    assert items[..|items|] == items;
    wire := paymentItems[..];
    total := ToWire(sum);
  }

  /**
   * Summing kopecks and scaling once gives exactly the sum of the scaled item costs:
   * the wire total agrees with the wire items it accompanies.
   */
  lemma {:induction false} ScaledOnce(items: seq<PaymentItem>)
    ensures WireCostSum(WireItems(items)) == ToWire(CostSum(items))
  {
    if items != [] {
      var n := |items| - 1;
      assert WireItems(items)[..n] == WireItems(items[..n]);
      ScaledOnce(items[..n]);
    }
  }

  /** Reading a wire item's cost back yields the caller's kopecks. */
  lemma WireItemsReadBack(items: seq<PaymentItem>, i: int)
    requires 0 <= i < |items|
    ensures FromWire(WireItems(items)[i].cost) == items[i].cost
  {
    RoundTrip(items[i].cost);
  }

  /** makePaymentRequest (conv.go:25-43). */
  function MakePaymentRequest(c: Client, payment: Payment): (r: NewPaymentRequest)
    ensures r.sum == r.details.amountTotal == ToWire(CostSum(payment.items))
    ensures r.regNum == r.details.regNum == c.cashboxRegNumber
    ensures r.details.items == WireItems(payment.items)
    ensures r.shift == payment.shift && r.orderNumber == payment.orderNumber
    ensures r.details.footerInfo == payment.receiptFooterText
    ensures r.successUrl == payment.successUrl && r.failureUrl == payment.failureUrl
    ensures r.notificationUrl == payment.notificationUrl
  {
    var items, sum := WireItems(payment.items), ToWire(CostSum(payment.items));
    NewPaymentRequest(
      payment.shift, sum, payment.orderNumber, c.cashboxRegNumber,
      PaymentRequestDetails(c.cashboxRegNumber, items, sum, payment.receiptFooterText),
      payment.successUrl, payment.failureUrl, payment.notificationUrl)
  }

  /** makeReversePaymentRequest (conv.go:45-60): the same mapping without any URLs. */
  function MakeReversePaymentRequest(c: Client, payment: PaymentReversal): (r: ReversePaymentRequest)
    ensures r.sum == r.details.amountTotal == ToWire(CostSum(payment.items))
    ensures r.regNum == r.details.regNum == c.cashboxRegNumber
    ensures r.details.items == WireItems(payment.items)
    ensures r.shift == payment.shift && r.orderNumber == payment.orderNumber
    ensures r.details.footerInfo == payment.receiptFooterText
  {
    var items, sum := WireItems(payment.items), ToWire(CostSum(payment.items));
    ReversePaymentRequest(
      payment.shift, sum, payment.orderNumber, c.cashboxRegNumber,
      PaymentRequestDetails(c.cashboxRegNumber, items, sum, payment.receiptFooterText))
  }

  /** Costs of 4.99 and 59.99 total exactly 64.98 on the wire. */
  lemma TwoItemTotal(c: Client, payment: Payment)
    requires payment.items == [PaymentItem(PaymentItemTypeProduct, "a", 499), PaymentItem(PaymentItemTypeService, "b", 5999)]
    ensures MakePaymentRequest(c, payment).sum == 64.98
  {
    var items := payment.items;
    assert items[..1][..0] == [];
    assert CostSum(items[..1]) == 499;
    assert items[..|items| - 1] == items[..1];
  }

  /**
   * A payment request is self-consistent: its total is the sum of its own wire item
   * costs, and it reads back as the caller's integer kopeck total.
   */
  lemma PaymentRequestTotals(c: Client, payment: Payment)
    ensures var r := MakePaymentRequest(c, payment);
      && WireCostSum(r.details.items) == r.sum
      && FromWire(r.sum) == CostSum(payment.items)
  {
    ScaledOnce(payment.items);
    RoundTrip(CostSum(payment.items));
  }

  /** The same consistency for a reversal request. */
  lemma ReversalRequestTotals(c: Client, payment: PaymentReversal)
    ensures var r := MakeReversePaymentRequest(c, payment);
      && WireCostSum(r.details.items) == r.sum
      && FromWire(r.sum) == CostSum(payment.items)
  {
    ScaledOnce(payment.items);
    RoundTrip(CostSum(payment.items));
  }

  /** A reversal of the same receipt carries the same body as the payment, minus the URLs. */
  lemma ReversalMatchesPayment(c: Client, payment: Payment)
    ensures var reversal := PaymentReversal(payment.shift, payment.orderNumber, payment.items, payment.receiptFooterText);
      var p, q := MakePaymentRequest(c, payment), MakeReversePaymentRequest(c, reversal);
      q == ReversePaymentRequest(p.shift, p.sum, p.orderNumber, p.regNum, p.details)
  {
  }

  /**
   * makePaymentInfoFromRaw (conv.go:62-85) as a value: fields copied, type and status
   * cast without a range check, the sum rounded to kopecks; the creation date is parsed
   * first and the first bad date decides the error.
   */
  function PaymentInfoFromRaw(raw: PaymentInfoResponse, parseTime: string -> Option<Time>): (r: Result<PaymentInfo, ConvError>)
    ensures r.Success? <==> parseTime(raw.createdDate).Some? && parseTime(raw.paidDate).Some?
    ensures r.Failure? ==> (r.error == BadCreatedDate <==> parseTime(raw.createdDate).None?)
    ensures r.Success? ==>
      && r.value.id == raw.paymentId
      && r.value.paymentType == raw.paymentType
      && r.value.status == raw.status
      && r.value.orderNumber == raw.orderNumber
      && r.value.pursePublicId == raw.pursePublicId
      && r.value.sum == FromWire(raw.sum)
      && Some(r.value.createdDate) == parseTime(raw.createdDate)
      && Some(r.value.paidDate) == parseTime(raw.paidDate)
  {
    var info := PaymentInfo(raw.paymentId, raw.paymentType, FromWire(raw.sum), raw.status,
                            Time(0), Time(0), raw.orderNumber, raw.pursePublicId);
    match parseTime(raw.createdDate)
    case None => Failure(BadCreatedDate)
    case Some(created) =>
      match parseTime(raw.paidDate)
      case None => Failure(BadPaidDate)
      case Some(paid) => Success(info.(createdDate := created, paidDate := paid))
  }

  /** A record whose sum the SDK itself scaled reads back with the same kopecks. */
  lemma InfoSumRoundTrip(raw: PaymentInfoResponse, parseTime: string -> Option<Time>, kopecks: int)
    requires raw.sum == ToWire(kopecks)
    requires PaymentInfoFromRaw(raw, parseTime).Success?
    ensures PaymentInfoFromRaw(raw, parseTime).value.sum == kopecks
  {
    RoundTrip(kopecks);
  }

  /**
   * makePaymentInfoFromRaw as the source runs it: build the record, then assign the two
   * dates one at a time, returning the zero PaymentInfo with the first failure.
   */
  method MakePaymentInfoFromRaw(raw: PaymentInfoResponse, parseTime: string -> Option<Time>)
    returns (info: PaymentInfo, err: Option<ConvError>)
    ensures err.None? ==> PaymentInfoFromRaw(raw, parseTime) == Success(info)
    ensures err.Some? ==> PaymentInfoFromRaw(raw, parseTime) == Failure(err.value) && info == ZeroPaymentInfo
  {
    info := PaymentInfo(raw.paymentId, raw.paymentType, FromWire(raw.sum), raw.status,
                        Time(0), Time(0), raw.orderNumber, raw.pursePublicId);
    var createdDate := parseTime(raw.createdDate);
    if createdDate.None? {
      return ZeroPaymentInfo, Some(BadCreatedDate);
    }
    info := info.(createdDate := createdDate.value);
    var paidDate := parseTime(raw.paidDate);
    if paidDate.None? {
      return ZeroPaymentInfo, Some(BadPaidDate);
    }
    info := info.(paidDate := paidDate.value);
    err := None;
  }
}
