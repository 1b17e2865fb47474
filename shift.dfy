/** shift.go: GetPaymentsOnShift, GET /pos/paymentReports?shift={shift}. */
module Shift {
  import opened Wrappers
  import opened Types
  import opened Conv
  import opened Gateway

  const PaymentReportsPath := "/pos/paymentReports?shift="

  /** The shift is appended verbatim: no query escaping. */
  function ShiftUrl(c: Client, shift: string): (url: string)
    ensures |url| >= |shift| && url[|url| - |shift|..] == shift
  {
    c.baseUrl + PaymentReportsPath + shift
  }

  /**
   * The records of a shift mapped front to back; the first record that does not map
   * decides the error (see MapRecordsContents).
   */
  function MapRecords(raws: seq<PaymentInfoResponse>, parseTime: string -> Option<Time>): (r: Result<seq<PaymentInfo>, ConvError>)
    ensures r.Success? ==> |r.value| == |raws|
  {
    if raws == [] then Success([])
    else
      var n := |raws| - 1;
      match MapRecords(raws[..n], parseTime)
      case Failure(e) => Failure(e)
      case Success(ps) =>
        match PaymentInfoFromRaw(raws[n], parseTime)
        case Failure(e) => Failure(e)
        case Success(p) => Success(ps + [p])
  }

  /**
   * What MapRecords computes: success exactly when every record maps, with record i's
   * mapping at position i; otherwise the error of the first record that fails.
   */
  lemma {:induction false} MapRecordsContents(raws: seq<PaymentInfoResponse>, parseTime: string -> Option<Time>)
    ensures var r := MapRecords(raws, parseTime);
      r.Success? <==> forall i :: 0 <= i < |raws| ==> PaymentInfoFromRaw(raws[i], parseTime).Success?
    ensures var r := MapRecords(raws, parseTime);
      r.Success? ==> forall i :: 0 <= i < |raws| ==> PaymentInfoFromRaw(raws[i], parseTime) == Success(r.value[i])
    ensures var r := MapRecords(raws, parseTime);
      r.Failure? ==>
        exists k :: && 0 <= k < |raws|
                    && PaymentInfoFromRaw(raws[k], parseTime) == Failure(r.error)
                    && forall j :: 0 <= j < k ==> PaymentInfoFromRaw(raws[j], parseTime).Success?
  {
    if raws != [] {
      var n := |raws| - 1;
      var prefix := raws[..n];
      MapRecordsContents(prefix, parseTime);
      assert forall i :: 0 <= i < n ==> prefix[i] == raws[i];
      var r := MapRecords(raws, parseTime);
      match MapRecords(prefix, parseTime)
      case Failure(e) =>
        var k :| && 0 <= k < n
                 && PaymentInfoFromRaw(prefix[k], parseTime) == Failure(e)
                 && forall j :: 0 <= j < k ==> PaymentInfoFromRaw(prefix[j], parseTime).Success?;
        assert PaymentInfoFromRaw(raws[k], parseTime).Failure?;
      case Success(ps) =>
        if PaymentInfoFromRaw(raws[n], parseTime).Success? {
          assert r.value == ps + [PaymentInfoFromRaw(raws[n], parseTime).value];
        }
    }
  }

  /** Once a prefix fails to map, the whole list fails with the same error. */
  lemma {:induction false} PrefixFailureDecides(raws: seq<PaymentInfoResponse>, n: nat, parseTime: string -> Option<Time>)
    requires n <= |raws|
    requires MapRecords(raws[..n], parseTime).Failure?
    ensures MapRecords(raws, parseTime) == MapRecords(raws[..n], parseTime)
    decreases |raws|
  {
    if n < |raws| {
      var m := |raws| - 1;
      assert raws[..m][..n] == raws[..n];
      PrefixFailureDecides(raws[..m], n, parseTime);
    } else {
      assert raws[..n] == raws;
    }
  }

  /**
   * GetPaymentsOnShift (shift.go:14-58). `payments` is None where the source returns a
   * nil slice; an empty array on 200 gives Some([]) and no error. Records are mapped
   * into a preallocated slice in order, stopping at the first failure.
   */
  method GetPaymentsOnShift(c: Client, shift: string, codec: Codec, net: Transport)
    returns (sent: Option<HttpRequest>, payments: Option<seq<PaymentInfo>>, err: Option<ClientError>)
    ensures !net.newRequestOk(Get, ShiftUrl(c, shift)) ==> sent.None? && err == Some(InitFailed)
    ensures net.newRequestOk(Get, ShiftUrl(c, shift)) ==>
      sent == Some(HttpRequest(Get, ShiftUrl(c, shift), AuthHeader(c), []))
    ensures sent.Some? ==>
      match Classify(net.roundTrip(sent.value), codec.decodePaymentInfoList, codec)
      case Failure(e) => err == Some(e)
      case Success(raws) =>
        match MapRecords(raws, codec.parseTime)
        case Failure(e) => err == Some(HandlingFailed(e))
        case Success(ps) => err == None && payments == Some(ps)
    ensures err.Some? <==> payments.None?
  {
    sent, payments := None, None;
    var url := ShiftUrl(c, shift);
    if !net.newRequestOk(Get, url) {
      return sent, payments, Some(InitFailed);
    }
    var r := new Request(Get, url, []);
    SetAuthHeader(r, c);
    sent := Some(r.Value());
    var resp := net.roundTrip(r.Value());
    if resp.TransportFailed? {
      return sent, payments, Some(ExecutionFailed);
    }
    if resp.statusCode != StatusOK {
      return sent, payments, Some(ErrorFromResponse(resp.statusCode, resp.body, codec));
    }
    var rawPayments := codec.decodePaymentInfoList(resp.body);
    if rawPayments.None? {
      return sent, payments, Some(ResponseDecodeFailed);
    }
    var mapped, mapErr := MakePayments(rawPayments.value, codec.parseTime);
    if mapErr.Some? {
      return sent, None, Some(HandlingFailed(mapErr.value));
    }
    payments, err := Some(mapped), None;
  }

  /**
   * The loop of shift.go:49-55: fills a preallocated slice in order and stops at the
   * first record that does not map, so that no partial list escapes.
   */
  method MakePayments(raws: seq<PaymentInfoResponse>, parseTime: string -> Option<Time>)
    returns (payments: seq<PaymentInfo>, err: Option<ConvError>)
    ensures err.None? ==> MapRecords(raws, parseTime) == Success(payments)
    ensures err.Some? ==> MapRecords(raws, parseTime) == Failure(err.value) && payments == []
  {
    var mapped := new PaymentInfo[|raws|];
    for i := 0 to |raws|
      invariant MapRecords(raws[..i], parseTime) == Success(mapped[..i])
    {
      var info, mapErr := MakePaymentInfoFromRaw(raws[i], parseTime);
      assert raws[..i + 1][..i] == raws[..i];
      if mapErr.Some? {
        PrefixFailureDecides(raws, i + 1, parseTime);
        return [], mapErr;
      }
      mapped[i] := info;
      assert mapped[..i + 1] == mapped[..i] + [info];
    }
    assert raws[..|raws|] == raws && mapped[..|raws|] == mapped[..];
    payments, err := mapped[..], None;
  }

  /** A 200 response carrying an empty array is an empty list, not an error. */
  lemma EmptyShiftIsEmptyList(parseTime: string -> Option<Time>)
    ensures MapRecords([], parseTime) == Success([])
  {
  }
}
