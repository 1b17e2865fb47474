/**
 * Scaling between kopecks (the SDK's integer amounts) and the gateway's decimal
 * major-unit amounts (conv.go:17, conv.go:22, conv.go:66). Wire amounts are exact
 * reals, so float64 representation error is outside this model.
 */
module Money {

  /** Kopecks to the wire decimal: `float64(n) / 100`. */
  function ToWire(kopecks: int): (r: real)
    ensures r * 100.0 == kopecks as real
  {
    kopecks as real / 100.0
  }

  /**
   * Go's `math.Round`: the nearest integer, ties rounded away from zero.
   * The two implications pin down the tie cases, so the contract determines
   * the result (see RoundUnique).
   */
  function Round(x: real): (r: int)
    ensures x - 0.5 <= r as real <= x + 0.5
    ensures r as real == x + 0.5 ==> x >= 0.0
    ensures r as real == x - 0.5 ==> x < 0.0
  {
    if x >= 0.0 then (x + 0.5).Floor else -((0.5 - x).Floor)
  }

  /** The wire decimal back to kopecks: `int64(math.Round(x * 100))`. */
  function FromWire(x: real): (r: int)
    ensures x * 100.0 - 0.5 <= r as real <= x * 100.0 + 0.5
    ensures r as real == x * 100.0 + 0.5 ==> x >= 0.0
    ensures r as real == x * 100.0 - 0.5 ==> x < 0.0
  {
    Round(x * 100.0)
  }

  /** Round's contract admits exactly one integer: it is a full specification of rounding. */
  lemma RoundUnique(x: real, k: int)
    requires x - 0.5 <= k as real <= x + 0.5
    requires k as real == x + 0.5 ==> x >= 0.0
    requires k as real == x - 0.5 ==> x < 0.0
    ensures k == Round(x)
  {
  }

  /** An integer is its own rounding. */
  lemma RoundInteger(n: int)
    ensures Round(n as real) == n
  {
    RoundUnique(n as real, n);
  }

  /** Every kopeck amount survives the trip to the wire and back. */
  lemma RoundTrip(n: int)
    ensures FromWire(ToWire(n)) == n
  {
    assert ToWire(n) * 100.0 == n as real;
    RoundInteger(n);
  }

  /** Round-half-away-from-zero absorbs representation noise: 5.449999 reads back as 545. */
  lemma NoisyAmountsReadBack()
    ensures ToWire(545) == 5.45
    ensures FromWire(5.45) == 545
    ensures FromWire(5.449999) == 545
    ensures FromWire(5.455) == 546
    ensures FromWire(-5.455) == -546
  {
    RoundUnique(545.0, 545);
    RoundUnique(544.9999, 545);
    RoundUnique(545.5, 546);
    RoundUnique(-545.5, -546);
  }
}
