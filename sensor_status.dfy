/** What every sensor shares: the eight-bit status register, the sentinel that
    stands for "no value", and the values handed to the result slots. */
module SensorStatus {

  /** `_sensorStatus`, a `uint8_t`. Bit 0: set up; bit 5: measurement
      requested; bit 6: measurement successfully started; bit 7: error. */
  type Status = bv8

  /** An unsigned byte: an I2C address, an ADC channel. */
  type Byte = x: nat | x < 256

  /** What a driver's constructor hands to its sensor base class: the
      driver's name, the number of result slots, the warm-up, stabilization
      and measurement times, the power pin and the number of measurements to
      average. */
  datatype SensorParams = SensorParams(
    name: string, numVariables: nat, warmUpTimeMs: nat, stabilizationTimeMs: nat,
    measurementTimeMs: nat, powerPin: int, measurementsToAverage: nat)

  /** The value a result slot receives when there is no valid reading. */
  const Sentinel: real := -9999.0

  /** Bit k of the status, as `bitRead(_sensorStatus, k)`. */
  predicate Bit(s: Status, k: nat)
    requires k < 8
  {
    s & (1 as bv8 << k) != 0
  }

  /** `_sensorStatus &= 0b10011111`: the measurement-request bits 5 and 6
      cleared, every other bit kept. */
  function ClearRequestBits(s: Status): (t: Status)
    ensures !Bit(t, 5) && !Bit(t, 6)
    ensures forall k :: 0 <= k < 8 && k != 5 && k != 6 ==> Bit(t, k) == Bit(s, k)
  {
    s & 0x9F  // 0b10011111
  }

  /** `_sensorStatus |= 0b10000000` then `_sensorStatus &= 0b11111110`: the
      error bit 7 set, the set-up bit 0 cleared, every other bit kept. */
  function MarkSetupFailed(s: Status): (t: Status)
    ensures Bit(t, 7) && !Bit(t, 0)
    ensures forall k :: 1 <= k < 7 ==> Bit(t, k) == Bit(s, k)
  {
    (s | 0x80) & 0xFE  // 0b10000000, 0b11111110
  }

  /** One call of `verifyAndAddMeasurementResult(slot, value)`; what the base
      class does with the value (averaging over measurements) is not part of
      this model. */
  datatype Handed = Handed(slot: nat, value: real)
}
