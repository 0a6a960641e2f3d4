/** The external voltage sensor: a TI ADS1115 (or ADS1015) analog-to-digital
    converter on I2C, one channel of it read single-ended and scaled by a gain. */
module ExternalVoltageSensor {
  import opened SensorStatus
  import opened Text

  // The constants the constructor hands to the Sensor base class.
  const SensorName: string := "ExternalVoltage"
  const NumVariables: nat := 1
  const WarmUpTimeMs: nat := 2
  const StabilizationTimeMs: nat := 0
  const MeasurementTimeMs: nat := 0
  /** The result slot of the voltage. */
  const VarNum: nat := 0

  /** Whether the library is built with MS_USE_ADS1015 (for the 12-bit
      converter); the default build leaves it undefined. */
  const UseAds1015: bool := false

  /** The converter's assumed I2C address, 1001 000 (ADDR pin to ground). */
  const Ads1115Address: Byte := 0x48

  const Ads1115Prefix: string := "ADS1115_0x"
  const Ads1015Prefix: string := "ADS1015_0x"
  const ChannelTag: string := "_Channel"

  /** The location string: the converter's name, its address in lower-case
      hexadecimal, and the channel in decimal. */
  function SensorLocation(ads1015: bool, i2cAddress: nat, adsChannel: nat): string
  {
    (if ads1015 then Ads1015Prefix else Ads1115Prefix) + LowerHex(i2cAddress) + ChannelTag + Decimal(adsChannel)
  }

  /** Reads a location string back into (ADS1015 build, address, channel). */
  function ParseLocation(s: string): Option<(bool, nat, nat)>
  {
    if |s| < 10 || (s[..10] != Ads1115Prefix && s[..10] != Ads1015Prefix) then None
    else
      match ParseAddressChannel(s[10..])
      case None => None
      case Some(ac) => Some((s[..10] == Ads1015Prefix, ac.0, ac.1))
  }

  /** Reads "<hex address>_Channel<decimal channel>". */
  function ParseAddressChannel(rest: string): Option<(nat, nat)>
  {
    var hex := DigitRun(rest, 16);
    var tail := rest[|hex|..];
    if hex == [] || |tail| < 8 || tail[..8] != ChannelTag then None
    else
      var dec := tail[8..];
      if dec == [] || DigitRun(dec, 10) != dec then None
      else Some((ParseDigits(hex, 16), ParseDigits(dec, 10)))
  }

  lemma AddressChannelRoundTrip(i2cAddress: nat, adsChannel: nat)
    ensures ParseAddressChannel(LowerHex(i2cAddress) + (ChannelTag + Decimal(adsChannel)))
      == Some((i2cAddress, adsChannel))
  {
    var hex := LowerHex(i2cAddress);
    var dec := Decimal(adsChannel);
    DigitRunStop(hex, ChannelTag + dec, 16);
    assert (hex + (ChannelTag + dec))[|hex|..] == ChannelTag + dec;
    assert (ChannelTag + dec)[..8] == ChannelTag;
    assert (ChannelTag + dec)[8..] == dec;
    DigitRunStop(dec, [], 10);
    assert dec + [] == dec;
    DigitsRoundTrip(i2cAddress, 16);
    DigitsRoundTrip(adsChannel, 10);
  }

  /** The location names the build, the address and the channel unambiguously. */
  lemma LocationRoundTrip(ads1015: bool, i2cAddress: nat, adsChannel: nat)
    ensures ParseLocation(SensorLocation(ads1015, i2cAddress, adsChannel)) == Some((ads1015, i2cAddress, adsChannel))
  {
    var prefix := if ads1015 then Ads1015Prefix else Ads1115Prefix;
    var rest := LowerHex(i2cAddress) + (ChannelTag + Decimal(adsChannel));
    assert SensorLocation(ads1015, i2cAddress, adsChannel) == prefix + rest;
    PrefixSplit(prefix, rest);
    AddressChannelRoundTrip(i2cAddress, adsChannel);
  }

  lemma PrefixSplit(prefix: string, rest: string)
    requires |prefix| == 10
    ensures (prefix + rest)[..10] == prefix && (prefix + rest)[10..] == rest
  {
  }

  /** Two sensors with the same location string sit on the same address and
      channel. */
  lemma LocationInjective(ads1015: bool, a1: nat, c1: nat, a2: nat, c2: nat)
    requires SensorLocation(ads1015, a1, c1) == SensorLocation(ads1015, a2, c2)
    ensures a1 == a2 && c1 == c2
  {
    LocationRoundTrip(ads1015, a1, c1);
    LocationRoundTrip(ads1015, a2, c2);
  }

  /** The converter's usable input range (volts), both ends excluded. */
  predicate InRange(v: real)
  {
    v < 3.6 && v > -0.3
  }

  /** One single-ended conversion: the converter object is created at the
      address, its gain set to one (+/- 4.096 V), and the channel read. */
  datatype AdcEvent = AdcRead(i2cAddress: nat, channel: nat)

  class ExternalVoltage {
    // Stored by the constructor.
    const adsChannel: Byte
    const gain: real
    const i2cAddress: Byte
    // Handed to the Sensor base class.
    const base: SensorParams
    const dataPin: int

    var sensorStatus: Status
    var millisMeasurementRequested: nat
    /** The values handed to the result slots, in order. */
    var handed: seq<Handed>
    /** The conversions asked of the converter, in order. */
    var adcLog: seq<AdcEvent>

    /** The status register and the request time stamp start as the Sensor
        base class leaves them, which this model does not fix. */
    constructor (powerPin: int, adsChannel: Byte, gain: real, i2cAddress: Byte, measurementsToAverage: Byte)
      ensures this.adsChannel == adsChannel && this.gain == gain && this.i2cAddress == i2cAddress
      ensures base == SensorParams(SensorName, NumVariables, WarmUpTimeMs, StabilizationTimeMs,
        MeasurementTimeMs, powerPin, measurementsToAverage)
      ensures dataPin == -1 && handed == [] && adcLog == []
    {
      base := SensorParams(SensorName, NumVariables, WarmUpTimeMs, StabilizationTimeMs,
        MeasurementTimeMs, powerPin, measurementsToAverage);
      dataPin := -1;
      this.adsChannel := adsChannel;
      this.gain := gain;
      this.i2cAddress := i2cAddress;
      handed := [];
      adcLog := [];
    }

    /** The constructor with its optional arguments left out: unit gain, the
        default address, one measurement to average. */
    constructor Default(powerPin: int, adsChannel: Byte)
      ensures this.adsChannel == adsChannel && gain == 1.0 && i2cAddress == Ads1115Address
      ensures base == SensorParams(SensorName, NumVariables, WarmUpTimeMs, StabilizationTimeMs,
        MeasurementTimeMs, powerPin, 1)
      ensures dataPin == -1 && handed == [] && adcLog == []
    {
      base := SensorParams(SensorName, NumVariables, WarmUpTimeMs, StabilizationTimeMs,
        MeasurementTimeMs, powerPin, 1);
      dataPin := -1;
      this.adsChannel := adsChannel;
      gain := 1.0;
      i2cAddress := Ads1115Address;
      handed := [];
      adcLog := [];
    }

    /** `getSensorLocation()`: the string reads back as this sensor's build,
        address and channel. */
    function GetSensorLocation(): (s: string)
      ensures ParseLocation(s) == Some((UseAds1015, i2cAddress as nat, adsChannel as nat))
      ensures s[..10] == Ads1115Prefix
    {
      LocationRoundTrip(UseAds1015, i2cAddress, adsChannel);
      SensorLocation(UseAds1015, i2cAddress, adsChannel)
    }

    /** Takes the reading `reading` from the converter when a measurement was
        started (status bit 6), scales it by the gain when it is in range, and
        hands the result (or the sentinel) to the voltage slot. */
    method AddSingleMeasurementResult(reading: real) returns (ok: bool)
      modifies this`sensorStatus, this`millisMeasurementRequested, this`handed, this`adcLog
      ensures ok == (Bit(old(sensorStatus), 6) && InRange(reading))
      ensures handed == old(handed)
        + [Handed(VarNum, if Bit(old(sensorStatus), 6) && InRange(reading) then reading * gain else Sentinel)]
      ensures adcLog == old(adcLog) + (if Bit(old(sensorStatus), 6) then [AdcRead(i2cAddress, adsChannel)] else [])
      ensures sensorStatus == ClearRequestBits(old(sensorStatus))
      ensures millisMeasurementRequested == 0
    {
      var adcVoltage := Sentinel;
      var calibResult := Sentinel;
      if Bit(sensorStatus, 6) {
        adcLog := adcLog + [AdcRead(i2cAddress, adsChannel)];
        adcVoltage := reading;
        if adcVoltage < 3.6 && adcVoltage > -0.3 {
          calibResult := adcVoltage * gain;
        } else {
          adcVoltage := Sentinel;
        }
      }
      handed := handed + [Handed(VarNum, calibResult)];
      millisMeasurementRequested := 0;
      sensorStatus := ClearRequestBits(sensorStatus);
      if adcVoltage < 3.6 && adcVoltage > -0.3 {
        ok := true;
      } else {
        ok := false;
      }
    }
  }
}
