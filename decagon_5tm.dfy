/** The Decagon (Meter) 5TM soil moisture probe on SDI-12: it reports the
    dielectric permittivity and the temperature; the volumetric water content
    is derived from the permittivity by Topp's polynomial. */
module Decagon5TMSensor {
  import opened SensorStatus

  // The constants the constructor hands to the SDI-12 sensor base class.
  const SensorName: string := "Decagon5TM"
  const NumVariables: nat := 3
  const WarmUpTimeMs: nat := 200
  const StabilizationTimeMs: nat := 0
  const MeasurementTimeMs: nat := 200

  // The result slots.
  const EaVarNum: nat := 0
  const TempVarNum: nat := 1
  const VwcVarNum: nat := 2

  /** The permittivity of a reading outside [0, 350] is no value. */
  function ClampEa(ea: real): real
  {
    if ea < 0.0 || ea > 350.0 then Sentinel else ea
  }

  /** The temperature of a reading outside [-50, 60] degrees C is no value. */
  function ClampTemp(temp: real): real
  {
    if temp < -50.0 || temp > 60.0 then Sentinel else temp
  }

  /** Topp's equation, in percent: 100 (4.3e-6 ea^3 - 5.5e-4 ea^2 + 2.92e-2 ea - 5.3e-2). */
  function Topp(ea: real): real
  {
    (0.0000043 * (ea * ea * ea) - 0.00055 * (ea * ea) + 0.0292 * ea - 0.053) * 100.0
  }

  /** The water content derived from a (clamped) permittivity. */
  function Vwc(ea: real): real
  {
    if ea != Sentinel then Topp(ea) else Sentinel
  }

  /** What the three slots receive: the clamped readings when a measurement
      had been started, the sentinel in every slot otherwise. */
  function Results(started: bool, eaParsed: real, tempParsed: real): seq<Handed>
  {
    var ea := if started then ClampEa(eaParsed) else Sentinel;
    var temp := if started then ClampTemp(tempParsed) else Sentinel;
    [Handed(EaVarNum, ea), Handed(TempVarNum, temp), Handed(VwcVarNum, Vwc(ea))]
  }

  /** On the accepted permittivities the water content lies between
      -5.3 % (dry, ea = 0) and 12715.45 % (ea = 350). */
  lemma ToppRange(ea: real)
    requires 0.0 <= ea <= 350.0
    ensures -5.3 <= Topp(ea) <= 12715.45
  {
    // ea (4.3e-6 ea^2 - 5.5e-4 ea + 2.92e-2) >= 0: the quadratic has no real root.
    var c := 2750.0 / 43.0;
    var q := 0.0000043 * (ea * ea) - 0.00055 * ea + 0.0292;
    assert q == 0.0000043 * ((ea - c) * (ea - c)) + (0.0292 - 0.0000043 * (c * c));
    assert (ea - c) * (ea - c) >= 0.0;
    assert q > 0.0;
    assert Topp(ea) + 5.3 == 100.0 * (ea * q);
    assert ea * q >= 0.0;
    // Topp(350) - Topp(ea) = (350 - ea) r(ea) with r positive on ea >= 0.
    var r := 0.0000043 * (ea * ea) + 0.000955 * ea + 0.36345;
    assert 12715.45 - Topp(ea) == 100.0 * ((350.0 - ea) * r);
    assert (350.0 - ea) * r >= 0.0;
  }

  /** The water content is no value exactly when the permittivity is none: the
      polynomial never produces the sentinel. */
  lemma VwcSentinelIff(started: bool, eaParsed: real, tempParsed: real)
    ensures var r := Results(started, eaParsed, tempParsed);
      (r[2].value == Sentinel <==> r[0].value == Sentinel)
  {
    var ea := if started then ClampEa(eaParsed) else Sentinel;
    if ea != Sentinel {
      ToppRange(ea);
    }
  }

  /** With no measurement started, every slot receives the sentinel. */
  lemma NotStartedAllSentinel(eaParsed: real, tempParsed: real)
    ensures forall i :: 0 <= i < |Results(false, eaParsed, tempParsed)| ==>
      Results(false, eaParsed, tempParsed)[i].value == Sentinel
  {
  }

  /** A value a slot receives is the sentinel or within the accepted range;
      the water content lies within Topp's range. */
  lemma ResultsInRange(started: bool, eaParsed: real, tempParsed: real)
    ensures var r := Results(started, eaParsed, tempParsed);
      && [r[0].slot, r[1].slot, r[2].slot] == [EaVarNum, TempVarNum, VwcVarNum]
      && (r[0].value == Sentinel || 0.0 <= r[0].value <= 350.0)
      && (r[1].value == Sentinel || -50.0 <= r[1].value <= 60.0)
      && (r[2].value == Sentinel || -5.3 <= r[2].value <= 12715.45)
      && (started && 0.0 <= eaParsed <= 350.0 ==> r[0].value == eaParsed && r[2].value == Topp(eaParsed))
  {
    var ea := if started then ClampEa(eaParsed) else Sentinel;
    if ea != Sentinel {
      ToppRange(ea);
    }
  }

  /** What the driver does on the SDI-12 bus. */
  datatype SdiEvent =
    | Begin              // the SDI-12 object activated, its timer set
    | ClearBuffer
    | SendCommand(cmd: string)
    | Delay(ms: nat)
    | ReadChar           // the echoed address, ignored
    | ParseFloat         // one number read from the reply
    | End                // the SDI-12 object deactivated

  class Decagon5TM {
    const sdi12Address: char
    const dataPin: int
    /** What the constructor hands to the SDI-12 sensor base class, whose
        constructor is not part of this model. */
    const base: SensorParams
    var sensorStatus: Status
    var millisMeasurementRequested: nat
    /** The values handed to the result slots, in order. */
    var handed: seq<Handed>
    var sdiLog: seq<SdiEvent>

    /** The overload taking the address as a character. */
    constructor (sdi12Address: char, powerPin: int, dataPin: int, measurementsToAverage: nat)
      ensures this.sdi12Address == sdi12Address && this.dataPin == dataPin
      ensures base == SensorParams(SensorName, NumVariables, WarmUpTimeMs, StabilizationTimeMs,
        MeasurementTimeMs, powerPin, measurementsToAverage)
      ensures handed == [] && sdiLog == []
    {
      this.sdi12Address := sdi12Address;
      this.dataPin := dataPin;
      base := SensorParams(SensorName, NumVariables, WarmUpTimeMs, StabilizationTimeMs,
        MeasurementTimeMs, powerPin, measurementsToAverage);
      handed := [];
      sdiLog := [];
    }

    /** The same with the optional measurement count left out (one). */
    constructor Default(sdi12Address: char, powerPin: int, dataPin: int)
      ensures this.sdi12Address == sdi12Address && this.dataPin == dataPin
      ensures base == SensorParams(SensorName, NumVariables, WarmUpTimeMs, StabilizationTimeMs,
        MeasurementTimeMs, powerPin, 1)
      ensures handed == [] && sdiLog == []
    {
      this.sdi12Address := sdi12Address;
      this.dataPin := dataPin;
      base := SensorParams(SensorName, NumVariables, WarmUpTimeMs, StabilizationTimeMs,
        MeasurementTimeMs, powerPin, 1);
      handed := [];
      sdiLog := [];
    }

    /** The "send data" command, [address]D0!. */
    function DataCommand(): (cmd: string)
      reads this
      ensures |cmd| == 4 && cmd[0] == sdi12Address && cmd[1..] == "D0!"
    {
      [sdi12Address] + "D0!"
    }

    /** The SDI-12 exchange of a started measurement: asks for the data and
        parses the permittivity `eaParsed` and the temperature `tempParsed`
        from the reply (`wasActive`: this SDI-12 object was the active one),
        then clamps them and derives the water content. */
    method ReadData(wasActive: bool, eaParsed: real, tempParsed: real) returns (ea: real, temp: real, vwc: real)
      modifies this`sdiLog
      ensures ea == ClampEa(eaParsed) && temp == ClampTemp(tempParsed) && vwc == Vwc(ea)
      ensures sdiLog == old(sdiLog) + (if wasActive then [] else [Begin])
        + [ClearBuffer, SendCommand(DataCommand()), Delay(30), ReadChar, ParseFloat, ParseFloat, ClearBuffer, End]
    {
      vwc := Sentinel;
      if !wasActive {
        sdiLog := sdiLog + [Begin];
      }
      sdiLog := sdiLog + [ClearBuffer];
      var getDataCommand := [sdi12Address] + "D0!";
      sdiLog := sdiLog + [SendCommand(getDataCommand), Delay(30)];
      sdiLog := sdiLog + [ReadChar];
      ea := eaParsed;
      sdiLog := sdiLog + [ParseFloat];
      if ea < 0.0 || ea > 350.0 {
        ea := Sentinel;
      }
      temp := tempParsed;
      sdiLog := sdiLog + [ParseFloat];
      if temp < -50.0 || temp > 60.0 {
        temp := Sentinel;
      }
      if ea != Sentinel {
        vwc := (0.0000043 * (ea * ea * ea)) - (0.00055 * (ea * ea)) + (0.0292 * ea) - 0.053;
        vwc := vwc * 100.0;
      }
      sdiLog := sdiLog + [ClearBuffer, End];
    }

    /** When a measurement was started (status bit 6), reads it; hands
        permittivity, temperature and water content to their slots (the
        sentinel in each when nothing was read) and clears the request bits. */
    method AddSingleMeasurementResult(wasActive: bool, eaParsed: real, tempParsed: real) returns (success: bool)
      modifies this`sensorStatus, this`millisMeasurementRequested, this`handed, this`sdiLog
      ensures success == Bit(old(sensorStatus), 6)
      ensures handed == old(handed) + Results(Bit(old(sensorStatus), 6), eaParsed, tempParsed)
      ensures sdiLog == old(sdiLog) + (if Bit(old(sensorStatus), 6) then
          (if wasActive then [] else [Begin])
          + [ClearBuffer, SendCommand(DataCommand()), Delay(30), ReadChar, ParseFloat, ParseFloat, ClearBuffer, End]
        else [])
      ensures sensorStatus == ClearRequestBits(old(sensorStatus))
      ensures millisMeasurementRequested == 0
    {
      success := false;
      var ea := Sentinel;
      var temp := Sentinel;
      var vwc := Sentinel;
      if Bit(sensorStatus, 6) {
        ea, temp, vwc := ReadData(wasActive, eaParsed, tempParsed);
        success := true;
      }
      handed := handed + [Handed(EaVarNum, ea)];
      handed := handed + [Handed(TempVarNum, temp)];
      handed := handed + [Handed(VwcVarNum, vwc)];
      millisMeasurementRequested := 0;
      sensorStatus := ClearRequestBits(sensorStatus);
    }
  }
}
