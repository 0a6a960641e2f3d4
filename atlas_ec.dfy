/** The set-up of the Atlas Scientific EZO conductivity circuit on I2C: four
    commands switch on its four outputs (conductivity, total dissolved solids,
    salinity, specific gravity). */
module AtlasEC {
  import opened SensorStatus

  // The constants the constructor hands to the AtlasParent base class.
  const SensorName: string := "AtlasScientificEC"
  const NumVariables: nat := 4
  const WarmUpTimeMs: nat := 745
  const StabilizationTimeMs: nat := 0
  const MeasurementTimeMs: nat := 600
  /** The circuit's factory I2C address. */
  const DefaultI2cAddress: nat := 0x64

  /** The output-enable commands, in the order they are sent, with the byte
      count handed to `Wire.write`. */
  const EnableCommands: seq<(string, nat)> := [("O,EC,1", 6), ("O,TDS,1", 7), ("O,S,1", 5), ("O,SG,1", 6)]

  /** What the bus and the circuit answer to one command: the count
      `Wire.write` returns, the code `Wire.endTransmission` returns (0 is
      success), and the result of `waitForProcessing`. */
  datatype Reply = Reply(written: nat, endCode: nat, processed: bool)

  /** How Sensor::setup (not part of this model) ended: its result and the
      status it left. */
  datatype BaseSetup = BaseSetup(ok: bool, status: Status)

  /** What the driver does, in order. */
  datatype BusEvent =
    | PowerUp
    | WaitForWarmUp
    | BeginTransmission(address: nat)
    | Write(text: string, count: nat)
    | EndTransmission
    | WaitForProcessing
    | PowerDown

  /** `flag &= value` with a bool flag and an integer value: the flag, promoted
      to 0 or 1, is and-ed bitwise with the value, so it survives exactly when
      the value is odd. */
  function AndAssign(flag: bool, value: nat): bool
  {
    flag && value % 2 == 1
  }

  /** AndAssign is C's bitwise and. `Wire.write` returns a `size_t`, but it
      never returns more than the count asked of it, at most 7 here, so eight
      bits hold every value it can take. */
  lemma AndAssignIsBitwise(flag: bool, value: bv8)
    ensures AndAssign(flag, value as nat) == ((if flag then 1 else 0) as bv8 & value != 0)
  {
    assert value & 1 == value % 2;
  }

  /** What one command leaves of the flag, as written: `&= Wire.write(...)`,
      `&= !Wire.endTransmission()`, `&= waitForProcessing()`. */
  function Step(flag: bool, r: Reply): bool
  {
    AndAssign(flag, r.written) && r.endCode == 0 && r.processed
  }

  /** The result of the set-up as written. */
  function SetupResult(base: BaseSetup, ec: Reply, tds: Reply, s: Reply, sg: Reply): bool
  {
    Step(Step(Step(Step(base.ok, ec), tds), s), sg)
  }

  /** The set-up succeeds exactly when Sensor::setup did and every command
      was written with an odd count, ended with code 0 and was processed. */
  lemma SetupResultMeaning(base: BaseSetup, ec: Reply, tds: Reply, s: Reply, sg: Reply)
    ensures SetupResult(base, ec, tds, s, sg) <==>
      base.ok && forall r :: r in [ec, tds, s, sg] ==> r.written % 2 == 1 && r.endCode == 0 && r.processed
  {
    var rs := [ec, tds, s, sg];
    assert rs[0] == ec && rs[1] == tds && rs[2] == s && rs[3] == sg;
  }

  /** The reply of a perfect bus: every byte written, the transmission ended
      with code 0, the command processed. */
  function Perfect(len: nat): Reply
  {
    Reply(len, 0, true)
  }

  /** As written, the set-up fails on a perfect bus: "O,EC,1" is 6 bytes, and
      6 & 1 == 0. */
  lemma PerfectBusFails(base: BaseSetup)
    ensures !SetupResult(base, Perfect(6), Perfect(7), Perfect(5), Perfect(6))
  {
  }

  /** What one command evidently should leave of the flag: every byte
      written, code 0, processed. */
  function IntendedStep(flag: bool, r: Reply, len: nat): bool
  {
    flag && r.written == len && r.endCode == 0 && r.processed
  }

  function IntendedSetupResult(base: BaseSetup, ec: Reply, tds: Reply, s: Reply, sg: Reply): bool
  {
    IntendedStep(IntendedStep(IntendedStep(IntendedStep(base.ok, ec, 6), tds, 7), s, 5), sg, 6)
  }

  /** The intended set-up succeeds exactly when Sensor::setup did and every
      command went out whole, ended with code 0 and was processed; on a
      perfect bus it therefore succeeds. */
  lemma IntendedSetupMeaning(base: BaseSetup, ec: Reply, tds: Reply, s: Reply, sg: Reply)
    ensures IntendedSetupResult(base, ec, tds, s, sg) <==>
      base.ok && forall k :: 0 <= k < 4 ==>
        [ec, tds, s, sg][k].written == EnableCommands[k].1
        && [ec, tds, s, sg][k].endCode == 0 && [ec, tds, s, sg][k].processed
    ensures IntendedSetupResult(base, Perfect(6), Perfect(7), Perfect(5), Perfect(6)) == base.ok
  {
    var rs := [ec, tds, s, sg];
    if base.ok && forall k :: 0 <= k < 4 ==> rs[k].written == EnableCommands[k].1 && rs[k].endCode == 0 && rs[k].processed {
      assert rs[0] == ec && rs[1] == tds && rs[2] == s && rs[3] == sg;
    }
    if IntendedSetupResult(base, ec, tds, s, sg) {
      forall k | 0 <= k < 4
        ensures rs[k].written == EnableCommands[k].1 && rs[k].endCode == 0 && rs[k].processed
      {
        assert k == 0 || k == 1 || k == 2 || k == 3;
      }
    }
  }

  /** What the Sensor base class's `powerUp`, `waitForWarmUp` and `powerDown`
      (not part of this model) do to the status register. */
  datatype PowerHooks = PowerHooks(up: Status -> Status, warmUp: Status -> Status, down: Status -> Status)

  /** The status `setup()` leaves: Sensor::setup's, through powerUp when the
      sensor was off, through the warm-up wait, marked failed when the
      set-up failed, and through powerDown when the sensor had been off. */
  function SetupStatus(base: BaseSetup, wasOn: bool, success: bool, hooks: PowerHooks): Status
  {
    var powered := if wasOn then base.status else hooks.up(base.status);
    var warm := hooks.warmUp(powered);
    var marked := if success then warm else MarkSetupFailed(warm);
    if wasOn then marked else hooks.down(marked)
  }

  /** When the power hooks leave the status alone, `setup()` changes it only
      on failure: bit 7 set and bit 0 cleared, bits 1 to 6 kept. */
  lemma SetupStatusOwnBits(base: BaseSetup, wasOn: bool, success: bool, hooks: PowerHooks)
    requires forall x: Status :: hooks.up(x) == x && hooks.warmUp(x) == x && hooks.down(x) == x
    ensures success ==> SetupStatus(base, wasOn, success, hooks) == base.status
    ensures !success ==> var r := SetupStatus(base, wasOn, success, hooks);
      Bit(r, 7) && !Bit(r, 0) && forall i :: 1 <= i < 7 ==> Bit(r, i) == Bit(base.status, i)
  {
    var powered := if wasOn then base.status else hooks.up(base.status);
    assert hooks.warmUp(powered) == base.status;
    if !success {
      assert wasOn || hooks.down(MarkSetupFailed(base.status)) == MarkSetupFailed(base.status);
    }
  }

  /** The four commands' bus traffic. */
  function Commands(address: nat): seq<BusEvent>
  {
    [BeginTransmission(address), Write("O,EC,1", 6), EndTransmission, WaitForProcessing,
     BeginTransmission(address), Write("O,TDS,1", 7), EndTransmission, WaitForProcessing,
     BeginTransmission(address), Write("O,S,1", 5), EndTransmission, WaitForProcessing,
     BeginTransmission(address), Write("O,SG,1", 6), EndTransmission, WaitForProcessing]
  }

  /** Every command goes out, in the fixed order, whatever the earlier ones
      answered. */
  lemma CommandsInOrder(address: nat)
    ensures |Commands(address)| == 4 * |EnableCommands|
    ensures forall k :: 0 <= k < |EnableCommands| ==>
      Commands(address)[4 * k] == BeginTransmission(address)
      && Commands(address)[4 * k + 1] == Write(EnableCommands[k].0, EnableCommands[k].1)
      && Commands(address)[4 * k + 2] == EndTransmission
      && Commands(address)[4 * k + 3] == WaitForProcessing
    ensures forall k :: 0 <= k < |EnableCommands| ==> |EnableCommands[k].0| == EnableCommands[k].1
  {
    forall k | 0 <= k < |EnableCommands|
      ensures Commands(address)[4 * k + 1] == Write(EnableCommands[k].0, EnableCommands[k].1)
    {
      assert k == 0 || k == 1 || k == 2 || k == 3;
    }
  }

  class AtlasScientificEC {
    const i2cAddress: nat
    /** What the constructor hands to the AtlasParent base class, whose
        constructor is not part of this model. */
    const base: SensorParams
    var sensorStatus: Status
    var busLog: seq<BusEvent>

    constructor (powerPin: int, i2cAddress: Byte, measurementsToAverage: Byte)
      ensures this.i2cAddress == i2cAddress && busLog == []
      ensures base == SensorParams(SensorName, NumVariables, WarmUpTimeMs, StabilizationTimeMs,
        MeasurementTimeMs, powerPin, measurementsToAverage)
    {
      this.i2cAddress := i2cAddress;
      base := SensorParams(SensorName, NumVariables, WarmUpTimeMs, StabilizationTimeMs,
        MeasurementTimeMs, powerPin, measurementsToAverage);
      busLog := [];
    }

    /** The constructor with its optional arguments left out: the factory
        address and one measurement to average. */
    constructor Default(powerPin: int)
      ensures i2cAddress == DefaultI2cAddress && busLog == []
      ensures base == SensorParams(SensorName, NumVariables, WarmUpTimeMs, StabilizationTimeMs,
        MeasurementTimeMs, powerPin, 1)
    {
      i2cAddress := DefaultI2cAddress;
      base := SensorParams(SensorName, NumVariables, WarmUpTimeMs, StabilizationTimeMs,
        MeasurementTimeMs, powerPin, 1);
      busLog := [];
    }

    /** One output-enable command and what it leaves of the flag. */
    method Enable(cmd: string, count: nat, r: Reply, success: bool) returns (success': bool)
      modifies this`busLog
      ensures busLog == old(busLog) + [BeginTransmission(i2cAddress), Write(cmd, count), EndTransmission, WaitForProcessing]
      ensures success' == Step(success, r)
    {
      busLog := busLog + [BeginTransmission(i2cAddress)];
      success' := success && r.written % 2 == 1;
      busLog := busLog + [Write(cmd, count)];
      success' := success' && r.endCode == 0;
      busLog := busLog + [EndTransmission];
      success' := success' && r.processed;
      busLog := busLog + [WaitForProcessing];
    }

    /** The four output-enable commands, each sent whatever the earlier ones
        answered. */
    method EnableOutputs(success: bool, ec: Reply, tds: Reply, s: Reply, sg: Reply) returns (success': bool)
      modifies this`busLog
      ensures busLog == old(busLog) + Commands(i2cAddress)
      ensures success' == Step(Step(Step(Step(success, ec), tds), s), sg)
    {
      success' := Enable("O,EC,1", 6, ec, success);
      success' := Enable("O,TDS,1", 7, tds, success');
      success' := Enable("O,S,1", 5, s, success');
      success' := Enable("O,SG,1", 6, sg, success');
    }

    /** `setup()`: Sensor::setup, power on if the sensor was off (`wasOn` is
        what checkPowerOn reports), the four commands, the error bits when the
        set-up failed, and power off again if it had been off. */
    method Setup(base: BaseSetup, wasOn: bool, hooks: PowerHooks, ec: Reply, tds: Reply, s: Reply, sg: Reply)
      returns (success: bool)
      modifies this`sensorStatus, this`busLog
      ensures success == SetupResult(base, ec, tds, s, sg)
      ensures sensorStatus == SetupStatus(base, wasOn, success, hooks)
      ensures busLog == old(busLog) + (if wasOn then [] else [PowerUp]) + [WaitForWarmUp]
        + Commands(i2cAddress) + (if wasOn then [] else [PowerDown])
    {
      sensorStatus := base.status;
      success := base.ok;
      if !wasOn {
        busLog := busLog + [PowerUp];
        sensorStatus := hooks.up(sensorStatus);
      }
      busLog := busLog + [WaitForWarmUp];
      sensorStatus := hooks.warmUp(sensorStatus);
      success := EnableOutputs(success, ec, tds, s, sg);
      if !success {
        // The error bit 7 set, the set-up bit 0 cleared.
        sensorStatus := MarkSetupFailed(sensorStatus);
      }
      if !wasOn {
        busLog := busLog + [PowerDown];
        sensorStatus := hooks.down(sensorStatus);
      }
    }
  }
}
