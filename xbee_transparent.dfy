/** The Digi XBee cellular module driven in transparent mode: its provisioning
    script, the airplane-mode wake and sleep routines, and the metadata poll. */
module CellularTransparent {
  import opened XBeeLink

  /** The checked configuration commands, in the groups the script announces. */
  // Sleep request, status, CTS, association LED and RSSI PWM pin functions.
  const IoPins: seq<(string, Arg)> := [("D8", Num(1)), ("D9", Num(1)), ("D7", Num(1)), ("D5", Num(1)), ("P0", Num(1))]
  // Pin sleep, and disassociate from the network while asleep.
  const SleepOptions: seq<(string, Arg)> := [("SM", Num(1)), ("SO", Num(0))]
  // Remote manager off, packetise on new line, USB direct off, socket time-out.
  const OtherOptions: seq<(string, Arg)> := [("DO", Num(0)), ("TD0A", NoArg), ("P1", Num(0)), ("TM", Num(64))]

  /** The eleven checked commands, in the order they are sent. */
  const TransparentScript: seq<(string, Arg)> := IoPins + SleepOptions + OtherOptions

  /** The command that makes sure the module stays in transparent mode. */
  const TransparentMode: (string, Arg) := ("AP0", NoArg)

  /** The wait after each poll that found no signal. */
  const PollPauseMs: nat := 250

  /** The "no value" sentinel of the modem's metadata fields. */
  const Unset: int := -9999

  /** The level of the sleep-request pin that wakes every Digi XBee
      (`XBEE_WAKE_LEVEL`, LOW); false stands for LOW. */
  const XBeeWakeLevel: bool := false

  function IoPinsLog(p: seq<Event>): seq<Event>
  {
    p + Exchange("D8", Num(1)) + Exchange("D9", Num(1)) + Exchange("D7", Num(1))
    + Exchange("D5", Num(1)) + Exchange("P0", Num(1))
  }

  function SleepOptionsLog(p: seq<Event>): seq<Event>
  {
    p + Exchange("SM", Num(1)) + Exchange("SO", Num(0))
  }

  function OtherOptionsLog(p: seq<Event>): seq<Event>
  {
    p + Exchange("DO", Num(0)) + Exchange("TD0A", NoArg) + Exchange("P1", Num(0)) + Exchange("TM", Num(64))
  }

  lemma IoPinsRun(p: seq<Event>)
    ensures IoPinsLog(p) == Run(p, IoPins)
  {
  }

  lemma SleepOptionsRun(p: seq<Event>)
    ensures SleepOptionsLog(p) == Run(p, SleepOptions)
  {
  }

  lemma OtherOptionsRun(p: seq<Event>)
    ensures OtherOptionsLog(p) == Run(p, OtherOptions)
  {
  }

  /** The log before command mode is entered: init(), the client bound to the
      modem, the name query and the command-mode request. */
  function PreambleLog(p: seq<Event>): seq<Event>
  {
    p + [Init] + [ClientInit] + [NameQuery] + [CommandMode]
  }

  /** The log after extraModemSetup, starting from log p, when the transactions
      from number c on are answered as in a: c is init(), c+1 command mode. */
  function SetupLog(p: seq<Event>, a: seq<bool>, apn: string, c: nat): seq<Event>
  {
    if Answer(a, c + 1) then
      OtherOptionsLog(SleepOptionsLog(IoPinsLog(PreambleLog(p))))
      + [GprsConnect(apn)] + Exchange(TransparentMode.0, TransparentMode.1)
      + [WriteChanges] + [ExitCommand] + [Restart]
    else
      PreambleLog(p)
  }

  /** How many answers extraModemSetup consumes. */
  function SetupConsumed(a: seq<bool>, c: nat): nat
  {
    if Answer(a, c + 1) then 18 else 2
  }

  /** extraModemSetup's result: init() (c), command mode (c+1), the eleven
      checked replies (c+2 .. c+12), gprsConnect (c+13), the AP0 reply (c+14)
      and restart() (c+17); writeChanges (c+15) and exitCommand (c+16) are not
      checked. */
  function SetupResult(a: seq<bool>, c: nat): bool
  {
    Answer(a, c + 1) && Answer(a, c) && Answer(a, c + 2) && Answer(a, c + 3) && Answer(a, c + 4)
    && Answer(a, c + 5) && Answer(a, c + 6) && Answer(a, c + 7) && Answer(a, c + 8) && Answer(a, c + 9)
    && Answer(a, c + 10) && Answer(a, c + 11) && Answer(a, c + 12) && Answer(a, c + 13) && Answer(a, c + 14)
    && Answer(a, c + 17)
  }

  /** The result in words: init, command mode, all eleven checked commands, the
      APN, the AP0 reply and the restart succeeded. */
  lemma SetupResultMeaning(a: seq<bool>, c: nat)
    ensures SetupResult(a, c) <==>
      Answer(a, c) && Answer(a, c + 1) && AllAnswered(a, c + 2, |TransparentScript|)
      && Answer(a, c + 13) && Answer(a, c + 14) && Answer(a, c + 17)
  {
    assert |TransparentScript| == 11;
    if Answer(a, c + 1) && AllAnswered(a, c + 2, 11) {
      assert Answer(a, c + 2) && Answer(a, c + 3) && Answer(a, c + 4) && Answer(a, c + 5) && Answer(a, c + 6);
      assert Answer(a, c + 7) && Answer(a, c + 8) && Answer(a, c + 9) && Answer(a, c + 10) && Answer(a, c + 11);
      assert Answer(a, c + 12);
    }
    if SetupResult(a, c) {
      forall i | c + 2 <= i < c + 13
        ensures Answer(a, i)
      {
        assert i - c in {2, 3, 4, 5, 6, 7, 8, 9, 10, 11, 12};
      }
    }
  }

  /** The replies to writeChanges and exitCommand change neither the result nor the log. */
  lemma UncheckedReplies(a: seq<bool>, b: seq<bool>, p: seq<Event>, apn: string, c: nat)
    requires forall i :: c <= i < c + 18 && i != c + 15 && i != c + 16 ==> Answer(a, i) == Answer(b, i)
    ensures SetupResult(a, c) == SetupResult(b, c)
    ensures SetupLog(p, a, apn, c) == SetupLog(p, b, apn, c)
    ensures SetupConsumed(a, c) == SetupConsumed(b, c)
  {
    assert Answer(a, c) == Answer(b, c) && Answer(a, c + 1) == Answer(b, c + 1);
    assert Answer(a, c + 2) == Answer(b, c + 2) && Answer(a, c + 3) == Answer(b, c + 3);
    assert Answer(a, c + 4) == Answer(b, c + 4) && Answer(a, c + 5) == Answer(b, c + 5);
    assert Answer(a, c + 6) == Answer(b, c + 6) && Answer(a, c + 7) == Answer(b, c + 7);
    assert Answer(a, c + 8) == Answer(b, c + 8) && Answer(a, c + 9) == Answer(b, c + 9);
    assert Answer(a, c + 10) == Answer(b, c + 10) && Answer(a, c + 11) == Answer(b, c + 11);
    assert Answer(a, c + 12) == Answer(b, c + 12) && Answer(a, c + 13) == Answer(b, c + 13);
    assert Answer(a, c + 14) == Answer(b, c + 14) && Answer(a, c + 17) == Answer(b, c + 17);
  }

  /** Refused command mode: false, and no configuration command is sent, though
      init(), the client binding and the name query have already happened. */
  lemma CommandModeRefused(p: seq<Event>, a: seq<bool>, apn: string, c: nat)
    requires !Answer(a, c + 1)
    ensures !SetupResult(a, c) && SetupConsumed(a, c) == 2
    ensures SetupLog(p, a, apn, c) == p + [Init, ClientInit, NameQuery, CommandMode]
    ensures Sent(SetupLog(p, a, apn, c)) == Sent(p)
  {
    SentQuiet(p + [Init] + [ClientInit] + [NameQuery], CommandMode);
    SentQuiet(p + [Init] + [ClientInit], NameQuery);
    SentQuiet(p + [Init], ClientInit);
    SentQuiet(p, Init);
  }

  /** In command mode the log is the preamble, a run of the eleven checked
      commands whatever their replies, the APN, AP0 with its reply, the write,
      the exit and the restart. */
  lemma SetupLogRunsScript(p: seq<Event>, a: seq<bool>, apn: string, c: nat)
    requires Answer(a, c + 1)
    ensures SetupLog(p, a, apn, c) ==
      Run(Run(PreambleLog(p), TransparentScript) + [GprsConnect(apn)], [TransparentMode])
      + [WriteChanges] + [ExitCommand] + [Restart]
  {
    var p1 := PreambleLog(p);
    IoPinsRun(p1);
    SleepOptionsRun(Run(p1, IoPins));
    RunAppend(p1, IoPins, SleepOptions);
    OtherOptionsRun(Run(p1, IoPins + SleepOptions));
    RunAppend(p1, IoPins + SleepOptions, OtherOptions);
    assert ScriptLog([TransparentMode]) == Exchange(TransparentMode.0, TransparentMode.1);
  }

  /** In command mode exactly the eleven commands and then AP0 are sent, in that
      order, even when init() failed. */
  lemma ScriptSent(p: seq<Event>, a: seq<bool>, apn: string, c: nat)
    requires Answer(a, c + 1)
    ensures Sent(SetupLog(p, a, apn, c)) == Sent(p) + TransparentScript + [TransparentMode]
    ensures !Answer(a, c) ==> !SetupResult(a, c)
  {
    SetupLogRunsScript(p, a, apn, c);
    var r := Run(PreambleLog(p), TransparentScript);
    var q := Run(r + [GprsConnect(apn)], [TransparentMode]);
    SentQuiet(q + [WriteChanges] + [ExitCommand], Restart);
    SentQuiet(q + [WriteChanges], ExitCommand);
    SentQuiet(q, WriteChanges);
    SentRun(r + [GprsConnect(apn)], [TransparentMode]);
    SentQuiet(r, GprsConnect(apn));
    SentRun(PreambleLog(p), TransparentScript);
    CommandModeRefusedLog(p);
  }

  /** What the preamble sends: nothing. */
  lemma CommandModeRefusedLog(p: seq<Event>)
    ensures Sent(PreambleLog(p)) == Sent(p)
  {
    SentQuiet(p + [Init] + [ClientInit] + [NameQuery], CommandMode);
    SentQuiet(p + [Init] + [ClientInit], NameQuery);
    SentQuiet(p + [Init], ClientInit);
    SentQuiet(p, Init);
  }

  /** The log of modemWakeFxn: the pin is driven to the wake level first, then
      airplane mode is switched off if command mode is granted. Nothing at all
      happens without a sleep-request pin. */
  function WakeLog(p: seq<Event>, pin: int, wakeLevel: bool, a: seq<bool>, c: nat): seq<Event>
  {
    if pin < 0 then p
    else if Answer(a, c) then
      p + [PinWrite(pin, wakeLevel)] + [CommandMode] + Exchange("AM", Num(0)) + [WriteChanges] + [ExitCommand]
    else
      p + [PinWrite(pin, wakeLevel)] + [CommandMode]
  }

  /** The log of modemSleepFxn: airplane mode on if command mode is granted,
      then the pin is driven to the other level. */
  function SleepLog(p: seq<Event>, pin: int, wakeLevel: bool, a: seq<bool>, c: nat): seq<Event>
  {
    if pin < 0 then p
    else if Answer(a, c) then
      p + [CommandMode] + Exchange("AM", Num(0)) + [WriteChanges] + [ExitCommand] + [PinWrite(pin, !wakeLevel)]
    else
      p + [CommandMode] + [PinWrite(pin, !wakeLevel)]
  }

  /** Answers consumed by wake or sleep. */
  function AirplaneConsumed(pin: int, a: seq<bool>, c: nat): nat
  {
    if pin < 0 then 0 else if Answer(a, c) then 4 else 1
  }

  /** Wake writes the pin before anything else and sleep writes it after
      everything else, to complementary levels; both send AM 0 exactly when
      command mode is granted, and nothing when there is no pin. */
  lemma WakeSleepPins(p: seq<Event>, pin: int, wakeLevel: bool, a: seq<bool>, c: nat)
    ensures pin < 0 ==> WakeLog(p, pin, wakeLevel, a, c) == p && SleepLog(p, pin, wakeLevel, a, c) == p
    ensures pin >= 0 ==>
              |WakeLog(p, pin, wakeLevel, a, c)| > |p| && WakeLog(p, pin, wakeLevel, a, c)[|p|] == PinWrite(pin, wakeLevel)
    ensures pin >= 0 ==>
              |SleepLog(p, pin, wakeLevel, a, c)| > |p|
              && SleepLog(p, pin, wakeLevel, a, c)[|SleepLog(p, pin, wakeLevel, a, c)| - 1] == PinWrite(pin, !wakeLevel)
    ensures Sent(WakeLog(p, pin, wakeLevel, a, c)) == Sent(SleepLog(p, pin, wakeLevel, a, c))
      == Sent(p) + (if pin >= 0 && Answer(a, c) then [("AM", Num(0))] else [])
  {
    if pin >= 0 {
      var w := p + [PinWrite(pin, wakeLevel)] + [CommandMode];
      var s := p + [CommandMode];
      SentQuiet(p + [PinWrite(pin, wakeLevel)], CommandMode);
      SentQuiet(p, PinWrite(pin, wakeLevel));
      SentQuiet(p, CommandMode);
      if Answer(a, c) {
        AirplaneOffSent(w);
        AirplaneOffSent(s);
        SentQuiet(s + Exchange("AM", Num(0)) + [WriteChanges] + [ExitCommand], PinWrite(pin, !wakeLevel));
      } else {
        SentQuiet(s, PinWrite(pin, !wakeLevel));
      }
    }
  }

  /** Switching airplane mode sends AM 0 and nothing else. */
  lemma AirplaneOffSent(x: seq<Event>)
    ensures Sent(x + Exchange("AM", Num(0)) + [WriteChanges] + [ExitCommand]) == Sent(x) + [("AM", Num(0))]
  {
    SentQuiet(x + Exchange("AM", Num(0)) + [WriteChanges], ExitCommand);
    SentQuiet(x + Exchange("AM", Num(0)), WriteChanges);
    assert Exchange("AM", Num(0)) == ScriptLog([("AM", Num(0))]);
    SentRun(x, [("AM", Num(0))]);
  }

  /** A signal reading the poll accepts: TinyGSM's "no signal" (0) and the
      sentinel are rejected. */
  predicate GoodSignal(q: int)
  {
    q != 0 && q != Unset
  }

  /** How many readings the poll takes when readings from number rc on are
      pending and k polls have been taken: it goes on after a poll that found
      no signal only while the 15 s window, which lets it go on after at most
      `window` polls, is open and `going` (the caller's success flag) holds. */
  function PollsFrom(r: seq<int>, rc: nat, window: nat, going: bool, k: nat): (n: nat)
    requires k < window + 1
    ensures k < n <= window + 1
    decreases window - k
  {
    if GoodSignal(Reading(r, rc + k)) || k == window || !going then k + 1
    else PollsFrom(r, rc, window, going, k + 1)
  }

  /** How many readings the poll takes in all. */
  function Polls(r: seq<int>, rc: nat, window: nat, going: bool): (n: nat)
    ensures 1 <= n <= window + 1
  {
    PollsFrom(r, rc, window, going, 0)
  }

  /** The poll stops at the first good reading; before it, only at the end of
      the window (or when the flag is down). */
  lemma {:induction false} PollsFromBounds(r: seq<int>, rc: nat, window: nat, going: bool, k: nat)
    requires k < window + 1
    ensures forall i :: rc + k <= i < rc + PollsFrom(r, rc, window, going, k) - 1 ==> !GoodSignal(Reading(r, i))
    ensures GoodSignal(Reading(r, rc + PollsFrom(r, rc, window, going, k) - 1))
      || PollsFrom(r, rc, window, going, k) == window + 1 || !going
    decreases window - k
  {
    if !(GoodSignal(Reading(r, rc + k)) || k == window || !going) {
      PollsFromBounds(r, rc, window, going, k + 1);
    }
  }

  /** With the flag up, the poll takes readings until the first good one, or
      window + 1 bad ones. */
  lemma PollsStopAtFirstGood(r: seq<int>, rc: nat, window: nat)
    ensures forall i :: rc <= i < rc + Polls(r, rc, window, true) - 1 ==> !GoodSignal(Reading(r, i))
    ensures GoodSignal(Reading(r, rc + Polls(r, rc, window, true) - 1)) || Polls(r, rc, window, true) == window + 1
  {
    PollsFromBounds(r, rc, window, true, 0);
  }

  /** The log of polls number k up to n - 1: each is a query, and every one that
      found no signal is followed by the pause. */
  function PollLog(r: seq<int>, rc: nat, k: nat, n: nat): seq<Event>
    decreases n - k
  {
    if k >= n then []
    else [SignalQuery] + (if GoodSignal(Reading(r, rc + k)) then [] else [Delay(PollPauseMs)]) + PollLog(r, rc, k + 1, n)
  }

  /** Appending one poll at the end. */
  lemma {:induction false} PollLogSnoc(r: seq<int>, rc: nat, k: nat, n: nat)
    requires k <= n
    ensures PollLog(r, rc, k, n + 1)
      == PollLog(r, rc, k, n) + [SignalQuery] + (if GoodSignal(Reading(r, rc + n)) then [] else [Delay(PollPauseMs)])
    decreases n - k
  {
    if k < n {
      PollLogSnoc(r, rc, k + 1, n);
    }
  }

  /** Polls are the only signal queries, one per reading taken. */
  lemma {:induction false} PollLogQueries(r: seq<int>, rc: nat, k: nat, n: nat)
    ensures Sent(PollLog(r, rc, k, n)) == []
    ensures forall i :: 0 <= i < |PollLog(r, rc, k, n)| ==> PollLog(r, rc, k, n)[i] in {SignalQuery, Delay(PollPauseMs)}
    decreases n - k
  {
    if k < n {
      PollLogQueries(r, rc, k + 1, n);
      var head := [SignalQuery] + (if GoodSignal(Reading(r, rc + k)) then [] else [Delay(PollPauseMs)]);
      SentNone(head);
      SentAppend(head, PollLog(r, rc, k + 1, n));
    }
  }

  class DigiXBeeCellularTransparent {
    const link: Link
    const apn: string
    const sleepRqPin: int
    const wakeLevel: bool
    /** The signal-percentage conversion of the modem base class, taken as given. */
    const pctFromRssi: int -> int
    var modemName: string
    var priorRssi: int
    var priorSignalPercent: int
    var priorBatteryState: int
    var priorBatteryPercent: int
    var priorModemTemp: real

    /** The sleep-request pin wakes at `XBEE_WAKE_LEVEL`. That the metadata
        fields start unset (-9999) is assumed of the loggerModem base class,
        which is not part of this model. */
    constructor (link: Link, apn: string, sleepRqPin: int, pctFromRssi: int -> int)
      ensures this.link == link && this.apn == apn && this.sleepRqPin == sleepRqPin
      ensures wakeLevel == XBeeWakeLevel && this.pctFromRssi == pctFromRssi
      ensures modemName == "" && priorRssi == Unset && priorSignalPercent == Unset
      ensures priorBatteryState == Unset && priorBatteryPercent == Unset && priorModemTemp == Unset as real
    {
      this.link := link;
      this.apn := apn;
      this.sleepRqPin := sleepRqPin;
      wakeLevel := XBeeWakeLevel;
      this.pctFromRssi := pctFromRssi;
      modemName := "";
      priorRssi := Unset;
      priorSignalPercent := Unset;
      priorBatteryState := Unset;
      priorBatteryPercent := Unset;
      priorModemTemp := Unset as real;
    }

    /** The "Setting I/O Pins" group. */
    method SetIoPins(success: bool) returns (success': bool)
      modifies link`log, link`cursor
      ensures link.log == IoPinsLog(old(link.log)) && link.cursor == old(link.cursor) + 5
      ensures success' == (success && Answer(link.answers, old(link.cursor))
        && Answer(link.answers, old(link.cursor) + 1) && Answer(link.answers, old(link.cursor) + 2)
        && Answer(link.answers, old(link.cursor) + 3) && Answer(link.answers, old(link.cursor) + 4))
    {
      success' := success;
      var ok := link.Command("D8", Num(1));
      success' := success' && ok;
      ok := link.Command("D9", Num(1));
      success' := success' && ok;
      ok := link.Command("D7", Num(1));
      success' := success' && ok;
      ok := link.Command("D5", Num(1));
      success' := success' && ok;
      ok := link.Command("P0", Num(1));
      success' := success' && ok;
    }

    /** The "Setting Sleep Options" group. */
    method SetSleepOptions(success: bool) returns (success': bool)
      modifies link`log, link`cursor
      ensures link.log == SleepOptionsLog(old(link.log)) && link.cursor == old(link.cursor) + 2
      ensures success' == (success && Answer(link.answers, old(link.cursor))
        && Answer(link.answers, old(link.cursor) + 1))
    {
      success' := success;
      var ok := link.Command("SM", Num(1));
      success' := success' && ok;
      ok := link.Command("SO", Num(0));
      success' := success' && ok;
    }

    /** The "Setting Other Options" group. */
    method SetOtherOptions(success: bool) returns (success': bool)
      modifies link`log, link`cursor
      ensures link.log == OtherOptionsLog(old(link.log)) && link.cursor == old(link.cursor) + 4
      ensures success' == (success && Answer(link.answers, old(link.cursor))
        && Answer(link.answers, old(link.cursor) + 1) && Answer(link.answers, old(link.cursor) + 2)
        && Answer(link.answers, old(link.cursor) + 3))
    {
      success' := success;
      var ok := link.Command("DO", Num(0));
      success' := success' && ok;
      ok := link.Command("TD0A", NoArg);
      success' := success' && ok;
      ok := link.Command("P1", Num(0));
      success' := success' && ok;
      ok := link.Command("TM", Num(64));
      success' := success' && ok;
    }

    /** Store the APN, force transparent mode, write to flash, leave command
        mode and restart; the write and the exit are not checked. */
    method ApplyAndRestart(success: bool) returns (success': bool)
      modifies link`log, link`cursor
      ensures link.log == old(link.log) + [GprsConnect(apn)] + Exchange(TransparentMode.0, TransparentMode.1)
        + [WriteChanges] + [ExitCommand] + [Restart]
      ensures link.cursor == old(link.cursor) + 5
      ensures success' == (success && Answer(link.answers, old(link.cursor))
        && Answer(link.answers, old(link.cursor) + 1) && Answer(link.answers, old(link.cursor) + 4))
    {
      success' := success;
      var ok := link.Transact(GprsConnect(apn));
      success' := success' && ok;
      ok := link.Command(TransparentMode.0, TransparentMode.1);
      success' := success' && ok;
      ok := link.Transact(WriteChanges);
      ok := link.Transact(ExitCommand);
      ok := link.Transact(Restart);
      success' := success' && ok;
    }

    /** init(), bind the client, read the name, then in command mode send the
        checked configuration, store the APN, force transparent mode, write,
        leave command mode and restart. */
    method ExtraModemSetup() returns (success: bool)
      modifies this`modemName, link`log, link`cursor
      ensures success == SetupResult(old(link.answers), old(link.cursor))
      ensures link.log == SetupLog(old(link.log), old(link.answers), apn, old(link.cursor))
      ensures link.cursor == old(link.cursor) + SetupConsumed(old(link.answers), old(link.cursor))
      ensures modemName == link.reportedName
    {
      success := true;
      var ok := link.Transact(Init);
      success := success && ok;
      link.Send(ClientInit);
      modemName := link.GetModemName();
      ok := link.Transact(CommandMode);
      if ok {
        success := SetIoPins(success);
        success := SetSleepOptions(success);
        success := SetOtherOptions(success);
        success := ApplyAndRestart(success);
      } else {
        success := false;
      }
    }

    /** Leave airplane mode after driving the pin to the wake level. */
    method ModemWake() returns (r: bool)
      modifies link`log, link`cursor
      ensures r
      ensures link.log == WakeLog(old(link.log), sleepRqPin, wakeLevel, old(link.answers), old(link.cursor))
      ensures link.cursor == old(link.cursor) + AirplaneConsumed(sleepRqPin, old(link.answers), old(link.cursor))
    {
      if sleepRqPin >= 0 {
        link.Send(PinWrite(sleepRqPin, wakeLevel));
        var ok := link.Transact(CommandMode);
        if ok {
          ok := link.Command("AM", Num(0));
          ok := link.Transact(WriteChanges);
          ok := link.Transact(ExitCommand);
        }
        return true;
      } else {
        return true;
      }
    }

    /** Enter airplane mode, then drive the pin away from the wake level. */
    method ModemSleep() returns (r: bool)
      modifies link`log, link`cursor
      ensures r
      ensures link.log == SleepLog(old(link.log), sleepRqPin, wakeLevel, old(link.answers), old(link.cursor))
      ensures link.cursor == old(link.cursor) + AirplaneConsumed(sleepRqPin, old(link.answers), old(link.cursor))
    {
      if sleepRqPin >= 0 {
        var ok := link.Transact(CommandMode);
        if ok {
          ok := link.Command("AM", Num(0));
          ok := link.Transact(WriteChanges);
          ok := link.Transact(ExitCommand);
        }
        link.Send(PinWrite(sleepRqPin, !wakeLevel));
        return true;
      } else {
        return true;
      }
    }

    /** The do-while poll of the signal quality; `going` is the success flag
        of the caller, part of the loop condition. */
    method PollSignal(window: nat, going: bool) returns (signalQual: int)
      modifies link`log, link`readCursor
      ensures link.readCursor == old(link.readCursor) + Polls(link.readings, old(link.readCursor), window, going)
      ensures signalQual == Reading(link.readings, link.readCursor - 1)
      ensures link.log == old(link.log) + PollLog(link.readings, old(link.readCursor), 0, link.readCursor - old(link.readCursor))
    {
      ghost var log0 := link.log;
      ghost var rc := link.readCursor;
      var polls: nat := 0;
      while true
        invariant polls <= window
        invariant link.readCursor == rc + polls
        invariant PollsFrom(link.readings, rc, window, going, polls) == Polls(link.readings, rc, window, going)
        invariant link.log == log0 + PollLog(link.readings, rc, 0, polls)
        decreases window - polls
      {
        PollLogSnoc(link.readings, rc, 0, polls);
        signalQual := link.GetSignalQuality();
        polls := polls + 1;
        if signalQual != 0 && signalQual != Unset {
          break;
        }
        link.Send(Delay(PollPauseMs));
        if !((signalQual == 0 || signalQual == Unset) && polls <= window && going) {
          break;
        }
      }
    }

    /** Refresh the signal and temperature metadata: one command-mode session in
        which the signal is polled until a reading is good or the 15 s window
        runs out; the battery fields are left unset. */
    method UpdateModemMetadata(window: nat) returns (success: bool)
      modifies this`priorRssi, this`priorSignalPercent, this`priorBatteryState,
        this`priorBatteryPercent, this`priorModemTemp, link`log, link`cursor, link`readCursor
      ensures success
      ensures link.readCursor == old(link.readCursor) + Polls(link.readings, old(link.readCursor), window, true)
      ensures priorRssi == Reading(link.readings, link.readCursor - 1)
      ensures priorSignalPercent == pctFromRssi(priorRssi)
      ensures priorBatteryState == Unset && priorBatteryPercent == Unset
      ensures priorModemTemp == link.chipTemperature
      ensures link.log == old(link.log) + [CommandMode]
        + PollLog(link.readings, old(link.readCursor), 0, link.readCursor - old(link.readCursor))
        + [TempQuery] + [ExitCommand]
      ensures link.cursor == old(link.cursor) + 2
    {
      success := true;
      priorRssi := Unset;
      priorSignalPercent := Unset;
      priorBatteryState := Unset;
      priorBatteryPercent := Unset;
      priorBatteryPercent := Unset;
      priorModemTemp := Unset as real;
      var signalQual := Unset;
      var entered := link.Transact(CommandMode);
      signalQual := PollSignal(window, success);
      priorRssi := signalQual;
      priorSignalPercent := pctFromRssi(signalQual);
      priorModemTemp := link.GetChipTemperature();
      var left := link.Transact(ExitCommand);
    }
  }
}
