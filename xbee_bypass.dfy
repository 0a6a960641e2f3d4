/** The Digi XBee cellular module (u-blox based) driven in bypass mode:
    the one-time provisioning script that reconfigures the module's firmware. */
module CellularBypass {
  import opened XBeeLink

  /** The configuration commands, in the groups the script announces. */
  // Sleep-request, status and CTS pin functions.
  const IoPins: seq<(string, Arg)> := [("D8", Num(1)), ("D9", Num(1)), ("D7", Num(1))]
  // Pin sleep, and disassociate from the network while asleep.
  const SleepOptions: seq<(string, Arg)> := [("SM", Num(1)), ("SO", Num(0))]
  // Remote manager off, USB direct off on both pins.
  const OtherOptions: seq<(string, Arg)> := [("DO", Num(0)), ("P0", Num(0)), ("P1", Num(0))]
  // Carrier profile AT&T, LTE-M only.
  const CarrierOptions: seq<(string, Arg)> := [("CP", Num(2)), ("N#", Num(2))]
  // Bypass on, write to flash, apply, force reset.
  const BypassMode: seq<(string, Arg)> := [("AP5", NoArg), ("WR", NoArg), ("AC", NoArg), ("FR", NoArg)]

  /** The whole script, in the order it is sent. */
  const BypassScript: seq<(string, Arg)> := IoPins + SleepOptions + OtherOptions + CarrierOptions + BypassMode

  /** Guard time before the escape, and the bound on awaiting its OK. */
  const GuardTimeMs: nat := 1010
  const EscapeTimeoutMs: nat := 2000
  /** Settle time after the forced reset. */
  const ResetSettleMs: nat := 200

  /** The log after the guard time, the `+++` escape and the await of its OK,
      starting from log p. */
  function EscapeLog(p: seq<Event>): seq<Event>
  {
    p + [Delay(GuardTimeMs)] + [StreamWrite("+++")] + [Await(Millis(EscapeTimeoutMs))]
  }

  /** The log after each group, starting from log p: every command followed by
      the await of its reply. */
  function IoPinsLog(p: seq<Event>): seq<Event>
  {
    p + Exchange("D8", Num(1)) + Exchange("D9", Num(1)) + Exchange("D7", Num(1))
  }

  function SleepOptionsLog(p: seq<Event>): seq<Event>
  {
    p + Exchange("SM", Num(1)) + Exchange("SO", Num(0))
  }

  function OtherOptionsLog(p: seq<Event>): seq<Event>
  {
    p + Exchange("DO", Num(0)) + Exchange("P0", Num(0)) + Exchange("P1", Num(0))
  }

  function CarrierOptionsLog(p: seq<Event>): seq<Event>
  {
    p + Exchange("CP", Num(2)) + Exchange("N#", Num(2))
  }

  function BypassModeLog(p: seq<Event>): seq<Event>
  {
    p + Exchange("AP5", NoArg) + Exchange("WR", NoArg) + Exchange("AC", NoArg) + Exchange("FR", NoArg)
  }

  /** Each group's log is a run of its script. */
  lemma IoPinsRun(p: seq<Event>)
    ensures IoPinsLog(p) == Run(p, IoPins)
  {
  }

  lemma SleepOptionsRun(p: seq<Event>)
    ensures SleepOptionsLog(p) == Run(p, SleepOptions)
  {
  }

  lemma OtherOptionsRun(p: seq<Event>)
    ensures OtherOptionsLog(p) == Run(p, OtherOptions)
  {
  }

  lemma CarrierOptionsRun(p: seq<Event>)
    ensures CarrierOptionsLog(p) == Run(p, CarrierOptions)
  {
  }

  lemma BypassModeRun(p: seq<Event>)
    ensures BypassModeLog(p) == Run(p, BypassMode)
  {
  }

  /** The log after extraModemSetup, starting from log p, when the transactions
      from number c on are answered as in a: answer c is the escape's OK. */
  function SetupLog(p: seq<Event>, a: seq<bool>, c: nat): seq<Event>
  {
    if Answer(a, c) then
      BypassModeLog(CarrierOptionsLog(OtherOptionsLog(SleepOptionsLog(IoPinsLog(EscapeLog(p))))))
      + [Delay(ResetSettleMs)] + [Init] + [NameQuery]
    else
      EscapeLog(p)
  }

  /** How many answers extraModemSetup consumes. */
  function SetupConsumed(a: seq<bool>, c: nat): nat
  {
    if Answer(a, c) then 16 else 1
  }

  /** extraModemSetup's result: the `success &=` chain over the escape (c),
      the fourteen replies (c+1 .. c+14) and init() (c+15). */
  function SetupResult(a: seq<bool>, c: nat): bool
  {
    Answer(a, c) && Answer(a, c + 1) && Answer(a, c + 2) && Answer(a, c + 3) && Answer(a, c + 4)
    && Answer(a, c + 5) && Answer(a, c + 6) && Answer(a, c + 7) && Answer(a, c + 8) && Answer(a, c + 9)
    && Answer(a, c + 10) && Answer(a, c + 11) && Answer(a, c + 12) && Answer(a, c + 13) && Answer(a, c + 14)
    && Answer(a, c + 15)
  }

  /** The result is true exactly when the escape, all fourteen commands and init() succeed. */
  lemma SetupResultMeaning(a: seq<bool>, c: nat)
    ensures SetupResult(a, c) <==> Answer(a, c) && AllAnswered(a, c + 1, |BypassScript|) && Answer(a, c + 15)
  {
    assert |BypassScript| == 14;
    if Answer(a, c) && AllAnswered(a, c + 1, 14) && Answer(a, c + 15) {
      assert Answer(a, c + 1) && Answer(a, c + 2) && Answer(a, c + 3) && Answer(a, c + 4) && Answer(a, c + 5);
      assert Answer(a, c + 6) && Answer(a, c + 7) && Answer(a, c + 8) && Answer(a, c + 9) && Answer(a, c + 10);
      assert Answer(a, c + 11) && Answer(a, c + 12) && Answer(a, c + 13) && Answer(a, c + 14);
    }
    if SetupResult(a, c) {
      forall i | c + 1 <= i < c + 15
        ensures Answer(a, i)
      {
        assert i - c in {1, 2, 3, 4, 5, 6, 7, 8, 9, 10, 11, 12, 13, 14};
      }
    }
  }

  /** Without an OK to the escape: false, nothing sent, no init() and no name query. */
  lemma EscapeRefused(p: seq<Event>, a: seq<bool>, c: nat)
    requires !Answer(a, c)
    ensures !SetupResult(a, c) && SetupConsumed(a, c) == 1
    ensures SetupLog(p, a, c) == p + [Delay(GuardTimeMs), StreamWrite("+++"), Await(Millis(EscapeTimeoutMs))]
    ensures Sent(SetupLog(p, a, c)) == Sent(p)
  {
    var escape := [Delay(GuardTimeMs), StreamWrite("+++"), Await(Millis(EscapeTimeoutMs))];
    assert SetupLog(p, a, c) == p + escape;
    SentAppend(p, escape);
    SentNone(escape);
  }

  /** Once the escape is answered, the log is the escape, a run of the whole
      script with one reply awaited after each command, whatever those replies
      are, then the reset's settle time, init() and the name query. */
  lemma SetupLogRunsScript(p: seq<Event>, a: seq<bool>, c: nat)
    requires Answer(a, c)
    ensures SetupLog(p, a, c) == Run(EscapeLog(p), BypassScript) + [Delay(ResetSettleMs)] + [Init] + [NameQuery]
  {
    var p1 := EscapeLog(p);
    IoPinsRun(p1);
    SleepOptionsRun(Run(p1, IoPins));
    RunAppend(p1, IoPins, SleepOptions);
    OtherOptionsRun(Run(p1, IoPins + SleepOptions));
    RunAppend(p1, IoPins + SleepOptions, OtherOptions);
    CarrierOptionsRun(Run(p1, IoPins + SleepOptions + OtherOptions));
    RunAppend(p1, IoPins + SleepOptions + OtherOptions, CarrierOptions);
    BypassModeRun(Run(p1, IoPins + SleepOptions + OtherOptions + CarrierOptions));
    RunAppend(p1, IoPins + SleepOptions + OtherOptions + CarrierOptions, BypassMode);
  }

  /** Once the escape is answered, exactly the script's commands are sent, in its order. */
  lemma ScriptSent(p: seq<Event>, a: seq<bool>, c: nat)
    requires Answer(a, c)
    ensures Sent(SetupLog(p, a, c)) == Sent(p) + BypassScript
  {
    SetupLogRunsScript(p, a, c);
    var r := Run(EscapeLog(p), BypassScript);
    SentQuiet(r + [Delay(ResetSettleMs)] + [Init], NameQuery);
    SentQuiet(r + [Delay(ResetSettleMs)], Init);
    SentQuiet(r, Delay(ResetSettleMs));
    SentRun(EscapeLog(p), BypassScript);
    var q := p + [Delay(GuardTimeMs)] + [StreamWrite("+++")];
    SentQuiet(q, Await(Millis(EscapeTimeoutMs)));
    SentQuiet(p + [Delay(GuardTimeMs)], StreamWrite("+++"));
    SentQuiet(p, Delay(GuardTimeMs));
  }

  /** Once the escape is answered, command k of the script is at position 3 + 2k
      of the new part of the log, the await of its reply right after it. */
  lemma CommandPosition(p: seq<Event>, a: seq<bool>, c: nat, k: nat)
    requires Answer(a, c) && k < |BypassScript|
    ensures |p| + 3 + 2 * k + 1 < |SetupLog(p, a, c)|
    ensures SetupLog(p, a, c)[|p| + 3 + 2 * k] == SendAt(BypassScript[k].0, BypassScript[k].1)
    ensures SetupLog(p, a, c)[|p| + 3 + 2 * k + 1] == Await(LibraryDefault)
  {
    SetupLogRunsScript(p, a, c);
    RunAt(EscapeLog(p), BypassScript, k);
  }

  /** Bypass is switched on before the write to flash, the write before the
      apply, and the apply before the forced reset. */
  lemma BypassOrder(p: seq<Event>, a: seq<bool>, c: nat)
    requires Answer(a, c)
    ensures |p| + 29 < |SetupLog(p, a, c)|
    ensures SetupLog(p, a, c)[|p| + 23] == SendAt("AP5", NoArg)
    ensures SetupLog(p, a, c)[|p| + 25] == SendAt("WR", NoArg)
    ensures SetupLog(p, a, c)[|p| + 27] == SendAt("AC", NoArg)
    ensures SetupLog(p, a, c)[|p| + 29] == SendAt("FR", NoArg)
  {
    SetupLogRunsScript(p, a, c);
    var first := IoPins + SleepOptions + OtherOptions + CarrierOptions;
    RunAppend(EscapeLog(p), first, BypassMode);
    var r := Run(EscapeLog(p), first);
    assert |r| == |p| + 23 by {
      RunAt(EscapeLog(p), first, 0);
    }
    RunAt(r, BypassMode, 0);
    RunAt(r, BypassMode, 1);
    RunAt(r, BypassMode, 2);
    RunAt(r, BypassMode, 3);
  }

  class DigiXBeeCellularBypass {
    const link: Link
    const apn: string
    var modemName: string

    constructor (link: Link, apn: string)
      ensures this.link == link && this.apn == apn && modemName == ""
    {
      this.link := link;
      this.apn := apn;
      modemName := "";
    }

    /** The "Setting I/O Pins" group. */
    method SetIoPins(success: bool) returns (success': bool)
      modifies link`log, link`cursor
      ensures link.log == IoPinsLog(old(link.log)) && link.cursor == old(link.cursor) + 3
      ensures success' == (success && Answer(link.answers, old(link.cursor))
        && Answer(link.answers, old(link.cursor) + 1) && Answer(link.answers, old(link.cursor) + 2))
    {
      success' := success;
      var ok := link.Command("D8", Num(1));
      success' := success' && ok;
      ok := link.Command("D9", Num(1));
      success' := success' && ok;
      ok := link.Command("D7", Num(1));
      success' := success' && ok;
    }

    /** The "Setting Sleep Options" group. */
    method SetSleepOptions(success: bool) returns (success': bool)
      modifies link`log, link`cursor
      ensures link.log == SleepOptionsLog(old(link.log)) && link.cursor == old(link.cursor) + 2
      ensures success' == (success && Answer(link.answers, old(link.cursor))
        && Answer(link.answers, old(link.cursor) + 1))
    {
      success' := success;
      var ok := link.Command("SM", Num(1));
      success' := success' && ok;
      ok := link.Command("SO", Num(0));
      success' := success' && ok;
    }

    /** The "Setting Other Options" group. */
    method SetOtherOptions(success: bool) returns (success': bool)
      modifies link`log, link`cursor
      ensures link.log == OtherOptionsLog(old(link.log)) && link.cursor == old(link.cursor) + 3
      ensures success' == (success && Answer(link.answers, old(link.cursor))
        && Answer(link.answers, old(link.cursor) + 1) && Answer(link.answers, old(link.cursor) + 2))
    {
      success' := success;
      var ok := link.Command("DO", Num(0));
      success' := success' && ok;
      ok := link.Command("P0", Num(0));
      success' := success' && ok;
      ok := link.Command("P1", Num(0));
      success' := success' && ok;
    }

    /** The "Setting Cellular Carrier Options" group. */
    method SetCarrierOptions(success: bool) returns (success': bool)
      modifies link`log, link`cursor
      ensures link.log == CarrierOptionsLog(old(link.log)) && link.cursor == old(link.cursor) + 2
      ensures success' == (success && Answer(link.answers, old(link.cursor))
        && Answer(link.answers, old(link.cursor) + 1))
    {
      success' := success;
      var ok := link.Command("CP", Num(2));
      success' := success' && ok;
      ok := link.Command("N#", Num(2));
      success' := success' && ok;
    }

    /** The "Turning on Bypass Mode" group, through the forced reset. */
    method TurnOnBypass(success: bool) returns (success': bool)
      modifies link`log, link`cursor
      ensures link.log == BypassModeLog(old(link.log)) && link.cursor == old(link.cursor) + 4
      ensures success' == (success && Answer(link.answers, old(link.cursor))
        && Answer(link.answers, old(link.cursor) + 1) && Answer(link.answers, old(link.cursor) + 2)
        && Answer(link.answers, old(link.cursor) + 3))
    {
      success' := success;
      var ok := link.Command("AP5", NoArg);
      success' := success' && ok;
      ok := link.Command("WR", NoArg);
      success' := success' && ok;
      ok := link.Command("AC", NoArg);
      success' := success' && ok;
      ok := link.Command("FR", NoArg);
      success' := success' && ok;
    }

    /** Enter command mode with `+++`; when that is answered, send the fixed script,
        re-initialise and read the module's name. Every step is attempted whatever
        the replies before it; the result is the conjunction of all of them. */
    method ExtraModemSetup() returns (success: bool)
      modifies this`modemName, link`log, link`cursor
      ensures success == SetupResult(old(link.answers), old(link.cursor))
      ensures link.log == SetupLog(old(link.log), old(link.answers), old(link.cursor))
      ensures link.cursor == old(link.cursor) + SetupConsumed(old(link.answers), old(link.cursor))
      ensures modemName == if Answer(old(link.answers), old(link.cursor)) then link.reportedName else old(modemName)
    {
      success := true;
      link.Send(Delay(GuardTimeMs));
      link.Send(StreamWrite("+++"));
      var ok := link.Transact(Await(Millis(EscapeTimeoutMs)));
      success := success && ok;
      if success {
        success := SetIoPins(success);
        success := SetSleepOptions(success);
        success := SetOtherOptions(success);
        success := SetCarrierOptions(success);
        success := TurnOnBypass(success);
        link.Send(Delay(ResetSettleMs));
        ok := link.Transact(Init);
        success := success && ok;
        modemName := link.GetModemName();
      } else {
        success := false;
      }
    }
  }
}
