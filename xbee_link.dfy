/** The serial link to a Digi XBee cellular module, as the provisioning scripts see it.
    The TinyGSM driver behind it is not modelled: every transaction it performs
    (awaiting a reply, init, command mode, ...) yields the next outcome from a fixed
    sequence of answers, and every call is recorded in a log. A module that never
    answers is the empty answer sequence: each transaction then times out (false). */
module XBeeLink {

  /** Argument of an AT command: `sendAT(F("D8"), 1)` or `sendAT(F("AP5"))`. */
  datatype Arg = NoArg | Num(n: nat)

  /** How long a reply is awaited: an explicit bound or the library's default. */
  datatype Timeout = LibraryDefault | Millis(ms: nat)

  /** What the driver does at the modem's interface, in order. */
  datatype Event =
    | Delay(ms: nat)                  // a blocking wait
    | StreamWrite(text: string)       // raw characters, such as the `+++` escape
    | SendAt(cmd: string, arg: Arg)   // an AT command
    | Await(timeout: Timeout)         // waitResponse: one answer consumed
    | Init                            // modem init(): one answer consumed
    | ClientInit                      // the TCP client bound to the modem
    | NameQuery                       // getModemName()
    | CommandMode                     // commandMode(): one answer consumed
    | GprsConnect(apn: string)        // gprsConnect(apn): one answer consumed
    | WriteChanges                    // writeChanges(): one answer consumed
    | ExitCommand                     // exitCommand(): one answer consumed
    | Restart                         // restart(): one answer consumed
    | SignalQuery                     // getSignalQuality(): one reading consumed
    | TempQuery                       // chip temperature query
    | PinWrite(pin: int, high: bool)  // digitalWrite on the sleep-request pin

  /** The outcome of the k-th pending transaction; past the end nothing answers. */
  function Answer(a: seq<bool>, k: nat): bool
  {
    k < |a| && a[k]
  }

  /** The k-th pending signal reading; past the end TinyGSM reports 0 (no signal). */
  function Reading(r: seq<int>, k: nat): int
  {
    if k < |r| then r[k] else 0
  }

  /** Every one of the n transactions from number c on succeeded. */
  ghost predicate AllAnswered(a: seq<bool>, c: nat, n: nat)
  {
    forall i :: c <= i < c + n ==> Answer(a, i)
  }

  /** A fixed AT script: each command is sent and its reply awaited. */
  function ScriptLog(s: seq<(string, Arg)>): seq<Event>
  {
    if s == [] then [] else [SendAt(s[0].0, s[0].1), Await(LibraryDefault)] + ScriptLog(s[1..])
  }

  /** One command and the await of its reply. */
  function Exchange(cmd: string, arg: Arg): seq<Event>
  {
    [SendAt(cmd, arg), Await(LibraryDefault)]
  }

  /** Running two scripts back to back is running their concatenation. */
  lemma {:induction false} ScriptLogAppend(s: seq<(string, Arg)>, t: seq<(string, Arg)>)
    ensures ScriptLog(s + t) == ScriptLog(s) + ScriptLog(t)
  {
    if s == [] {
      assert s + t == t;
    } else {
      assert (s + t)[0] == s[0];
      assert (s + t)[1..] == s[1..] + t;
      ScriptLogAppend(s[1..], t);
    }
  }

  /** The AT commands a log contains, in the order they were sent. */
  function Sent(log: seq<Event>): seq<(string, Arg)>
  {
    if log == [] then []
    else (if log[0].SendAt? then [(log[0].cmd, log[0].arg)] else []) + Sent(log[1..])
  }

  lemma {:induction false} SentAppend(x: seq<Event>, y: seq<Event>)
    ensures Sent(x + y) == Sent(x) + Sent(y)
  {
    if x == [] {
      assert x + y == y;
    } else {
      assert (x + y)[0] == x[0];
      assert (x + y)[1..] == x[1..] + y;
      SentAppend(x[1..], y);
    }
  }

  /** A log without AT commands sends nothing. */
  lemma {:induction false} SentNone(x: seq<Event>)
    requires forall i :: 0 <= i < |x| ==> !x[i].SendAt?
    ensures Sent(x) == []
  {
    if x != [] {
      assert forall i :: 0 <= i < |x[1..]| ==> x[1..][i] == x[i + 1];
      SentNone(x[1..]);
    }
  }

  /** Running a script sends exactly its commands, in its order. */
  lemma {:induction false} SentScriptLog(s: seq<(string, Arg)>)
    ensures Sent(ScriptLog(s)) == s
  {
    if s != [] {
      var head := [SendAt(s[0].0, s[0].1), Await(LibraryDefault)];
      SentAppend(head, ScriptLog(s[1..]));
      assert Sent(head) == [s[0]] by {
        assert head[1..] == [Await(LibraryDefault)];
        assert Sent(head[1..][1..]) == [];
      }
      SentScriptLog(s[1..]);
    }
  }

  /** The script's log alternates command and await: command k is at 2k. */
  lemma {:induction false} ScriptLogAt(s: seq<(string, Arg)>, k: nat)
    requires k < |s|
    ensures |ScriptLog(s)| == 2 * |s|
    ensures ScriptLog(s)[2 * k] == SendAt(s[k].0, s[k].1)
    ensures ScriptLog(s)[2 * k + 1] == Await(LibraryDefault)
  {
    ScriptLogLength(s);
    if k > 0 {
      ScriptLogAt(s[1..], k - 1);
    }
  }

  lemma {:induction false} ScriptLogLength(s: seq<(string, Arg)>)
    ensures |ScriptLog(s)| == 2 * |s|
  {
    if s != [] {
      ScriptLogLength(s[1..]);
    }
  }

  /** The log p followed by a run of script s. */
  function Run(p: seq<Event>, s: seq<(string, Arg)>): seq<Event>
  {
    p + ScriptLog(s)
  }

  /** Running two scripts one after the other is running their concatenation. */
  lemma RunAppend(p: seq<Event>, s: seq<(string, Arg)>, t: seq<(string, Arg)>)
    ensures Run(Run(p, s), t) == Run(p, s + t)
  {
    ScriptLogAppend(s, t);
  }

  /** A run sends the script's commands after those of the log it extends. */
  lemma SentRun(p: seq<Event>, s: seq<(string, Arg)>)
    ensures Sent(Run(p, s)) == Sent(p) + s
  {
    SentAppend(p, ScriptLog(s));
    SentScriptLog(s);
  }

  /** An event that is no AT command adds nothing to what was sent. */
  lemma SentQuiet(x: seq<Event>, e: Event)
    requires !e.SendAt?
    ensures Sent(x + [e]) == Sent(x)
  {
    SentAppend(x, [e]);
    assert [e][1..] == [];
  }

  /** In a run, command k of the script sits 2k events after the log it extends,
      the await of its reply right after it. */
  lemma RunAt(p: seq<Event>, s: seq<(string, Arg)>, k: nat)
    requires k < |s|
    ensures |Run(p, s)| == |p| + 2 * |s|
    ensures Run(p, s)[|p| + 2 * k] == SendAt(s[k].0, s[k].1)
    ensures Run(p, s)[|p| + 2 * k + 1] == Await(LibraryDefault)
  {
    ScriptLogAt(s, k);
  }

  /** The module and its driver, seen from outside. */
  class Link {
    var answers: seq<bool>      // outcomes of successive transactions
    var cursor: nat             // how many of them have been consumed
    var readings: seq<int>      // successive signal-quality readings
    var readCursor: nat
    var reportedName: string    // what getModemName() returns
    var chipTemperature: real   // what the chip temperature query returns
    var log: seq<Event>

    constructor (answers: seq<bool>, readings: seq<int>, name: string, temperature: real)
      ensures this.answers == answers && cursor == 0
      ensures this.readings == readings && readCursor == 0
      ensures reportedName == name && chipTemperature == temperature && log == []
    {
      this.answers := answers;
      this.readings := readings;
      reportedName := name;
      chipTemperature := temperature;
      cursor := 0;
      readCursor := 0;
      log := [];
    }

    /** A call that awaits nothing. */
    method Send(e: Event)
      modifies this`log
      ensures log == old(log) + [e]
    {
      log := log + [e];
    }

    /** A transaction: recorded, and answered by the next pending outcome. */
    method Transact(e: Event) returns (ok: bool)
      modifies this`log, this`cursor
      ensures log == old(log) + [e]
      ensures ok == Answer(answers, old(cursor))
      ensures cursor == old(cursor) + 1
    {
      ok := cursor < |answers| && answers[cursor];
      cursor := cursor + 1;
      log := log + [e];
    }

    /** `sendAT(cmd, arg)` followed by `waitResponse()`: the command goes out and
        its reply is the next pending answer. */
    method Command(cmd: string, arg: Arg) returns (ok: bool)
      modifies this`log, this`cursor
      ensures log == old(log) + Exchange(cmd, arg)
      ensures ok == Answer(answers, old(cursor))
      ensures cursor == old(cursor) + 1
    {
      ok := cursor < |answers| && answers[cursor];
      cursor := cursor + 1;
      log := log + [SendAt(cmd, arg), Await(LibraryDefault)];
    }

    method GetModemName() returns (name: string)
      modifies this`log
      ensures log == old(log) + [NameQuery]
      ensures name == reportedName
    {
      name := reportedName;
      log := log + [NameQuery];
    }

    method GetSignalQuality() returns (q: int)
      modifies this`log, this`readCursor
      ensures log == old(log) + [SignalQuery]
      ensures q == Reading(readings, old(readCursor))
      ensures readCursor == old(readCursor) + 1
    {
      q := if readCursor < |readings| then readings[readCursor] else 0;
      readCursor := readCursor + 1;
      log := log + [SignalQuery];
    }

    method GetChipTemperature() returns (t: real)
      modifies this`log
      ensures log == old(log) + [TempQuery]
      ensures t == chipTemperature
    {
      t := chipTemperature;
      log := log + [TempQuery];
    }
  }
}
