/** Text as the Arduino side produces and reads it: the digits that
    `String(n, HEX)`, `String(n)` and `Stream::print(n)` write for an unsigned
    number, the C-string view of a character buffer, and C's `atoi`. */
module Text {

  datatype Option<T> = None | Some(value: T)

  /** The terminating character of a C string. */
  const Nul: char := '\0'

  /** The lower-case digit of value d (Arduino's `utoa` writes lower case). */
  function DigitChar(d: nat): (c: char)
    requires d < 16
    ensures DigitValue(c) == d
  {
    "0123456789abcdef"[d]
  }

  /** The value of a digit character; 16 for anything that is no digit. */
  function DigitValue(c: char): nat
  {
    if '0' <= c <= '9' then (c as int - '0' as int)
    else if 'a' <= c <= 'f' then (c as int - 'a' as int) + 10
    else 16
  }

  /** A digit of the base; for base 10 this is C's `isdigit`, for base 16 a
      lower-case hexadecimal digit. */
  predicate IsDigitOf(c: char, base: nat)
  {
    DigitValue(c) < base
  }

  /** The digits of n in the given base, most significant first, with no
      leading zero: what `utoa` writes for an unsigned number. */
  function Digits(n: nat, base: nat): (s: string)
    requires 2 <= base <= 16
    ensures 1 <= |s|
    ensures forall i :: 0 <= i < |s| ==> IsDigitOf(s[i], base)
    ensures n != 0 ==> s[0] != '0'
    decreases n
  {
    if n < base then [DigitChar(n)]
    else
      DivMod(n, base);
      Digits(n / base, base) + [DigitChar(n % base)]
  }

  /** Euclidean division by a base, spelled out for the solver. */
  lemma DivMod(n: nat, base: nat)
    requires 2 <= base <= n
    ensures 0 < n / base < n && n % base < base
    ensures n == (n / base) * base + n % base
  {
  }

  /** The number a string of digits stands for. */
  function ParseDigits(s: string, base: nat): nat
    decreases |s|
  {
    if s == [] then 0
    else ParseDigits(s[..|s| - 1], base) * base + (if DigitValue(s[|s| - 1]) < base then DigitValue(s[|s| - 1]) else 0)
  }

  /** Printing a number and reading it back gives the number. */
  lemma {:induction false} DigitsRoundTrip(n: nat, base: nat)
    requires 2 <= base <= 16
    ensures ParseDigits(Digits(n, base), base) == n
    decreases n
  {
    var s := Digits(n, base);
    if n >= base {
      DivMod(n, base);
      assert s[..|s| - 1] == Digits(n / base, base);
      DigitsRoundTrip(n / base, base);
    }
  }

  /** `String(n, HEX)`. */
  function LowerHex(n: nat): string
  {
    Digits(n, 16)
  }

  /** `String(n)` and `Stream::print(n)` for an unsigned n. */
  function Decimal(n: nat): string
  {
    Digits(n, 10)
  }

  /** The characters of a buffer up to its first terminator. */
  function CString(s: seq<char>): (t: seq<char>)
    ensures |t| <= |s| && t == s[..|t|]
    ensures Nul !in t
    ensures |t| < |s| ==> s[|t|] == Nul
  {
    if s == [] || s[0] == Nul then [] else [s[0]] + CString(s[1..])
  }

  /** A string without terminators is its own C string. */
  lemma {:induction false} CStringOfPlain(s: seq<char>)
    requires Nul !in s
    ensures CString(s) == s
  {
    if s != [] {
      CStringOfPlain(s[1..]);
    }
  }

  /** C's `isspace` in the "C" locale. */
  predicate IsSpace(c: char)
  {
    c == ' ' || c == '\t' || c == '\n' || c == '\U{B}' || c == '\U{C}' || c == '\r'
  }

  /** The longest run of digits of the base at the start of s. */
  function DigitRun(s: seq<char>, base: nat): (t: seq<char>)
    ensures |t| <= |s| && t == s[..|t|]
    ensures forall i :: 0 <= i < |t| ==> IsDigitOf(t[i], base)
    ensures |t| < |s| ==> !IsDigitOf(s[|t|], base)
  {
    if s != [] && IsDigitOf(s[0], base) then [s[0]] + DigitRun(s[1..], base) else []
  }

  /** C's `atoi`: leading white space skipped, an optional sign, then as many
      decimal digits as follow. Overflow of `int` is not modelled: the value is
      exact. */
  function Atoi(s: seq<char>): int
    decreases |s|
  {
    if s != [] && IsSpace(s[0]) then Atoi(s[1..])
    else if s != [] && s[0] == '-' then -(ParseDigits(DigitRun(s[1..], 10), 10) as int)
    else if s != [] && s[0] == '+' then ParseDigits(DigitRun(s[1..], 10), 10)
    else ParseDigits(DigitRun(s, 10), 10)
  }

  /** The digit run at the start of a string of digits d followed by a
      character that is no digit is d. */
  lemma {:induction false} DigitRunStop(d: seq<char>, rest: seq<char>, base: nat)
    requires forall i :: 0 <= i < |d| ==> IsDigitOf(d[i], base)
    requires rest == [] || !IsDigitOf(rest[0], base)
    ensures DigitRun(d + rest, base) == d
  {
    if d != [] {
      assert (d + rest)[1..] == d[1..] + rest;
      DigitRunStop(d[1..], rest, base);
    } else {
      assert d + rest == rest;
    }
  }

  /** `atoi` reads back a printed number up to the first character that is no
      digit. */
  lemma AtoiDecimal(n: nat, rest: seq<char>)
    requires rest == [] || !IsDigitOf(rest[0], 10)
    ensures Atoi(Decimal(n) + rest) == n
  {
    AtoiDigits(Decimal(n), rest);
    DigitsRoundTrip(n, 10);
  }

  /** `atoi` of a run of digits followed by no digit is the number the run
      stands for. */
  lemma AtoiDigits(d: seq<char>, rest: seq<char>)
    requires d != [] && forall i :: 0 <= i < |d| ==> IsDigitOf(d[i], 10)
    requires rest == [] || !IsDigitOf(rest[0], 10)
    ensures Atoi(d + rest) == ParseDigits(d, 10)
  {
    DigitRunStop(d, rest, 10);
    assert (d + rest)[0] == d[0];
  }

  /** A digit more at the end of what `atoi` reads multiplies what it read by
      ten and adds the digit. */
  lemma AtoiExtraDigit(d: seq<char>, c: char, rest: seq<char>)
    requires d != [] && forall i :: 0 <= i < |d| ==> IsDigitOf(d[i], 10)
    requires IsDigitOf(c, 10)
    requires rest == [] || !IsDigitOf(rest[0], 10)
    ensures Atoi(d + [c] + rest) == 10 * Atoi(d + rest) + DigitValue(c)
  {
    var dc := d + [c];
    assert forall i :: 0 <= i < |dc| ==> IsDigitOf(dc[i], 10);
    DigitRunStop(dc, rest, 10);
    DigitRunStop(d, rest, 10);
    assert (dc + rest)[0] == d[0] && (d + rest)[0] == d[0];
    assert dc[..|dc| - 1] == d;
    assert d + [c] + rest == dc + rest;
  }
}
