/** The texts the Hologram publisher produces and reads: the sensor-data JSON
    and its announced size, the request around it, the payload it sends to
    Hologram's cloud socket, and the status code it reads from the reply. */
module HologramFormat {
  import opened Text

  const PostEndpoint: string := "/api/1/csr/data/"
  const HologramHost: string := "cloudsocket.hologram.io"
  const HologramPort: nat := 9999
  const AuthHeader: string := "\r\nAuthorization: Basic "
  const ContentLengthHeader: string := "\r\nContent-Length: "
  const ContentTypeHeader: string := "\r\nContent-Type: application/json\r\n\r\n"
  const DeviceIdTag: string := "{\"deviceid\":"
  const BodyTag: string := ",\"body\":\""
  /** The placeholder for the six-digit Hologram device id. */
  const DeviceId: string := "xxxxxx"

  /** The size of the tempBuffer the payload pieces are copied through. */
  const TempSize: nat := 37

  /** `uint16_t` arithmetic. */
  const U16: nat := 0x1_0000

  /** One variable of the logger: its UUID and its value as formatted text. */
  datatype VarReading = VarReading(uuid: string, value: string)

  // ---------------------------------------------------------------------------
  // Lists with a separator

  /** The first k parts, each followed by a comma unless it is the last of all
      the parts: what a loop printing part i, then ',' when i + 1 != n, has
      printed after k rounds. */
  function Joined(parts: seq<string>, k: nat): string
    requires k <= |parts|
  {
    if k == 0 then [] else Joined(parts, k - 1) + parts[k - 1] + (if k != |parts| then "," else "")
  }

  /** The parts with a comma between each two, none after the last. */
  function Join(parts: seq<string>): string
  {
    if parts == [] then []
    else if |parts| == 1 then parts[0]
    else parts[0] + "," + Join(parts[1..])
  }

  function SumLengths(parts: seq<string>): nat
  {
    if parts == [] then 0 else |parts[0]| + SumLengths(parts[1..])
  }

  lemma {:induction false} JoinSnoc(parts: seq<string>, p: string)
    ensures Join(parts + [p]) == Join(parts) + (if parts == [] then "" else ",") + p
  {
    if parts == [] {
      assert parts + [p] == [p];
    } else if |parts| == 1 {
      assert (parts + [p])[1..] == [p];
    } else {
      assert (parts + [p])[1..] == parts[1..] + [p];
      JoinSnoc(parts[1..], p);
    }
  }

  /** After k rounds the loop has printed the first k parts joined, and the
      comma that follows them unless the list is done. */
  lemma {:induction false} JoinedPrefix(parts: seq<string>, k: nat)
    requires k <= |parts|
    ensures Joined(parts, k) == Join(parts[..k]) + (if 0 < k < |parts| then "," else "")
  {
    if k > 0 {
      JoinedPrefix(parts, k - 1);
      assert parts[..k] == parts[..k - 1] + [parts[k - 1]];
      JoinSnoc(parts[..k - 1], parts[k - 1]);
    }
  }

  /** The loop's output is the parts separated by commas, with none after the
      last. */
  lemma JoinedIsJoin(parts: seq<string>)
    ensures Joined(parts, |parts|) == Join(parts)
  {
    JoinedPrefix(parts, |parts|);
    assert parts[..|parts|] == parts;
  }

  /** A joined list is as long as its parts and the commas between them. */
  lemma {:induction false} JoinLength(parts: seq<string>)
    ensures |Join(parts)| == SumLengths(parts) + (if parts == [] then 0 else |parts| - 1)
  {
    if |parts| > 1 {
      JoinLength(parts[1..]);
    }
  }

  // ---------------------------------------------------------------------------
  // The sensor-data JSON

  /** `"uuid":value`. */
  function VarJson(v: VarReading): string
  {
    "\"" + v.uuid + "\":" + v.value
  }

  function VarJsons(vs: seq<VarReading>): (parts: seq<string>)
    ensures |parts| == |vs| && forall j :: 0 <= j < |vs| ==> parts[j] == VarJson(vs[j])
  {
    seq(|vs|, j requires 0 <= j < |vs| => VarJson(vs[j]))
  }

  /** The start of the JSON, up to the first variable. */
  function JsonHead(isoTime: string): string
  {
    DeviceIdTag + DeviceId + BodyTag + isoTime + "\","
  }

  /** The JSON printSensorDataJSON writes. */
  function SensorDataJson(isoTime: string, vs: seq<VarReading>): string
  {
    JsonHead(isoTime) + Joined(VarJsons(vs), |vs|) + "}"
  }

  /** The JSON is the head, the variables `"uuid":value` separated by commas
      with none after the last, and a closing brace. */
  lemma SensorDataJsonShape(isoTime: string, vs: seq<VarReading>)
    ensures SensorDataJson(isoTime, vs) == JsonHead(isoTime) + Join(VarJsons(vs)) + "}"
  {
    JoinedIsJoin(VarJsons(vs));
  }

  /** The total length of the value texts. */
  function ValueLengths(vs: seq<VarReading>): nat
  {
    if vs == [] then 0 else |vs[0].value| + ValueLengths(vs[1..])
  }

  /** What calculateJsonSize computes: 56 + 39 n + the value lengths + the
      n - 1 commas, in `uint16_t`. */
  function JsonSizeAsWritten(vs: seq<VarReading>): nat
  {
    (56 + 39 * |vs| + ValueLengths(vs) + (if vs == [] then 0 else |vs| - 1)) % U16
  }

  /** The size the loop has counted for the first k variables. */
  function SizeAcc(vs: seq<VarReading>, k: nat): nat
    requires k <= |vs|
  {
    if k == 0 then 0 else SizeAcc(vs, k - 1) + 39 + |vs[k - 1].value| + (if k != |vs| then 1 else 0)
  }

  lemma {:induction false} ValueLengthsSnoc(vs: seq<VarReading>, v: VarReading)
    ensures ValueLengths(vs + [v]) == ValueLengths(vs) + |v.value|
  {
    if vs == [] {
      assert vs + [v] == [v];
    } else {
      assert (vs + [v])[1..] == vs[1..] + [v];
      ValueLengthsSnoc(vs[1..], v);
    }
  }

  lemma {:induction false} SizeAccClosed(vs: seq<VarReading>, k: nat)
    requires k <= |vs|
    ensures SizeAcc(vs, k) == 39 * k + ValueLengths(vs[..k]) + (if k == 0 then 0 else if k < |vs| then k else k - 1)
  {
    if k > 0 {
      SizeAccClosed(vs, k - 1);
      assert vs[..k] == vs[..k - 1] + [vs[k - 1]];
      ValueLengthsSnoc(vs[..k - 1], vs[k - 1]);
    }
  }

  /** The counted size is the closed formula. */
  lemma SizeAccTotal(vs: seq<VarReading>)
    ensures (56 + SizeAcc(vs, |vs|)) % U16 == JsonSizeAsWritten(vs)
  {
    SizeAccClosed(vs, |vs|);
    assert vs[..|vs|] == vs;
    assert 56 + SizeAcc(vs, |vs|) == 56 + 39 * |vs| + ValueLengths(vs) + (if vs == [] then 0 else |vs| - 1);
  }

  /** The shape the size formula presumes: a 25-character time stamp and
      36-character UUIDs (the device id is fixed at six characters). */
  predicate StandardShape(isoTime: string, vs: seq<VarReading>)
  {
    |isoTime| == 25 && forall j :: 0 <= j < |vs| ==> |vs[j].uuid| == 36
  }

  /** For the presumed shape, the first k variables' JSON is as long as the
      loop counts for them. */
  lemma {:induction false} JoinedJsonLength(vs: seq<VarReading>, k: nat)
    requires k <= |vs|
    requires forall j :: 0 <= j < |vs| ==> |vs[j].uuid| == 36
    ensures |Joined(VarJsons(vs), k)| == SizeAcc(vs, k)
  {
    if k > 0 {
      JoinedJsonLength(vs, k - 1);
    }
  }

  /** For the presumed shape, the printed JSON is 55 + the counted size long. */
  lemma JsonLength(isoTime: string, vs: seq<VarReading>)
    requires StandardShape(isoTime, vs)
    ensures |SensorDataJson(isoTime, vs)| == 55 + SizeAcc(vs, |vs|)
  {
    JoinedJsonLength(vs, |vs|);
  }

  /** As written, the announced size is one more than the JSON printed: the
      9-character body tag is counted as 10. */
  lemma JsonSizeOffByOne(isoTime: string, vs: seq<VarReading>)
    requires StandardShape(isoTime, vs)
    ensures JsonSizeAsWritten(vs) == (|SensorDataJson(isoTime, vs)| + 1) % U16
    ensures |SensorDataJson(isoTime, vs)| + 1 < U16 ==> JsonSizeAsWritten(vs) == |SensorDataJson(isoTime, vs)| + 1
  {
    JsonLength(isoTime, vs);
    SizeAccTotal(vs);
  }

  /** A logger with no variables: the JSON printed has 55 characters, the
      size announced is 56. */
  lemma NoVariablesOffByOne(isoTime: string)
    requires |isoTime| == 25
    ensures |SensorDataJson(isoTime, [])| == 55 && JsonSizeAsWritten([]) == 56
  {
    JsonSizeOffByOne(isoTime, []);
    JsonLength(isoTime, []);
  }

  /** The size with the body tag counted as the 9 characters it has. */
  function IntendedJsonSize(vs: seq<VarReading>): nat
  {
    (55 + 39 * |vs| + ValueLengths(vs) + (if vs == [] then 0 else |vs| - 1)) % U16
  }

  /** The corrected size is the length of the JSON printed (in `uint16_t`). */
  lemma IntendedSizeIsLength(isoTime: string, vs: seq<VarReading>)
    requires StandardShape(isoTime, vs)
    ensures IntendedJsonSize(vs) == |SensorDataJson(isoTime, vs)| % U16
  {
    JsonLength(isoTime, vs);
    SizeAccClosed(vs, |vs|);
    assert vs[..|vs|] == vs;
    assert 56 + SizeAcc(vs, |vs|) == 56 + 39 * |vs| + ValueLengths(vs) + (if vs == [] then 0 else |vs| - 1);
  }

  /** a + b in `uint16_t`, for a already in range. */
  function AddU16(a: nat, b: nat): nat
  {
    (a + b) % U16
  }

  lemma ModAdd(a: nat, b: nat)
    ensures AddU16(a % U16, b) == (a + b) % U16
  {
  }

  // ---------------------------------------------------------------------------
  // The request printEnviroDIYRequest writes

  /** The header texts of the generic data publisher, which this model does
      not fix. */
  datatype BaseHeaders = BaseHeaders(postHeader: string, httpTag: string, hostHeader: string)

  /** The request up to the announced size. */
  function RequestHead(h: BaseHeaders, token: string): string
  {
    h.postHeader + PostEndpoint + h.httpTag + h.hostHeader + HologramHost + AuthHeader + token + ContentLengthHeader
  }

  /** The request: the headers with the token and the announced size, then
      the JSON. */
  function RequestText(h: BaseHeaders, token: string, size: nat, json: string): string
  {
    RequestHead(h, token) + Decimal(size) + ContentTypeHeader + json
  }

  /** The announced size reads back, by `atoi`, from where the head ends. */
  lemma AnnouncedSize(head: string, size: nat, json: string)
    ensures Atoi((head + Decimal(size) + ContentTypeHeader + json)[|head|..]) == size
  {
    var tail := ContentTypeHeader + json;
    assert head + Decimal(size) + ContentTypeHeader + json == head + (Decimal(size) + tail);
    assert (head + (Decimal(size) + tail))[|head|..] == Decimal(size) + tail;
    assert tail[0] == '\r';
    AtoiDecimal(size, tail);
  }

  /** The request's announced Content-Length reads back as one more than the
      length of the body that follows it. */
  lemma RequestAnnouncesOneMore(h: BaseHeaders, token: string, isoTime: string, vs: seq<VarReading>)
    requires StandardShape(isoTime, vs)
    requires |SensorDataJson(isoTime, vs)| + 1 < U16
    ensures var json := SensorDataJson(isoTime, vs);
      var req := RequestText(h, token, JsonSizeAsWritten(vs), json);
      && req == RequestHead(h, token) + Decimal(|json| + 1) + ContentTypeHeader + json
      && Atoi(req[|RequestHead(h, token)|..]) == |json| + 1
  {
    JsonSizeOffByOne(isoTime, vs);
    AnnouncedSize(RequestHead(h, token), |SensorDataJson(isoTime, vs)| + 1, SensorDataJson(isoTime, vs));
  }

  // ---------------------------------------------------------------------------
  // The payload publishData sends

  /** At most 36 characters: what fits in the 37-byte tempBuffer. */
  function Trunc36(s: string): string
  {
    if |s| <= TempSize - 1 then s else s[..TempSize - 1]
  }

  /** What `s.toCharArray(tempBuffer, 37)` then `strcat(txBuffer, tempBuffer)`
      append: the first 36 characters, up to a terminator among them. */
  function Piece(s: string): string
  {
    CString(Trunc36(s))
  }

  /** A piece is never longer than 36 characters, and a string that fits and
      has no terminator passes whole. */
  lemma PieceBounds(s: string)
    ensures |Piece(s)| <= 36 && Piece(s) == s[..|Piece(s)|]
    ensures |s| <= 36 && Nul !in s ==> Piece(s) == s
  {
    if |s| <= 36 && Nul !in s {
      CStringOfPlain(s);
    }
  }

  /** `uuid,value` of one variable. */
  function VarItem(v: VarReading): string
  {
    Piece(v.uuid) + "," + Piece(v.value)
  }

  function VarItems(vs: seq<VarReading>): (parts: seq<string>)
    ensures |parts| == |vs| && forall j :: 0 <= j < |vs| ==> parts[j] == VarItem(vs[j])
  {
    seq(|vs|, j requires 0 <= j < |vs| => VarItem(vs[j]))
  }

  /** The payload up to the first variable. */
  function PayloadHead(token: string, isoTime: string): string
  {
    "{\"k\":\"" + token + "\",\"d\":\"" + "time," + Piece(isoTime) + ","
  }

  /** The payload: the token, then `time,` and the time stamp, every variable's
      `uuid,value`, all separated by commas, then the closing `"}`. */
  function Payload(token: string, isoTime: string, vs: seq<VarReading>): string
  {
    PayloadHead(token, isoTime) + Joined(VarItems(vs), |vs|) + "\"}"
  }

  lemma PayloadShape(token: string, isoTime: string, vs: seq<VarReading>)
    ensures Payload(token, isoTime, vs) == PayloadHead(token, isoTime) + Join(VarItems(vs)) + "\"}"
  {
    JoinedIsJoin(VarItems(vs));
  }

  // ---------------------------------------------------------------------------
  // The tempBuffer and the status code

  /** The tempBuffer after `s.toCharArray(tempBuffer, 37)`: `strncpy` of the
      first n = min(|s|, 36) characters (padded with terminators after a
      terminator among them), then a terminator at n; the rest kept. */
  function CopyImage(b: seq<char>, s: string): (t: seq<char>)
    requires |b| == TempSize
    ensures |t| == TempSize
  {
    var n := |Trunc36(s)|;
    seq(TempSize, i requires 0 <= i < TempSize =>
      if i < n then (if Nul in s[..i] then Nul else s[i])
      else if i == n then Nul
      else b[i])
  }

  /** What the strcat after the copy appends is the piece. */
  lemma CopyImagePiece(b: seq<char>, s: string)
    requires |b| == TempSize
    ensures CString(CopyImage(b, s)) == Piece(s)
  {
    var t := CopyImage(b, s);
    var p := Piece(s);
    var n := |Trunc36(s)|;
    forall i | 0 <= i < |p|
      ensures t[i] == p[i]
    {
      assert s[..i] == p[..i];
      assert Nul !in s[..i];
    }
    assert t[..|p|] == p;
    if |p| < n {
      assert Trunc36(s)[|p|] == Nul;
      assert t[|p|] == Nul;
    }
    CStringUnique(t, p);
  }

  /** The C string of a buffer is the one prefix without terminators that is
      followed by a terminator or the end. */
  lemma {:induction false} CStringUnique(t: seq<char>, p: seq<char>)
    requires |p| <= |t| && t[..|p|] == p && Nul !in p
    requires |p| < |t| ==> t[|p|] == Nul
    ensures CString(t) == p
  {
    if p != [] {
      assert t[0] == p[0];
      assert t[1..][..|p| - 1] == p[1..];
      CStringUnique(t[1..], p[1..]);
    }
  }

  /** The tempBuffer when it is first declared: all terminators. */
  function EmptyTemp(): (t: seq<char>)
    ensures |t| == TempSize
  {
    seq(TempSize, i => Nul)
  }

  /** The tempBuffer after copying the given strings through it in turn. */
  function TempAfter(copied: seq<string>): (t: seq<char>)
    ensures |t| == TempSize
  {
    if copied == [] then EmptyTemp() else CopyImage(TempAfter(copied[..|copied| - 1]), copied[|copied| - 1])
  }

  /** The strings publishData copies through the tempBuffer, in order: the
      time stamp, then each variable's UUID and value. */
  function Copied(isoTime: string, vs: seq<VarReading>, k: nat): seq<string>
    requires k <= |vs|
  {
    if k == 0 then [isoTime] else Copied(isoTime, vs, k - 1) + [vs[k - 1].uuid, vs[k - 1].value]
  }

  /** How many bytes `readBytes(tempBuffer, 12)` stores. */
  function ResponseCount(response: seq<char>): nat
  {
    if |response| < 12 then |response| else 12
  }

  /** The tempBuffer after readBytes stored the first response bytes over b. */
  function Received(b: seq<char>, response: seq<char>): (t: seq<char>)
    requires |b| == TempSize
    ensures |t| == TempSize
  {
    seq(TempSize, i requires 0 <= i < TempSize => if i < ResponseCount(response) then response[i] else b[i])
  }

  /** Conversion of an `int` to `int16_t`: two's-complement wrap-around. */
  function Int16(x: int): int
  {
    (x + 0x8000) % 0x1_0000 - 0x8000
  }

  /** The status code as written: with no response 504; otherwise `atoi` of
      the characters at 9, 10, 11 followed by `stray`, the bytes of
      `responseCode_char` from index 3 on, which the code never sets. */
  function ResponseCodeAsWritten(didRespond: nat, t: seq<char>, stray: seq<char>): int
    requires |t| == TempSize
  {
    if didRespond > 0 then Int16(Atoi(t[9..12] + stray)) else 504
  }

  /** The status code with `responseCode_char[3]` set to the terminator. */
  function IntendedResponseCode(didRespond: nat, t: seq<char>): int
    requires |t| == TempSize
  {
    if didRespond > 0 then Int16(Atoi(t[9..12] + [Nul])) else 504
  }

  /** The status line of an HTTP reply: "HTTP/1.1 " and three digits. */
  predicate StatusLine(response: seq<char>)
  {
    |response| >= 12 && response[..9] == "HTTP/1.1 " && forall i :: 9 <= i < 12 ==> IsDigitOf(response[i], 10)
  }

  /** The three-digit code of a status line. */
  function StatusCode(response: seq<char>): nat
    requires StatusLine(response)
  {
    ParseDigits(response[9..12], 10)
  }

  /** A reply of 12 bytes or more overwrites the code's characters. */
  lemma ReceivedCode(b: seq<char>, response: seq<char>)
    requires |b| == TempSize && |response| >= 12
    ensures Received(b, response)[9..12] == response[9..12]
  {
    assert ResponseCount(response) == 12;
    var t := Received(b, response);
    assert t[9] == response[9] && t[10] == response[10] && t[11] == response[11];
  }

  /** Three decimal digits stand for at most 999. */
  lemma ThreeDigits(d: seq<char>)
    requires |d| == 3 && forall i :: 0 <= i < 3 ==> IsDigitOf(d[i], 10)
    ensures ParseDigits(d, 10) <= 999
  {
    var ab := d[..2];
    var a := ab[..1];
    assert a[..0] == [] && a[0] == d[0];
    assert ParseDigits(a, 10) == DigitValue(d[0]);
    assert ab[1] == d[1];
    assert ParseDigits(ab, 10) == DigitValue(d[0]) * 10 + DigitValue(d[1]);
  }

  /** `atoi` of three digits followed by one more digit. */
  lemma AtoiCodeAndStray(d: seq<char>, c: char, rest: seq<char>)
    requires |d| == 3 && forall i :: 0 <= i < 3 ==> IsDigitOf(d[i], 10)
    requires IsDigitOf(c, 10) && (rest == [] || !IsDigitOf(rest[0], 10))
    ensures Atoi(d + ([c] + rest)) == 10 * ParseDigits(d, 10) + DigitValue(c) < 0x8000
  {
    var n := ParseDigits(d, 10);
    assert Atoi(d + rest) == n by {
      AtoiDigits(d, rest);
    }
    assert Atoi(d + ([c] + rest)) == 10 * Atoi(d + rest) + DigitValue(c) by {
      AtoiExtraDigit(d, c, rest);
      assert d + ([c] + rest) == d + [c] + rest;
    }
    assert n <= 999 by {
      ThreeDigits(d);
    }
  }

  /** A reply read in full puts its code at 9..11; the corrected rule reads
      it back, whatever the buffer held before. */
  lemma IntendedReadsStatus(b: seq<char>, response: seq<char>)
    requires |b| == TempSize && StatusLine(response)
    ensures IntendedResponseCode(ResponseCount(response), Received(b, response)) == StatusCode(response)
  {
    ReceivedCode(b, response);
    var d := response[9..12];
    assert forall i :: 0 <= i < |d| ==> IsDigitOf(d[i], 10);
    assert DigitValue(Nul) == 16;
    AtoiDigits(d, [Nul]);
    ThreeDigits(d);
  }

  /** As written, a stray digit after the code is read as part of it. */
  lemma StrayDigitScalesCode(b: seq<char>, response: seq<char>, c: char, rest: seq<char>)
    requires |b| == TempSize && StatusLine(response)
    requires IsDigitOf(c, 10) && (rest == [] || !IsDigitOf(rest[0], 10))
    ensures ResponseCodeAsWritten(ResponseCount(response), Received(b, response), [c] + rest)
      == 10 * StatusCode(response) + DigitValue(c)
  {
    ReceivedCode(b, response);
    AtoiCodeAndStray(response[9..12], c, rest);
  }

  /** A "HTTP/1.1 200 OK" reply with a '0' in the byte never set gives 2000
      as written, 200 corrected. */
  lemma StrayZeroExample()
    ensures ResponseCodeAsWritten(ResponseCount("HTTP/1.1 200 OK"), Received(EmptyTemp(), "HTTP/1.1 200 OK"), "0") == 2000
    ensures IntendedResponseCode(ResponseCount("HTTP/1.1 200 OK"), Received(EmptyTemp(), "HTTP/1.1 200 OK")) == 200
  {
    var r := "HTTP/1.1 200 OK";
    assert r[..9] == "HTTP/1.1 " && r[9..12] == "200";
    assert StatusLine(r);
    assert ParseDigits("200", 10) == 200 by {
      assert "200"[..2] == "20" && "20"[..1] == "2" && "2"[..0] == [];
    }
    StrayDigitScalesCode(EmptyTemp(), r, '0', []);
    assert "0" == ['0'] + [];
    IntendedReadsStatus(EmptyTemp(), r);
  }

  /** With nothing read both rules give 504. */
  lemma NoReplyIs504(t: seq<char>, stray: seq<char>)
    requires |t| == TempSize
    ensures ResponseCodeAsWritten(0, t, stray) == 504 && IntendedResponseCode(0, t) == 504
  {
  }
}
