/** The Hologram publisher: it keeps a registration token, prints the
    sensor-data JSON and the request around it to a stream, and publishes a
    compact payload to Hologram's cloud socket, reading the status code back. */
module Hologram {
  import opened Text
  import opened HologramFormat

  /** The part of the logger the publisher reads; the logger itself is not
      part of this model. `markedIsoTime` is what
      `formatDateTime_ISO8601(markedEpochTime)` returns. */
  class Logger {
    var samplingFeatureUUID: string
    var markedIsoTime: string
    var variables: seq<VarReading>

    constructor (isoTime: string, variables: seq<VarReading>)
      ensures markedIsoTime == isoTime && this.variables == variables
    {
      markedIsoTime := isoTime;
      this.variables := variables;
    }
  }

  /** An Arduino stream, seen as the text printed to it. */
  class Stream {
    var text: string

    constructor ()
      ensures text == []
    {
      text := [];
    }

    method Print(s: string)
      modifies this
      ensures text == old(text) + s
    {
      text := text + s;
    }
  }

  datatype ClientEvent = Opened(host: string, port: nat) | Closed

  /** A TCP client. Whether the connection is accepted and the bytes that
      arrive within the response wait are fixed in advance. */
  class Client {
    const accepts: bool
    const reply: seq<char>
    var sent: string
    var log: seq<ClientEvent>

    constructor (accepts: bool, reply: seq<char>)
      ensures this.accepts == accepts && this.reply == reply && sent == [] && log == []
    {
      this.accepts := accepts;
      this.reply := reply;
      sent := [];
      log := [];
    }

    method Connect(host: string, port: nat) returns (ok: bool)
      modifies this`log
      ensures ok == accepts && log == old(log) + [Opened(host, port)]
    {
      ok := accepts;
      log := log + [Opened(host, port)];
    }

    method Write(s: string)
      modifies this`sent
      ensures sent == old(sent) + s
    {
      sent := sent + s;
    }

    method Close()
      modifies this`log
      ensures log == old(log) + [Closed]
    {
      log := log + [Closed];
    }

    /** `readBytes(buf, 12)`: stores up to 12 arrived bytes at the start of
        the buffer and returns how many. */
    method ReadBytes(buf: array<char>) returns (n: nat)
      requires buf.Length == TempSize
      modifies buf
      ensures n == ResponseCount(reply)
      ensures buf[..] == Received(old(buf[..]), reply)
    {
      ghost var b := buf[..];
      n := if |reply| < 12 then |reply| else 12;
      var i := 0;
      while i < n
        invariant 0 <= i <= n
        invariant forall j :: 0 <= j < TempSize ==> buf[j] == if j < i then reply[j] else b[j]
      {
        buf[i] := reply[i];
        i := i + 1;
      }
      forall j | 0 <= j < TempSize
        ensures buf[..][j] == Received(b, reply)[j]
      {
        assert Received(b, reply)[j] == if j < ResponseCount(reply) then reply[j] else b[j];
      }
    }
  }

  /** `s.toCharArray(buf, 37)`: Arduino's `getBytes`, a `strncpy` of at most
      36 characters followed by a terminator. */
  method ToCharArray(buf: array<char>, s: string)
    requires buf.Length == TempSize
    modifies buf
    ensures buf[..] == CopyImage(old(buf[..]), s)
  {
    var n := if |s| <= TempSize - 1 then |s| else TempSize - 1;
    var ended := false;
    var i := 0;
    while i < n
      invariant 0 <= i <= n
      invariant ended == (Nul in s[..i])
      invariant forall j :: 0 <= j < TempSize ==>
        buf[j] == if j < i then (if Nul in s[..j] then Nul else s[j]) else old(buf[j])
    {
      assert s[..i + 1] == s[..i] + [s[i]];
      buf[i] := if ended then Nul else s[i];
      ended := ended || s[i] == Nul;
      i := i + 1;
    }
    buf[n] := Nul;
    assert forall j :: 0 <= j < TempSize ==> buf[..][j] == CopyImage(old(buf[..]), s)[j];
  }

  /** A call into the generic data publisher's `begin`, with the token the
      publisher held at that moment and the client handed on (null for the
      overload without one). */
  datatype BaseCall = BaseBegin(tokenThen: string, client: Client?)

  class HologramPublisher {
    var registrationToken: string
    /** The logger and the client the generic data publisher holds. */
    var baseLogger: Logger?
    var baseClient: Client?
    var baseCalls: seq<BaseCall>

    /** The publisher without a logger or a client yet. */
    constructor ()
      ensures baseLogger == null && baseClient == null && baseCalls == []
    {
      baseLogger := null;
      baseClient := null;
      baseCalls := [];
    }

    /** The two constructors taking a logger, with the client handed on to the
        base class (null for the overload without one). */
    constructor WithLogger(logger: Logger, inClient: Client?)
      ensures baseLogger == logger && baseClient == inClient && baseCalls == []
    {
      baseLogger := logger;
      baseClient := inClient;
      baseCalls := [];
    }

    /** The two constructors taking a logger and a token, with the client
        handed on to the base class (null for the overload without one); the
        token and the logger's sampling feature are set. */
    constructor WithToken(logger: Logger, inClient: Client?, token: string, samplingFeatureUUID: string)
      modifies logger`samplingFeatureUUID
      ensures registrationToken == token && baseLogger == logger && baseClient == inClient && baseCalls == []
      ensures logger.samplingFeatureUUID == samplingFeatureUUID
    {
      baseLogger := logger;
      baseClient := inClient;
      baseCalls := [];
      registrationToken := token;
      logger.samplingFeatureUUID := samplingFeatureUUID;
    }

    /** `setToken`: the token replaced, nothing else changed. */
    method SetToken(token: string)
      modifies this`registrationToken
      ensures registrationToken == token
    {
      registrationToken := token;
    }

    /** `begin(baseLogger, inClient, token, uuid)`: the token is set before the
        base class's begin (which attaches the logger and the client) runs, and the logger's
        sampling feature is set after. */
    method BeginWithClient(logger: Logger, inClient: Client, token: string, samplingFeatureUUID: string)
      modifies this`registrationToken, this`baseLogger, this`baseClient, this`baseCalls, logger`samplingFeatureUUID
      ensures registrationToken == token && baseLogger == logger && baseClient == inClient
      ensures baseCalls == old(baseCalls) + [BaseBegin(token, inClient)]
      ensures logger.samplingFeatureUUID == samplingFeatureUUID
    {
      SetToken(token);
      baseCalls := baseCalls + [BaseBegin(registrationToken, inClient)];
      baseLogger := logger;
      baseClient := inClient;
      baseLogger.samplingFeatureUUID := samplingFeatureUUID;
    }

    /** `begin(baseLogger, token, uuid)`: the same without a client. */
    method Begin(logger: Logger, token: string, samplingFeatureUUID: string)
      modifies this`registrationToken, this`baseLogger, this`baseCalls, logger`samplingFeatureUUID
      ensures registrationToken == token && baseLogger == logger
      ensures baseCalls == old(baseCalls) + [BaseBegin(token, null)]
      ensures logger.samplingFeatureUUID == samplingFeatureUUID
    {
      SetToken(token);
      baseCalls := baseCalls + [BaseBegin(registrationToken, null)];
      baseLogger := logger;
      baseLogger.samplingFeatureUUID := samplingFeatureUUID;
    }

    /** `calculateJsonSize()`: the closed formula, in `uint16_t`. The loop
        counter is a `uint8_t`, so the logger holds at most 255 variables. */
    method CalculateJsonSize() returns (jsonLength: nat)
      requires baseLogger != null && |baseLogger.variables| <= 255
      ensures jsonLength == JsonSizeAsWritten(baseLogger.variables)
    {
      var vs := baseLogger.variables;
      jsonLength := 12;                      // {"deviceid":
      jsonLength := AddU16(jsonLength, 6);   // six-digit device id
      jsonLength := AddU16(jsonLength, 10);  // ,"body":"
      jsonLength := AddU16(jsonLength, 25);  // the time stamp
      jsonLength := AddU16(jsonLength, 2);   // ",
      var i := 0;
      while i < |vs|
        invariant 0 <= i <= |vs|
        invariant jsonLength == (55 + SizeAcc(vs, i)) % U16
      {
        ghost var before := 55 + SizeAcc(vs, i);
        jsonLength := AddU16(jsonLength, 1);
        ModAdd(before, 1);
        jsonLength := AddU16(jsonLength, 36);
        ModAdd(before + 1, 36);
        jsonLength := AddU16(jsonLength, 2);
        ModAdd(before + 37, 2);
        jsonLength := AddU16(jsonLength, |vs[i].value|);
        ModAdd(before + 39, |vs[i].value|);
        if i + 1 != |vs| {
          jsonLength := AddU16(jsonLength, 1);
          ModAdd(before + 39 + |vs[i].value|, 1);
        }
        i := i + 1;
      }
      ModAdd(55 + SizeAcc(vs, |vs|), 1);
      jsonLength := AddU16(jsonLength, 1);  // }
      SizeAccTotal(vs);
    }

    /** `printSensorDataJSON(stream)`. */
    method PrintSensorDataJson(stream: Stream)
      requires baseLogger != null && |baseLogger.variables| <= 255
      modifies stream
      ensures stream.text == old(stream.text) + SensorDataJson(baseLogger.markedIsoTime, baseLogger.variables)
    {
      var vs := baseLogger.variables;
      ghost var t0 := stream.text;
      PrintJsonHead(stream, baseLogger.markedIsoTime);
      ghost var head := t0 + JsonHead(baseLogger.markedIsoTime);
      var i := 0;
      while i < |vs|
        invariant 0 <= i <= |vs|
        invariant stream.text == head + Joined(VarJsons(vs), i)
      {
        JoinedStep(VarJsons(vs), i, head);
        PrintVarJson(stream, vs[i], i + 1 == |vs|);
        i := i + 1;
      }
      Regroup(t0, JsonHead(baseLogger.markedIsoTime), Joined(VarJsons(vs), |vs|));
      stream.Print("}");
      Regroup(t0, JsonHead(baseLogger.markedIsoTime) + Joined(VarJsons(vs), |vs|), "}");
    }

    /** `printEnviroDIYRequest(stream)`: the headers with the token and the
        announced size, then the JSON. */
    method PrintEnviroDIYRequest(stream: Stream, h: BaseHeaders)
      requires baseLogger != null && |baseLogger.variables| <= 255
      modifies stream
      ensures stream.text == old(stream.text)
        + RequestText(h, registrationToken, JsonSizeAsWritten(baseLogger.variables),
            SensorDataJson(baseLogger.markedIsoTime, baseLogger.variables))
    {
      ghost var t0 := stream.text;
      PrintRequestHead(stream, h, registrationToken);
      var size := CalculateJsonSize();
      stream.Print(Decimal(size));
      stream.Print(ContentTypeHeader);
      PrintSensorDataJson(stream);
      Regroup(t0, RequestHead(h, registrationToken), Decimal(size));
      Regroup(t0, RequestHead(h, registrationToken) + Decimal(size), ContentTypeHeader);
      Regroup(t0, RequestHead(h, registrationToken) + Decimal(size) + ContentTypeHeader,
        SensorDataJson(baseLogger.markedIsoTime, baseLogger.variables));
    }

    /** The payload built in the transmit buffer, every piece copied through
        the tempBuffer. The payload is built whole here; the source sends the
        buffer out whenever it runs low, which gives the same text only if
        each flush writes the buffer's C string and empties it, and every
        item fits in the space left. */
    method BuildPayload(tempBuffer: array<char>) returns (txBuffer: string)
      requires baseLogger != null && |baseLogger.variables| <= 255
      requires tempBuffer.Length == TempSize && tempBuffer[..] == EmptyTemp()
      modifies tempBuffer
      ensures txBuffer == Payload(registrationToken, baseLogger.markedIsoTime, baseLogger.variables)
      ensures tempBuffer[..] == TempAfter(Copied(baseLogger.markedIsoTime, baseLogger.variables, |baseLogger.variables|))
    {
      var vs := baseLogger.variables;
      var iso := baseLogger.markedIsoTime;
      txBuffer := PayloadStart(tempBuffer, registrationToken, iso);
      ghost var head := txBuffer;
      var i := 0;
      while i < |vs|
        invariant 0 <= i <= |vs|
        invariant txBuffer == head + Joined(VarItems(vs), i)
        invariant tempBuffer[..] == TempAfter(Copied(iso, vs, i))
      {
        var item := CopyVariable(tempBuffer, vs[i]);
        JoinedStep(VarItems(vs), i, head);
        txBuffer := txBuffer + item;
        if i + 1 != |vs| {
          txBuffer := txBuffer + ",";
        }
        TempAfterStep(iso, vs, i);
        i := i + 1;
      }
      txBuffer := txBuffer + "\"}";
    }

    /** `publishData(outClient)`: connect, send the payload, read the first
        12 bytes of the reply, and take the status code from characters 9 to
        11 of the tempBuffer. `stray` is what the never-set
        `responseCode_char[3]` and the bytes after it hold. */
    method PublishData(client: Client, stray: seq<char>) returns (responseCode: int)
      requires baseLogger != null && |baseLogger.variables| <= 255
      modifies client`sent, client`log
      ensures client.sent == old(client.sent)
        + (if client.accepts then Payload(registrationToken, baseLogger.markedIsoTime, baseLogger.variables) else [])
      ensures client.log == old(client.log) + [Opened(HologramHost, HologramPort)] + (if client.accepts then [Closed] else [])
      ensures responseCode == ResponseCodeAsWritten(
        if client.accepts then ResponseCount(client.reply) else 0,
        Received(TempAfter(Copied(baseLogger.markedIsoTime, baseLogger.variables, |baseLogger.variables|)), client.reply),
        stray)
    {
      var tempBuffer := new char[TempSize](_ => Nul);
      assert tempBuffer[..] == EmptyTemp();
      var didRespond := 0;
      var connected := client.Connect(HologramHost, HologramPort);
      if connected {
        var txBuffer := BuildPayload(tempBuffer);
        client.Write(txBuffer);
        didRespond := client.ReadBytes(tempBuffer);
        client.Close();
      }
      if didRespond > 0 {
        var codeChars := [];
        var i := 0;
        while i < 3
          invariant 0 <= i <= 3 && codeChars == tempBuffer[9..9 + i]
        {
          codeChars := codeChars + [tempBuffer[i + 9]];
          i := i + 1;
        }
        responseCode := Int16(Atoi(codeChars + stray));
      } else {
        responseCode := 504;
      }
    }
  }

  /** The JSON up to the first variable. */
  method PrintJsonHead(stream: Stream, isoTime: string)
    modifies stream
    ensures stream.text == old(stream.text) + JsonHead(isoTime)
  {
    ghost var t0 := stream.text;
    stream.Print(DeviceIdTag);
    stream.Print(DeviceId);
    Regroup(t0, DeviceIdTag, DeviceId);
    stream.Print(BodyTag);
    Regroup(t0, DeviceIdTag + DeviceId, BodyTag);
    stream.Print(isoTime);
    Regroup(t0, DeviceIdTag + DeviceId + BodyTag, isoTime);
    stream.Print("\",");
    Regroup(t0, DeviceIdTag + DeviceId + BodyTag + isoTime, "\",");
  }

  /** One variable's `"uuid":value`, and the comma unless it is the last. */
  method PrintVarJson(stream: Stream, v: VarReading, last: bool)
    modifies stream
    ensures !last ==> stream.text == old(stream.text) + VarJson(v) + ","
    ensures last ==> stream.text == old(stream.text) + VarJson(v)
  {
    ghost var t0 := stream.text;
    stream.Print("\"");
    stream.Print(v.uuid);
    Regroup(t0, "\"", v.uuid);
    stream.Print("\":");
    Regroup(t0, "\"" + v.uuid, "\":");
    stream.Print(v.value);
    Regroup(t0, "\"" + v.uuid + "\":", v.value);
    if !last {
      stream.Print(",");
    }
  }

  /** The request headers up to the announced size. */
  method PrintRequestHead(stream: Stream, h: BaseHeaders, token: string)
    modifies stream
    ensures stream.text == old(stream.text) + RequestHead(h, token)
  {
    ghost var t0 := stream.text;
    stream.Print(h.postHeader);
    stream.Print(PostEndpoint);
    Regroup(t0, h.postHeader, PostEndpoint);
    stream.Print(h.httpTag);
    Regroup(t0, h.postHeader + PostEndpoint, h.httpTag);
    stream.Print(h.hostHeader);
    Regroup(t0, h.postHeader + PostEndpoint + h.httpTag, h.hostHeader);
    stream.Print(HologramHost);
    Regroup(t0, h.postHeader + PostEndpoint + h.httpTag + h.hostHeader, HologramHost);
    stream.Print(AuthHeader);
    Regroup(t0, h.postHeader + PostEndpoint + h.httpTag + h.hostHeader + HologramHost, AuthHeader);
    stream.Print(token);
    Regroup(t0, h.postHeader + PostEndpoint + h.httpTag + h.hostHeader + HologramHost + AuthHeader, token);
    stream.Print(ContentLengthHeader);
    Regroup(t0, h.postHeader + PostEndpoint + h.httpTag + h.hostHeader + HologramHost + AuthHeader + token, ContentLengthHeader);
  }

  /** The payload up to the first variable, the time stamp copied through the
      tempBuffer. */
  method PayloadStart(tempBuffer: array<char>, token: string, isoTime: string) returns (txBuffer: string)
    requires tempBuffer.Length == TempSize && tempBuffer[..] == EmptyTemp()
    modifies tempBuffer
    ensures txBuffer == PayloadHead(token, isoTime)
    ensures tempBuffer[..] == TempAfter([isoTime])
  {
    txBuffer := "{\"k\":\"";
    txBuffer := txBuffer + token;
    txBuffer := txBuffer + "\",\"d\":\"";
    txBuffer := txBuffer + "time,";
    ToCharArray(tempBuffer, isoTime);
    CopyImagePiece(EmptyTemp(), isoTime);
    assert [isoTime][..0] == [];
    txBuffer := txBuffer + CString(tempBuffer[..]);
    txBuffer := txBuffer + ",";
  }

  /** One variable's UUID and value copied through the tempBuffer into the
      payload, with the comma between them. */
  method CopyVariable(tempBuffer: array<char>, v: VarReading) returns (item: string)
    requires tempBuffer.Length == TempSize
    modifies tempBuffer
    ensures item == VarItem(v)
    ensures tempBuffer[..] == CopyImage(CopyImage(old(tempBuffer[..]), v.uuid), v.value)
  {
    ghost var b := tempBuffer[..];
    ToCharArray(tempBuffer, v.uuid);
    CopyImagePiece(b, v.uuid);
    item := CString(tempBuffer[..]);
    item := item + ",";
    ghost var b' := tempBuffer[..];
    ToCharArray(tempBuffer, v.value);
    CopyImagePiece(b', v.value);
    item := item + CString(tempBuffer[..]);
  }

  /** Text written piece by piece is the pieces written at once. */
  lemma Regroup(t: string, a: string, b: string)
    ensures t + a + b == t + (a + b)
  {
  }

  /** One more part of a comma-separated list, with its comma unless it is
      the last. */
  lemma JoinedStep(parts: seq<string>, i: nat, head: string)
    requires i < |parts|
    ensures i + 1 != |parts| ==> head + Joined(parts, i + 1) == head + Joined(parts, i) + parts[i] + ","
    ensures i + 1 == |parts| ==> head + Joined(parts, i + 1) == head + Joined(parts, i) + parts[i]
  {
  }

  /** Copying a variable's UUID and then its value through the tempBuffer
      extends the list of copied strings by both. */
  lemma TempAfterStep(iso: string, vs: seq<VarReading>, i: nat)
    requires i < |vs|
    ensures TempAfter(Copied(iso, vs, i + 1))
      == CopyImage(CopyImage(TempAfter(Copied(iso, vs, i)), vs[i].uuid), vs[i].value)
  {
    var p := Copied(iso, vs, i);
    var c := p + [vs[i].uuid, vs[i].value];
    var d := p + [vs[i].uuid];
    assert Copied(iso, vs, i + 1) == c;
    assert c[..|c| - 1] == d && c[|c| - 1] == vs[i].value;
    assert d[..|d| - 1] == p && d[|d| - 1] == vs[i].uuid;
  }
}
