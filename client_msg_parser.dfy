/**
 * The client message parser: the base64 payload of a client message is
 * decoded and, except for a WS-Man reply, read as the device's JSON payload
 * whose byte-array `uuid` becomes the textual GUID. Line references are to
 * src/utils/ClientMsgJsonParser.ts.
 */
module Parser {
  import opened Wrappers
  import opened Wire

  const MISSING_PAYLOAD: string := "Missing payload"
  const PARSE_FAILED: string := "Failed to parse client message payload. "
  const INVALID_PAYLOAD: string := "Invalid payload from client"
  /** The TypeError raised by reading `client` of a payload that is JSON `null` */
  const NULL_PAYLOAD: string := "Cannot read property 'client' of null"
  /** The RangeError raised by a buffer read past the end of the uuid bytes */
  const OUT_OF_BOUNDS: string := "Attempt to access memory outside buffer bounds"

  // ---------------------------------------------------------------------------
  // Zero padding (lines 71-81)
  // ---------------------------------------------------------------------------

  /** `n` zeros, none when `n` is not positive */
  function Zeros(n: int): (r: string)
    ensures |r| == if n > 0 then n else 0
    ensures forall i :: 0 <= i < |r| ==> r[i] == '0'
  {
    if n <= 0 then "" else Zeros(n - 1) + "0"
  }

  /** `s` with zeros in front up to `len` characters; never shortened */
  function LeftPad(s: string, len: int): (r: string)
    ensures |r| == if len > |s| then len else |s|
    ensures r[|r| - |s|..] == s
    ensures forall i :: 0 <= i < |r| - |s| ==> r[i] == '0'
  {
    Zeros(len - |s|) + s
  }

  /** Padding a string that ends in `c` is padding the rest one shorter */
  lemma LeftPadLast(s: string, c: char, len: int)
    ensures LeftPad(s + [c], len) == LeftPad(s, len - 1) + [c]
  {
    assert Zeros(len - |s + [c]|) == Zeros(len - 1 - |s|);
  }

  /** Lines 71-81: `null` when no length is given, otherwise `str` (or "" for
      a `null` one) with zeros in front up to `len` characters */
  method ZeroLeftPad(str: Option<string>, len: Option<int>) returns (r: Option<string>)
    ensures r.None? <==> len.None?
    ensures r.Some? ==> r.value == LeftPad(if str.Some? then str.value else "", len.value)
  {
    if len.None? {
      return None;
    }
    var s := if str.Some? then str.value else "";
    var zlp := "";
    var i := 0;
    while i < len.value - |s|
      invariant 0 <= i && (i == 0 || i <= len.value - |s|)
      invariant zlp == Zeros(i)
      decreases len.value - |s| - i
    {
      zlp := zlp + "0";
      i := i + 1;
    }
    assert zlp == Zeros(len.value - |s|);
    r := Some(zlp + s);
  }

  // ---------------------------------------------------------------------------
  // Hexadecimal text
  // ---------------------------------------------------------------------------

  /** A lower-case hexadecimal digit */
  predicate IsHexDigit(c: char)
  {
    '0' <= c <= '9' || 'a' <= c <= 'f'
  }

  /** The lower-case digit of `d` */
  function Digit(d: nat): (c: char)
    requires d < 16
    ensures IsHexDigit(c)
  {
    if d < 10 then ('0' as int + d) as char else ('a' as int + d - 10) as char
  }

  /** The value of a hexadecimal digit */
  function DigitValue(c: char): nat
  {
    if '0' <= c <= '9' then c as int - '0' as int
    else if 'a' <= c <= 'f' then c as int - 'a' as int + 10
    else 0
  }

  function Pow16(k: nat): (r: nat)
    ensures r >= 1
  {
    if k == 0 then 1 else 16 * Pow16(k - 1)
  }

  /** `n.toString(16)`: lower-case digits, no leading zeros, "0" for zero */
  function Hex(n: nat): (r: string)
    ensures |r| >= 1 && forall i :: 0 <= i < |r| ==> IsHexDigit(r[i])
    ensures |r| > 1 ==> r[0] != '0'
  {
    if n < 16 then [Digit(n)] else Hex(n / 16) + [Digit(n % 16)]
  }

  /** The value of a string of hexadecimal digits */
  function HexValue(s: string): nat
  {
    if s == [] then 0
    else 16 * HexValue(s[..|s| - 1]) + DigitValue(s[|s| - 1])
  }

  /** Hex is exact: reading its digits back gives the number */
  lemma {:induction false} HexRoundTrip(n: nat)
    ensures HexValue(Hex(n)) == n
    decreases n
  {
    if n >= 16 {
      HexRoundTrip(n / 16);
      var h := Hex(n);
      assert h == Hex(n / 16) + [Digit(n % 16)];
      assert h[..|h| - 1] == Hex(n / 16);
      assert HexValue(h) == 16 * HexValue(Hex(n / 16)) + DigitValue(Digit(n % 16));
    } else {
      assert Hex(n)[..0] == [];
    }
  }

  /** The last `k` hexadecimal digits of `n`, leading zeros included */
  function Fixed(n: nat, k: nat): (r: string)
    ensures |r| == k && forall i :: 0 <= i < k ==> IsHexDigit(r[i])
  {
    if k == 0 then "" else Fixed(n / 16, k - 1) + [Digit(n % 16)]
  }

  /** The `k` digits of zero */
  lemma {:induction false} FixedZero(k: nat)
    ensures Fixed(0, k) == Zeros(k)
  {
    if k > 0 {
      FixedZero(k - 1);
    }
  }

  /** `n.toString(16)` padded to `k` digits is exactly the `k` digits of `n`
      when `n` fits in them */
  lemma {:induction false} PaddedHexIsFixed(n: nat, k: nat)
    requires k >= 1 && n < Pow16(k)
    ensures LeftPad(Hex(n), k) == Fixed(n, k)
    decreases n
  {
    if n < 16 {
      FixedZero(k - 1);
      assert n / 16 == 0 && n % 16 == n;
      calc {
        Fixed(n, k);
        Fixed(0, k - 1) + [Digit(n)];
        Zeros(k - 1) + Hex(n);
        LeftPad(Hex(n), k);
      }
    } else {
      assert Pow16(1) == 16;
      assert k >= 2;
      assert n / 16 < Pow16(k - 1);
      PaddedHexIsFixed(n / 16, k - 1);
      LeftPadLast(Hex(n / 16), Digit(n % 16), k);
    }
  }

  /** The `k` digits of `n = a + 256 * b`, for a byte `a`, are the `k - 2`
      of `b` followed by the two of `a` */
  lemma ByteSplit(n: nat, k: nat, a: byte, b: nat)
    requires n == a + 256 * b && k >= 2
    ensures Fixed(n, k) == Fixed(b, k - 2) + Fixed(a, 2)
  {
    assert n / 16 == a / 16 + 16 * b && n % 16 == a % 16;
    assert (a / 16 + 16 * b) / 16 == b && (a / 16 + 16 * b) % 16 == a / 16;
    assert a / 16 / 16 == 0 && (a / 16) % 16 == a / 16;
    calc {
      Fixed(n, k);
      Fixed(a / 16 + 16 * b, k - 1) + [Digit(a % 16)];
      (Fixed(b, k - 2) + [Digit(a / 16)]) + [Digit(a % 16)];
      Fixed(b, k - 2) + ([Digit(a / 16)] + [Digit(a % 16)]);
      { assert Fixed(a, 2) == Fixed(a / 16, 1) + [Digit(a % 16)] == ([] + [Digit(a / 16)]) + [Digit(a % 16)]; }
      Fixed(b, k - 2) + Fixed(a, 2);
    }
  }

  lemma Pow16Values()
    ensures Pow16(4) == 65536 && Pow16(8) == 4294967296
  {
    assert Pow16(2) == 256;
    assert Pow16(4) == 65536;
  }

  /** One byte as two lower-case hexadecimal digits */
  function ByteHex(b: byte): (r: string)
    ensures |r| == 2
  {
    Fixed(b, 2)
  }

  /** `buffer.toString("hex")` */
  function BytesHex(bs: seq<byte>): (r: string)
    ensures |r| == 2 * |bs| && forall i :: 0 <= i < |r| ==> IsHexDigit(r[i])
    ensures forall i :: 0 <= i < |bs| ==> r[2 * i..2 * i + 2] == ByteHex(bs[i])
  {
    if bs == [] then ""
    else
      var r := ByteHex(bs[0]) + BytesHex(bs[1..]);
      assert forall i :: 1 <= i < |bs| ==> r[2 * i..2 * i + 2] == BytesHex(bs[1..])[2 * (i - 1)..2 * (i - 1) + 2];
      r
  }

  // ---------------------------------------------------------------------------
  // The GUID (lines 83-93)
  // ---------------------------------------------------------------------------

  /** `buf.readUInt32LE(at)` */
  function UInt32LE(bs: seq<byte>, at: nat): nat
    requires at + 4 <= |bs|
  {
    bs[at] as int + 256 * (bs[at + 1] as int + 256 * (bs[at + 2] as int + 256 * bs[at + 3] as int))
  }

  /** `buf.readUInt16LE(at)` */
  function UInt16LE(bs: seq<byte>, at: nat): nat
    requires at + 2 <= |bs|
  {
    bs[at] as int + 256 * bs[at + 1] as int
  }

  /** `buf.readUInt16BE(at)` */
  function UInt16BE(bs: seq<byte>, at: nat): nat
    requires at + 2 <= |bs|
  {
    256 * bs[at] as int + bs[at + 1] as int
  }

  /** Lines 85-90: the GUID text of the uuid bytes; a buffer of fewer than ten
      bytes fails on the first read past its end */
  function UuidText(uuid: seq<byte>): Result<string, Error>
  {
    if |uuid| < 10 then Failure(OtherError(OUT_OF_BOUNDS))
    else Success(LeftPad(Hex(UInt32LE(uuid, 0)), 8) + "-" + LeftPad(Hex(UInt16LE(uuid, 4)), 4) + "-"
                 + LeftPad(Hex(UInt16LE(uuid, 6)), 4) + "-" + LeftPad(Hex(UInt16BE(uuid, 8)), 4) + "-"
                 + LeftPad(BytesHex(uuid[10..]), 12))
  }

  /** Lines 83-93 */
  method GetUUID(uuid: seq<byte>) returns (r: Result<string, Error>)
    ensures r == UuidText(uuid)
  {
    if |uuid| < 10 {
      return Failure(OtherError(OUT_OF_BOUNDS));
    }
    var g1 := ZeroLeftPad(Some(Hex(UInt32LE(uuid, 0))), Some(8));
    var g2 := ZeroLeftPad(Some(Hex(UInt16LE(uuid, 4))), Some(4));
    var g3 := ZeroLeftPad(Some(Hex(UInt16LE(uuid, 6))), Some(4));
    var g4 := ZeroLeftPad(Some(Hex(UInt16BE(uuid, 8))), Some(4));
    var g5 := ZeroLeftPad(Some(BytesHex(uuid[10..])), Some(12));
    r := Success(g1.value + "-" + g2.value + "-" + g3.value + "-" + g4.value + "-" + g5.value);
  }

  /** The GUID text of 16 bytes in the SMBIOS system UUID byte order that
      Intel AMT reports: the first three fields are stored little-endian and
      so appear byte reversed, the last two in order */
  function GuidLayout(u: seq<byte>): (r: string)
    requires |u| == 16
  {
    var g1 := ByteHex(u[3]) + ByteHex(u[2]) + ByteHex(u[1]) + ByteHex(u[0]);
    var g2 := ByteHex(u[5]) + ByteHex(u[4]);
    var g3 := ByteHex(u[7]) + ByteHex(u[6]);
    var g4 := ByteHex(u[8]) + ByteHex(u[9]);
    var g5 := BytesHex(u[10..]);
    g1 + "-" + g2 + "-" + g3 + "-" + g4 + "-" + g5
  }

  /** A 16-bit read `n` is the two bytes' digits, high byte first */
  lemma Hex16(n: nat, hi: byte, lo: byte)
    requires n == lo + 256 * hi
    ensures LeftPad(Hex(n), 4) == ByteHex(hi) + ByteHex(lo)
  {
    Pow16Values();
    PaddedHexIsFixed(n, 4);
    ByteSplit(n, 4, lo, hi);
  }

  /** A 32-bit little-endian read `n` is the four bytes' digits, last byte first */
  lemma Hex32(n: nat, b0: byte, b1: byte, b2: byte, b3: byte)
    requires n == b0 + 256 * (b1 + 256 * (b2 + 256 * b3))
    ensures LeftPad(Hex(n), 8) == ByteHex(b3) + ByteHex(b2) + ByteHex(b1) + ByteHex(b0)
  {
    Pow16Values();
    var hi: nat := b2 + 256 * b3;
    var mid: nat := b1 + 256 * hi;
    assert n == b0 + 256 * mid;
    PaddedHexIsFixed(n, 8);
    ByteSplit(n, 8, b0, mid);
    ByteSplit(mid, 6, b1, hi);
    ByteSplit(hi, 4, b2, b3);
  }

  /** Five groups of hexadecimal digits of 8, 4, 4, 4 and 12 characters
      joined by hyphens have the hyphens exactly at 8, 13, 18 and 23 */
  lemma GroupsJoined(g1: string, g2: string, g3: string, g4: string, g5: string)
    requires |g1| == 8 && |g2| == 4 && |g3| == 4 && |g4| == 4 && |g5| == 12
    requires forall i :: 0 <= i < 8 ==> IsHexDigit(g1[i])
    requires forall i :: 0 <= i < 4 ==> IsHexDigit(g2[i]) && IsHexDigit(g3[i]) && IsHexDigit(g4[i])
    requires forall i :: 0 <= i < 12 ==> IsHexDigit(g5[i])
    ensures var r := g1 + "-" + g2 + "-" + g3 + "-" + g4 + "-" + g5;
            && |r| == 36
            && forall i :: 0 <= i < 36 ==>
                 (r[i] == '-' <==> i == 8 || i == 13 || i == 18 || i == 23) && (r[i] != '-' ==> IsHexDigit(r[i]))
  {
    var r := g1 + "-" + g2 + "-" + g3 + "-" + g4 + "-" + g5;
    forall i | 0 <= i < 36
      ensures (r[i] == '-' <==> i == 8 || i == 13 || i == 18 || i == 23) && (r[i] != '-' ==> IsHexDigit(r[i]))
    {
      if i < 8 {
        assert r[i] == g1[i];
      } else if i == 8 || i == 13 || i == 18 || i == 23 {
      } else if i < 13 {
        assert r[i] == g2[i - 9];
      } else if i < 18 {
        assert r[i] == g3[i - 14];
      } else if i < 23 {
        assert r[i] == g4[i - 19];
      } else {
        assert r[i] == g5[i - 24];
      }
    }
  }

  /** For the 16 bytes of a GUID, the text has the byte order of GuidLayout:
      36 characters, hyphens exactly at 8, 13, 18 and 23 and lower-case
      hexadecimal digits everywhere else */
  lemma UuidOfSixteenBytes(u: seq<byte>)
    requires |u| == 16
    ensures UuidText(u) == Success(GuidLayout(u))
    ensures |GuidLayout(u)| == 36
    ensures forall i :: 0 <= i < 36 ==>
              (GuidLayout(u)[i] == '-' <==> i == 8 || i == 13 || i == 18 || i == 23)
              && (GuidLayout(u)[i] != '-' ==> IsHexDigit(GuidLayout(u)[i]))
  {
    var g1 := ByteHex(u[3]) + ByteHex(u[2]) + ByteHex(u[1]) + ByteHex(u[0]);
    var g2 := ByteHex(u[5]) + ByteHex(u[4]);
    var g3 := ByteHex(u[7]) + ByteHex(u[6]);
    var g4 := ByteHex(u[8]) + ByteHex(u[9]);
    var g5 := BytesHex(u[10..]);
    Hex32(UInt32LE(u, 0), u[0], u[1], u[2], u[3]);
    Hex16(UInt16LE(u, 4), u[5], u[4]);
    Hex16(UInt16LE(u, 6), u[7], u[6]);
    Hex16(UInt16BE(u, 8), u[8], u[9]);
    assert LeftPad(g5, 12) == g5;
    GroupsJoined(g1, g2, g3, g4, g5);
  }

  // ---------------------------------------------------------------------------
  // The payload (lines 56-69) and the message (lines 38-49)
  // ---------------------------------------------------------------------------

  /** The device payload as JSON.parse returns it: a missing or falsy string
      field is "", a missing `uuid` is None (an array, even an empty one, is
      truthy) */
  datatype RawPayload = RawPayload(client: string, ver: string, build: string, uuid: Option<seq<byte>>,
                                   digestRealm: string)

  /** A client message as it arrives: `method` (`kind` here) and the base64 `payload` */
  datatype RawClientMsg = RawClientMsg(kind: string, payload: string)

  /** Lines 56-69 on `text`, with `json` standing for JSON.parse: what it
      throws (its message), JSON `null` (None) or an object */
  function PayloadOf(text: string, json: string -> Result<Option<RawPayload>, string>): (r: Result<DevicePayload, Error>)
    ensures json(text).Failure? ==> r == Failure(RPSError(PARSE_FAILED + json(text).error))
    ensures r.Success? <==>
              && json(text).Success? && json(text).value.Some?
              && var p := json(text).value.value;
                 p.client != "" && p.ver != "" && p.build != "" && p.uuid.Some? && |p.uuid.value| >= 10
    ensures r.Success? ==>
              var p := json(text).value.value;
              r.value == DevicePayload(p.client, p.ver, p.build, UuidText(p.uuid.value).value, p.digestRealm)
    ensures (&& json(text).Success? && json(text).value.Some?
             && var p := json(text).value.value;
                p.client == "" || p.ver == "" || p.build == "" || p.uuid.None?) ==> r == Failure(RPSError(INVALID_PAYLOAD))
  {
    match json(text)
    case Failure(message) => Failure(RPSError(PARSE_FAILED + message))
    case Success(None) => Failure(OtherError(NULL_PAYLOAD))
    case Success(Some(p)) =>
      if p.client != "" && p.ver != "" && p.build != "" && p.uuid.Some? then
        match UuidText(p.uuid.value)
        case Failure(e) => Failure(e)
        case Success(uuid) => Success(DevicePayload(p.client, p.ver, p.build, uuid, p.digestRealm))
      else Failure(RPSError(INVALID_PAYLOAD))
  }

  /** Lines 56-69 */
  method ParsePayload(text: string, json: string -> Result<Option<RawPayload>, string>)
    returns (r: Result<DevicePayload, Error>)
    ensures r == PayloadOf(text, json)
  {
    var payload := json(text);
    if payload.Failure? {
      return Failure(RPSError(PARSE_FAILED + payload.error));
    }
    if payload.value.None? {
      return Failure(OtherError(NULL_PAYLOAD));
    }
    var p := payload.value.value;
    if p.client != "" && p.ver != "" && p.build != "" && p.uuid.Some? {
      var uuid := GetUUID(p.uuid.value);
      if uuid.Failure? {
        return Failure(uuid.error);
      }
      r := Success(DevicePayload(p.client, p.ver, p.build, uuid.value, p.digestRealm));
    } else {
      r := Failure(RPSError(INVALID_PAYLOAD));
    }
  }

  /** Lines 38-49 on `message`, with `decode64` the base64 decoder and `json`
      JSON.parse */
  function Converted(message: RawClientMsg, decode64: string -> string,
                     json: string -> Result<Option<RawPayload>, string>): (r: Result<ClientMsg, Error>)
    // a payload that decodes to nothing is refused
    ensures decode64(message.payload) == "" ==> r == Failure(RPSError(MISSING_PAYLOAD))
    // a WS-Man reply is kept as text, to be split into its status line
    ensures message.kind == RESPONSE && decode64(message.payload) != "" ==>
              r == Success(ClientMsg(RESPONSE, Text(decode64(message.payload))))
    // any other message succeeds exactly when its device payload parses
    ensures message.kind != RESPONSE && decode64(message.payload) != "" ==>
              && (r.Success? <==> PayloadOf(decode64(message.payload), json).Success?)
              && (r.Success? ==> r.value == ClientMsg(message.kind, Device(PayloadOf(decode64(message.payload), json).value)))
              && (r.Failure? ==> r.error == PayloadOf(decode64(message.payload), json).error)
  {
    var payload := decode64(message.payload);
    if payload == "" then Failure(RPSError(MISSING_PAYLOAD))
    else if message.kind == RESPONSE then Success(ClientMsg(message.kind, Text(payload)))
    else
      match PayloadOf(payload, json)
      case Failure(e) => Failure(e)
      case Success(p) => Success(ClientMsg(message.kind, Device(p)))
  }

  /** Lines 38-49 */
  method ConvertClientMsg(message: RawClientMsg, decode64: string -> string,
                          json: string -> Result<Option<RawPayload>, string>)
    returns (r: Result<ClientMsg, Error>)
    ensures r == Converted(message, decode64, json)
  {
    var payload := decode64(message.payload);
    if payload == "" {
      return Failure(RPSError(MISSING_PAYLOAD));
    }
    if message.kind != RESPONSE {
      var device := ParsePayload(payload, json);
      if device.Failure? {
        return Failure(device.error);
      }
      r := Success(ClientMsg(message.kind, Device(device.value)));
    } else {
      r := Success(ClientMsg(message.kind, Text(payload)));
    }
  }
}
