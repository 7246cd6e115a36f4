// http2/frame.v and http2/types.v: the frame codec (RFC 9113 section 4). Writers append to a caller's
// buffer, so each is a function giving the octets it appends; `Encode` is the reference they meet.
module Frames {
  import opened Bytes

  const FRAME_HEADER_LEN := 9
  const DEFAULT_MAX_FRAME_SIZE := 16384
  const LARGEST_MAX_FRAME_SIZE := 16777215
  const DEFAULT_WINDOW_SIZE := 65535
  const MAX_WINDOW := 0x7fff_ffff
  const PREFACE_TAIL: seq<byte> := Ascii("SM\r\n\r\n")

  const FLAG_END_STREAM: byte := 0x01
  const FLAG_ACK: byte := 0x01
  const FLAG_END_HEADERS: byte := 0x04

  // frame types
  const DATA: byte := 0
  const HEADERS: byte := 1
  const PRIORITY: byte := 2
  const RST_STREAM: byte := 3
  const SETTINGS: byte := 4
  const PUSH_PROMISE: byte := 5
  const PING: byte := 6
  const GOAWAY: byte := 7
  const WINDOW_UPDATE: byte := 8
  const CONTINUATION: byte := 9

  // settings identifiers
  const SETTING_HEADER_TABLE_SIZE: u16 := 1
  const SETTING_ENABLE_PUSH: u16 := 2
  const SETTING_MAX_CONCURRENT_STREAMS: u16 := 3
  const SETTING_INITIAL_WINDOW_SIZE: u16 := 4
  const SETTING_MAX_FRAME_SIZE: u16 := 5

  datatype ErrorCode =
    | NoError
    | ProtocolError
    | InternalError
    | FlowControlError
    | SettingsTimeout
    | StreamClosed
    | FrameSizeError
    | RefusedStream
    | Cancel
    | CompressionError
    | ConnectError
    | EnhanceYourCalm
    | InadequateSecurity
    | Http11Required
  {
    function Number(): u32 {
      match this
      case NoError => 0
      case ProtocolError => 1
      case InternalError => 2
      case FlowControlError => 3
      case SettingsTimeout => 4
      case StreamClosed => 5
      case FrameSizeError => 6
      case RefusedStream => 7
      case Cancel => 8
      case CompressionError => 9
      case ConnectError => 10
      case EnhanceYourCalm => 11
      case InadequateSecurity => 12
      case Http11Required => 13
    }
  }

  datatype FrameHeader = FrameHeader(length: nat, typ: byte, flags: byte, id: u31)

  datatype Frame = Frame(typ: byte, flags: byte, id: u31, payload: seq<byte>)

  datatype Setting = Setting(id: u16, val: u32)

  // ----- big-endian integers

  function Join2(a: int, b: int): int { a * 256 + b }

  function Join3(a: int, b: int, c: int): int { Join2(a, b) * 256 + c }

  function Join4(a: int, b: int, c: int, d: int): int { Join3(a, b, c) * 256 + d }

  lemma SplitJoin4(a: byte, b: byte, c: byte, d: byte)
    ensures var n := Join4(a, b, c, d);
            n / 16777216 == a && n / 65536 % 256 == b && n / 256 % 256 == c && n % 256 == d
  {
    var n := Join4(a, b, c, d);
    assert n / 256 == Join3(a, b, c);
    assert n / 65536 == Join2(a, b);
  }

  lemma SplitJoin3(a: byte, b: byte, c: byte)
    ensures var n := Join3(a, b, c);
            n / 65536 % 256 == a && n / 256 % 256 == b && n % 256 == c
  {
    var n := Join3(a, b, c);
    assert n / 256 == Join2(a, b);
    assert n / 65536 == a;
  }

  lemma JoinSplit4(n: u32)
    ensures Join4(n / 16777216, n / 65536 % 256, n / 256 % 256, n % 256) == n
  {
    assert n / 65536 == n / 256 / 256 && n / 16777216 == n / 65536 / 256;
  }

  lemma JoinSplit3(n: nat)
    requires n < 0x100_0000
    ensures Join3(n / 65536 % 256, n / 256 % 256, n % 256) == n
  {
    assert n / 65536 == n / 256 / 256;
  }

  lemma Low3(n: nat)
    ensures Join3(n / 65536 % 256, n / 256 % 256, n % 256) == n % 0x100_0000
  {
    var c, b, a := n % 256, n / 256 % 256, n / 65536 % 256;
    var q := n / 65536 / 256;
    assert n / 65536 == n / 256 / 256;
    assert n == q * 0x100_0000 + Join3(a, b, c);
    DivModUnique(q, 0x100_0000, Join3(a, b, c));
  }

  /** Clearing the reserved bit changes the top octet only. */
  lemma ClearReserved(id: nat)
    ensures Join4(id / 16777216 % 128, id / 65536 % 256, id / 256 % 256, id % 256) == id % 0x8000_0000
  {
    Low3(id);
    var top, low := id / 16777216, id % 16777216;
    var r := top % 128 * 16777216 + low;
    assert id == top / 128 * 0x8000_0000 + r;
    DivModUnique(top / 128, 0x8000_0000, r);
    TopOctet(top % 128, id / 65536 % 256, id / 256 % 256, id % 256);
  }

  lemma TopOctet(a: int, b: int, c: int, d: int)
    ensures Join4(a, b, c, d) == a * 16777216 + Join3(b, c, d)
  {
  }

  function U32Bytes(v: u32): (r: seq<byte>)
    ensures |r| == 4
  {
    [v / 16777216, v / 65536 % 256, v / 256 % 256, v % 256]
  }

  function ReadU32(buf: seq<byte>, pos: nat): u32
    requires pos + 4 <= |buf|
  {
    Join4(buf[pos], buf[pos + 1], buf[pos + 2], buf[pos + 3])
  }

  lemma U32RoundTrip(pre: seq<byte>, v: u32, rest: seq<byte>)
    ensures ReadU32(pre + U32Bytes(v) + rest, |pre|) == v
  {
    JoinSplit4(v);
  }

  // ----- the 9-octet header

  function ParseFrameHeader(data: seq<byte>): Option<FrameHeader> {
    if |data| < FRAME_HEADER_LEN then None
    else Some(FrameHeader(
                Join3(data[0], data[1], data[2]),
                data[3],
                data[4],
                Join4(data[5], data[6], data[7], data[8]) % 0x8000_0000))
  }

  /** The octets `write_frame_header` appends; the reserved bit of the id is written as 0. */
  function FrameHeaderBytes(typ: byte, flags: byte, id: nat, length: nat): (r: seq<byte>)
    ensures |r| == FRAME_HEADER_LEN
  {
    [length / 65536 % 256, length / 256 % 256, length % 256, typ, flags,
     id / 16777216 % 128, id / 65536 % 256, id / 256 % 256, id % 256]
  }

  lemma HeaderRoundTrip(typ: byte, flags: byte, id: nat, length: nat, rest: seq<byte>)
    requires length < 0x100_0000
    ensures ParseFrameHeader(FrameHeaderBytes(typ, flags, id, length) + rest) ==
            Some(FrameHeader(length, typ, flags, id % 0x8000_0000))
  {
    hide Join3, Join4;
    JoinSplit3(length);
    ClearReserved(id);
  }

  lemma IdParsePrint(a: byte, b: byte, c: byte, d: byte)
    ensures var id := Join4(a, b, c, d) % 0x8000_0000;
            id / 16777216 % 128 == a % 128 && id / 65536 % 256 == b && id / 256 % 256 == c && id % 256 == d
  {
    hide Join3, Join4;
    SplitJoin4(a, b, c, d);
    ClearReserved(Join4(a, b, c, d));
    SplitJoin4(a % 128, b, c, d);
  }

  /** Printing a parsed header gives back the octets it was read from, but for the reserved bit. */
  lemma HeaderParsePrint(data: seq<byte>)
    requires |data| >= FRAME_HEADER_LEN
    ensures var h := ParseFrameHeader(data).value;
            FrameHeaderBytes(h.typ, h.flags, h.id, h.length) == data[..9][5 := data[5] % 128]
  {
    hide Join3, Join4;
    SplitJoin3(data[0], data[1], data[2]);
    IdParsePrint(data[5], data[6], data[7], data[8]);
  }

  lemma IdBytesIgnoreReserved(typ: byte, flags: byte, id: nat, length: nat)
    ensures FrameHeaderBytes(typ, flags, id, length) == FrameHeaderBytes(typ, flags, id % 0x8000_0000, length)
  {
    hide Join4;
    ClearReserved(id);
    SplitJoin4(id / 16777216 % 128, id / 65536 % 256, id / 256 % 256, id % 256);
  }

  // ----- whole frames

  predicate Encodable(f: Frame) {
    |f.payload| < 0x100_0000
  }

  function Encode(f: Frame): seq<byte> {
    FrameHeaderBytes(f.typ, f.flags, f.id, |f.payload|) + f.payload
  }

  function EncodeAll(fs: seq<Frame>): seq<byte> {
    if fs == [] then [] else EncodeAll(fs[..|fs| - 1]) + Encode(fs[|fs| - 1])
  }

  /** The peer's reading of a byte stream: consecutive complete frames and nothing else. */
  function ParseAll(data: seq<byte>): Option<seq<Frame>>
    decreases |data|
  {
    if data == [] then Some([])
    else
      match ParseFrameHeader(data)
      case None => None
      case Some(h) =>
        var end := FRAME_HEADER_LEN + h.length;
        if |data| < end then None
        else
          match ParseAll(data[end..])
          case None => None
          case Some(fs) => Some([Frame(h.typ, h.flags, h.id, data[FRAME_HEADER_LEN..end])] + fs)
  }

  lemma ParseEncoded(f: Frame, rest: seq<byte>)
    requires Encodable(f) && ParseAll(rest).Some?
    ensures ParseAll(Encode(f) + rest) == Some([f] + ParseAll(rest).value)
  {
    hide FrameHeaderBytes, ParseFrameHeader;
    var head := FrameHeaderBytes(f.typ, f.flags, f.id, |f.payload|);
    var data := Encode(f) + rest;
    var end := FRAME_HEADER_LEN + |f.payload|;
    assert data == head + (f.payload + rest) by { assert Encode(f) == head + f.payload; }
    HeaderRoundTrip(f.typ, f.flags, f.id, |f.payload|, f.payload + rest);
    assert data[FRAME_HEADER_LEN..end] == f.payload && data[end..] == rest;
    hide Encode;
  }

  lemma {:induction false} EncodeAllCons(f: Frame, fs: seq<Frame>)
    ensures EncodeAll([f] + fs) == Encode(f) + EncodeAll(fs)
  {
    hide Encode;
    var all := [f] + fs;
    if fs == [] {
      assert all[..0] == [] && EncodeAll(all[..0]) == [];
    } else {
      EncodeAllCons(f, fs[..|fs| - 1]);
      assert all[..|all| - 1] == [f] + fs[..|fs| - 1];
    }
  }

  /** Any sequence of encoded frames parses back to exactly those frames. */
  lemma {:induction false} ParseAllEncodeAll(fs: seq<Frame>)
    requires forall i :: 0 <= i < |fs| ==> Encodable(fs[i])
    ensures ParseAll(EncodeAll(fs)) == Some(fs)
  {
    if fs != [] {
      ParseAllEncodeAll(fs[1..]);
      EncodeAllCons(fs[0], fs[1..]);
      ParseEncoded(fs[0], EncodeAll(fs[1..]));
      assert fs == [fs[0]] + fs[1..];
    }
  }

  // ----- SETTINGS

  function SettingBytes(s: Setting): (r: seq<byte>)
    ensures |r| == 6
  {
    [s.id / 256, s.id % 256] + U32Bytes(s.val)
  }

  function SettingsBytes(ss: seq<Setting>): (r: seq<byte>)
    ensures |r| == 6 * |ss|
  {
    if ss == [] then [] else SettingBytes(ss[0]) + SettingsBytes(ss[1..])
  }

  function SettingAt(payload: seq<byte>, pos: nat): Setting
    requires pos + 6 <= |payload|
  {
    Setting(Join2(payload[pos], payload[pos + 1]), ReadU32(payload, pos + 2))
  }

  /** The parameters a SETTINGS payload lists; none when its length is not a multiple of six. */
  function SettingsOf(payload: seq<byte>): Option<seq<Setting>> {
    if |payload| % 6 != 0 then None
    else Some(seq(|payload| / 6, i requires 0 <= i < |payload| / 6 => SettingAt(payload, 6 * i)))
  }

  method ParseSettings(payload: seq<byte>) returns (r: Option<seq<Setting>>)
    ensures r == SettingsOf(payload)
  {
    if |payload| % 6 != 0 {
      return None;
    }
    var settings := [];
    var pos := 0;
    ghost var count := |payload| / 6;
    while pos < |payload|
      invariant pos == 6 * |settings| && |settings| <= count
      invariant forall i :: 0 <= i < |settings| ==> settings[i] == SettingAt(payload, 6 * i)
    {
      settings := settings + [SettingAt(payload, pos)];
      pos := pos + 6;
    }
    assert settings == SettingsOf(payload).value;
    return Some(settings);
  }

  lemma {:induction false} SettingsBytesAt(ss: seq<Setting>, i: nat)
    requires i < |ss|
    ensures SettingAt(SettingsBytes(ss), 6 * i) == ss[i]
  {
    var b := SettingsBytes(ss);
    var head, tail := SettingBytes(ss[0]), SettingsBytes(ss[1..]);
    if i == 0 {
      U32RoundTrip([ss[0].id / 256, ss[0].id % 256], ss[0].val, tail);
      assert b == [ss[0].id / 256, ss[0].id % 256] + U32Bytes(ss[0].val) + tail;
    } else {
      SettingsBytesAt(ss[1..], i - 1);
      assert forall k :: 0 <= k < |tail| ==> b[6 + k] == tail[k];
    }
  }

  /** What `write_settings` writes, `parse_settings` reads back. */
  lemma SettingsRoundTrip(ss: seq<Setting>)
    ensures SettingsOf(SettingsBytes(ss)) == Some(ss)
  {
    forall i | 0 <= i < |ss| { SettingsBytesAt(ss, i); }
    assert |SettingsBytes(ss)| / 6 == |ss|;
    assert SettingsOf(SettingsBytes(ss)).value == ss;
  }

  // ----- the frames the server writes, and their writers

  function SettingsFrame(ss: seq<Setting>): Frame { Frame(SETTINGS, 0, 0, SettingsBytes(ss)) }

  function SettingsAckFrame(): Frame { Frame(SETTINGS, FLAG_ACK, 0, []) }

  function PingAckFrame(opaque8: seq<byte>): Frame { Frame(PING, FLAG_ACK, 0, opaque8) }

  function GoawayFrame(last: nat, code: ErrorCode): Frame {
    Frame(GOAWAY, 0, 0, U32Bytes(last % 0x8000_0000) + U32Bytes(code.Number()))
  }

  function RstFrame(id: nat, code: ErrorCode): Frame {
    Frame(RST_STREAM, 0, id % 0x8000_0000, U32Bytes(code.Number()))
  }

  function WindowUpdateFrame(id: nat, increment: nat): Frame {
    Frame(WINDOW_UPDATE, 0, id % 0x8000_0000, U32Bytes(increment % 0x8000_0000))
  }

  function DataFrame(id: nat, payload: seq<byte>, last: bool): Frame {
    Frame(DATA, if last then FLAG_END_STREAM else 0, id % 0x8000_0000, payload)
  }

  function WriteSettings(ss: seq<Setting>): (r: seq<byte>)
    ensures r == Encode(SettingsFrame(ss))
  {
    FrameHeaderBytes(SETTINGS, 0, 0, |ss| * 6) + SettingsBytes(ss)
  }

  function WriteSettingsAck(): (r: seq<byte>)
    ensures r == Encode(SettingsAckFrame())
  {
    FrameHeaderBytes(SETTINGS, FLAG_ACK, 0, 0)
  }

  function WritePingAck(opaque8: seq<byte>): (r: seq<byte>)
    requires |opaque8| == 8
    ensures r == Encode(PingAckFrame(opaque8))
  {
    FrameHeaderBytes(PING, FLAG_ACK, 0, 8) + opaque8
  }

  function WriteGoaway(last: nat, code: ErrorCode): (r: seq<byte>)
    ensures r == Encode(GoawayFrame(last, code))
  {
    FrameHeaderBytes(GOAWAY, 0, 0, 8) + U32Bytes(last % 0x8000_0000) + U32Bytes(code.Number())
  }

  function WriteRstStream(id: nat, code: ErrorCode): (r: seq<byte>)
    ensures r == Encode(RstFrame(id, code))
  {
    IdBytesIgnoreReserved(RST_STREAM, 0, id, 4);
    FrameHeaderBytes(RST_STREAM, 0, id, 4) + U32Bytes(code.Number())
  }

  function WriteWindowUpdate(id: nat, increment: nat): (r: seq<byte>)
    ensures r == Encode(WindowUpdateFrame(id, increment))
  {
    IdBytesIgnoreReserved(WINDOW_UPDATE, 0, id, 4);
    FrameHeaderBytes(WINDOW_UPDATE, 0, id, 4) + U32Bytes(increment % 0x8000_0000)
  }

  /** A DATA header followed by the payload the caller appends. */
  function WriteData(id: nat, payload: seq<byte>, last: bool): (r: seq<byte>)
    ensures r == Encode(DataFrame(id, payload, last))
  {
    var flags := if last then FLAG_END_STREAM else 0;
    IdBytesIgnoreReserved(DATA, flags, id, |payload|);
    FrameHeaderBytes(DATA, flags, id, |payload|) + payload
  }
}
