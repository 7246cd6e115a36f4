// http2/conn.v as functions on values. A connection's state is a `Conn`; a `World` pairs it with the log of
// everything that crossed the wire or the application boundary. ServerConn.dfy proves the imperative
// connection against these functions, and the Conn*.dfy theorems are about all their runs.
module ConnModel {
  import opened Bytes
  import opened Frames
  import opened HpackTable
  import HpackBlock
  import P = Probing
  import Rules = RequestRules

  const MAX_CONCURRENT_STREAMS := 128
  const MAX_HEADER_BLOCK := 64 * 1024
  const MAX_BODY_BYTES := 8 * 1024 * 1024
  const HPACK_DEFAULT_TABLE_SIZE := 4096

  type FrameSize = n: int | DEFAULT_MAX_FRAME_SIZE <= n <= LARGEST_MAX_FRAME_SIZE witness DEFAULT_MAX_FRAME_SIZE

  /** One open stream. `parked` is the response DATA waiting for a window (`pending[pending_off..]`). */
  datatype Stream = Stream(
    headers: seq<Field>,
    body: seq<byte>,
    remoteDone: bool,
    rejected: bool,
    declaredLen: int,
    recvWindow: int,
    sendWindow: int,
    parked: seq<byte>,
    parkedEnd: bool,
    trailers: seq<byte>,
    trailersPending: bool)

  /** The header block being assembled from HEADERS and CONTINUATION frames. */
  datatype Assembly = Assembly(
    expecting: bool, id: u31, endStream: bool, refused: bool, trailers: bool, malformed: bool, block: seq<byte>)

  /** `slots` is the layout of the stream table, which fixes the order of walks; `free` counts pooled states. */
  datatype Conn = Conn(
    dec: Table,
    prefaceSeen: bool,
    lastStream: u31,
    slots: P.Slots,
    streams: map<nat, Stream>,
    free: nat,
    hdr: Assembly,
    peerMaxFrame: FrameSize,
    initSendWindow: int,
    connSendWindow: int,
    connRecvWindow: int)

  datatype Request = Request(id: u31, headers: seq<Field>, body: seq<byte>)

  datatype Event =
    | Received(f: Frame)
    | Sent(f: Frame)
    | Opened(id: nat)
    | Released(id: nat)
    | Surfaced(r: Request)
    | WroteHeaders(id: nat, end: bool)
    | WroteBody(id: nat, body: seq<byte>, end: bool)
    | WroteTrailers(id: nat)

  datatype Log = Nothing | Then(before: Log, last: Event)

  datatype World = World(c: Conn, log: Log)

  datatype Result = Result(w: World, code: ErrorCode)

  function NewConn(): Conn {
    Conn(Table([], HPACK_DEFAULT_TABLE_SIZE, HPACK_DEFAULT_TABLE_SIZE), false, 0, seq(P.SLOTS, _ => 0), map[], 0,
         Assembly(false, 0, false, false, false, false, []),
         DEFAULT_MAX_FRAME_SIZE, DEFAULT_WINDOW_SIZE, DEFAULT_WINDOW_SIZE, DEFAULT_WINDOW_SIZE)
  }

  function NewWorld(): World {
    World(NewConn(), Nothing)
  }

  function Note(w: World, e: Event): World {
    World(w.c, Then(w.log, e))
  }

  function Send(w: World, f: Frame): World {
    Note(w, Sent(f))
  }

  function Update(w: World, id: nat, s: Stream): World {
    w.(c := w.c.(streams := w.c.streams[id := s]))
  }

  // ----- stream lifetime

  function FreshStream(window: int): Stream {
    Stream([], [], false, false, -1, DEFAULT_WINDOW_SIZE, window, [], false, [], false)
  }

  /** `new_stream` with the caller's fields filled in: a pooled state is reused when there is one. */
  function Open(w: World, id: nat, s: Stream): World {
    Note(w.(c := w.c.(slots := P.Put(w.c.slots, id), streams := w.c.streams[id := s],
                      free := if w.c.free > 0 then w.c.free - 1 else 0)), Opened(id))
  }

  function Release(w: World, id: nat): World {
    if id !in w.c.streams then w
    else Note(w.(c := w.c.(slots := P.Remove(w.c.slots, id), streams := w.c.streams - {id}, free := w.c.free + 1)),
              Released(id))
  }

  /** The request side of a stream ends: surface it, unless it was rejected or its length is wrong. */
  function Complete(w: World, id: u31): World {
    if id !in w.c.streams then w
    else
      var s := w.c.streams[id];
      if s.rejected then Release(w, id)
      else if s.declaredLen >= 0 && s.declaredLen != |s.body| then
        Release(Send(w, RstFrame(id, ProtocolError)), id)
      else Note(Update(w, id, s.(remoteDone := true)), Surfaced(Request(id, s.headers, s.body)))
  }

  // ----- responses

  /** The frames of a header block: HEADERS, then CONTINUATIONs when it is wider than the peer's frames. */
  function BlockFrames(id: nat, block: seq<byte>, end: bool, max: FrameSize): seq<Frame> {
    var es: byte := if end then FLAG_END_STREAM else 0;
    if |block| <= max then [Frame(HEADERS, FLAG_END_HEADERS + es, id % 0x8000_0000, block)]
    else [Frame(HEADERS, es, id % 0x8000_0000, block[..max])] + ContinuationFrames(id, block[max..], max)
  }

  function ContinuationFrames(id: nat, rest: seq<byte>, max: FrameSize): seq<Frame>
    decreases |rest|
  {
    if rest == [] then []
    else if |rest| <= max then [Frame(CONTINUATION, FLAG_END_HEADERS, id % 0x8000_0000, rest)]
    else [Frame(CONTINUATION, 0, id % 0x8000_0000, rest[..max])] + ContinuationFrames(id, rest[max..], max)
  }

  function SendAll(w: World, fs: seq<Frame>): World
    decreases |fs|
  {
    if fs == [] then w else SendAll(Send(w, fs[0]), fs[1..])
  }

  function WriteBlock(w: World, id: nat, block: seq<byte>, end: bool): World {
    var w1 := SendAll(w, BlockFrames(id, block, end, w.c.peerMaxFrame));
    if end then Release(w1, id) else w1
  }

  /** What both windows let through now. */
  function Allow(c: Conn, s: Stream): int {
    Min(c.connSendWindow, s.sendWindow)
  }

  /** How much of len octets goes into the next DATA frame. */
  function ChunkSize(c: Conn, s: Stream, len: nat): (n: nat)
    requires Allow(c, s) > 0 && len > 0
    ensures 0 < n <= len && n <= Allow(c, s) && n <= c.peerMaxFrame
  {
    Min(Min(len, Allow(c, s)), c.peerMaxFrame)
  }

  /** One DATA frame, charged to both windows. */
  function SendData(w: World, id: nat, chunk: seq<byte>, last: bool): World
    requires id in w.c.streams
  {
    var s := w.c.streams[id];
    var w1 := Update(w, id, s.(sendWindow := s.sendWindow - |chunk|));
    Send(w1.(c := w1.c.(connSendWindow := w1.c.connSendWindow - |chunk|)), DataFrame(id, chunk, last))
  }

  datatype Emitted = Emitted(w: World, rest: seq<byte>)

  /** Emit data as far as the windows and the peer's frame size allow; the rest is handed back. */
  function EmitData(w: World, id: nat, data: seq<byte>, end: bool): Emitted
    requires id in w.c.streams
    decreases |data|
  {
    if data == [] || Allow(w.c, w.c.streams[id]) <= 0 then Emitted(w, data)
    else
      var n := ChunkSize(w.c, w.c.streams[id], |data|);
      EmitData(SendData(w, id, data[..n], n == |data| && end), id, data[n..], end)
  }

  /** `write_response_body` */
  function WriteBody(w: World, id: nat, body: seq<byte>, end: bool): World {
    if id !in w.c.streams then w
    else if body == [] then
      if end then Release(Send(Note(w, WroteBody(id, body, end)), DataFrame(id, [], true)), id)
      else Note(w, WroteBody(id, body, end))
    else
      var e := EmitData(Note(w, WroteBody(id, body, end)), id, body, end);
      EmitKeepsOpen(Note(w, WroteBody(id, body, end)), id, body, end);
      var s := e.w.c.streams[id];
      if e.rest != [] then Update(e.w, id, s.(parked := s.parked + e.rest, parkedEnd := end))
      else if end then Release(e.w, id)
      else e.w
  }

  lemma {:induction false} EmitKeepsOpen(w: World, id: nat, data: seq<byte>, end: bool)
    requires id in w.c.streams
    ensures EmitData(w, id, data, end).w.c.streams.Keys == w.c.streams.Keys
    decreases |data|
  {
    if data != [] && Allow(w.c, w.c.streams[id]) > 0 {
      var n := ChunkSize(w.c, w.c.streams[id], |data|);
      EmitKeepsOpen(SendData(w, id, data[..n], n == |data| && end), id, data[n..], end);
    }
  }

  /** `write_response_trailers` */
  function WriteTrailers(w: World, id: nat, block: seq<byte>): World {
    if id !in w.c.streams then w
    else
      var w1 := Note(w, WroteTrailers(id));
      var s := w.c.streams[id];
      if s.parked != [] then Update(w1, id, s.(trailers := block, trailersPending := true))
      else WriteBlock(w1, id, block, true)
  }

  /** What follows once nothing is parked any more: the end of the stream, or the trailers that waited for it. */
  function AfterFlush(w: World, id: nat): World
    requires id in w.c.streams
  {
    var s := w.c.streams[id];
    if s.parked != [] then w
    else if s.parkedEnd then Release(w, id)
    else if s.trailersPending then WriteBlock(Update(w, id, s.(trailersPending := false)), id, s.trailers, true)
    else w
  }

  /** `flush_pending` */
  function Flush(w: World, id: nat): World {
    if id !in w.c.streams then w
    else
      var e := EmitData(w, id, w.c.streams[id].parked, w.c.streams[id].parkedEnd);
      EmitKeepsOpen(w, id, w.c.streams[id].parked, w.c.streams[id].parkedEnd);
      AfterFlush(Update(e.w, id, e.w.c.streams[id].(parked := e.rest)), id)
  }

  function FlushAll(w: World, ids: seq<nat>): World
    decreases |ids|
  {
    if ids == [] then w
    else FlushAll(Flush(w, ids[0]), ids[1..])
  }

  // ----- frames

  /** Where the content of a padded payload starts and ends; none when the padding does not fit. */
  function Unpad(flags: byte, payload: seq<byte>): (r: Option<(nat, nat)>)
    ensures r.Some? ==> r.value.0 <= r.value.1 <= |payload|
  {
    if !Bit3(flags) then Some((0, |payload|))
    else if |payload| < 1 || 1 + payload[0] > |payload| then None
    else Some((1, |payload| - payload[0]))
  }

  function Fail(w: World, code: ErrorCode): Result {
    Result(w, code)
  }

  function Ok(w: World): Result {
    Result(w, NoError)
  }

  function OnData(w: World, f: Frame): Result {
    if f.id == 0 then Fail(w, ProtocolError)
    else if f.id !in w.c.streams then Fail(w, if f.id > w.c.lastStream then ProtocolError else StreamClosed)
    else
      var s := w.c.streams[f.id];
      var flow := |f.payload|;
      if s.remoteDone then Fail(w, StreamClosed)
      else if w.c.connRecvWindow - flow < 0 || s.recvWindow - flow < 0 then Fail(w, FlowControlError)
      else
        match Unpad(f.flags, f.payload)
        case None => Fail(w, ProtocolError)
        case Some((off, end)) =>
          if !s.rejected && |s.body| + (end - off) > MAX_BODY_BYTES then Fail(w, EnhanceYourCalm)
          else
            var fin := Bit0(f.flags);
            var s1 := s.(body := if s.rejected then s.body else s.body + f.payload[off..end],
                         recvWindow := if fin then s.recvWindow - flow else s.recvWindow);
            var w1 := Update(w, f.id, s1);
            var w2 := if flow > 0 then Send(w1, WindowUpdateFrame(0, flow)) else w1;
            if fin then Ok(Complete(w2, f.id))
            else Ok(if flow > 0 then Send(w2, WindowUpdateFrame(f.id, flow)) else w2)
  }

  /** `finish_header_block`: decompress, then complete, refuse or open. */
  ghost function FinishBlock(w: World): Result {
    var h := w.c.hdr;
    var d := HpackBlock.DecodeBlock(w.c.dec, h.block);
    var w1 := w.(c := w.c.(hdr := h.(expecting := false), dec := d.table));
    if !d.ok then Fail(w1, CompressionError)
    else if h.trailers then
      if !Rules.ValidTrailers(d.fields) then Ok(Release(Send(w1, RstFrame(h.id, ProtocolError)), h.id))
      else Ok(Complete(w1, h.id))
    else if h.refused then Ok(Send(w1, RstFrame(h.id, RefusedStream)))
    else
      var ok := Rules.ValidRequest(d.fields);
      var malformed := h.malformed || !ok;
      var s := FreshStream(w.c.initSendWindow).(
               headers := d.fields,
               rejected := malformed,
               declaredLen := if ok then Rules.DeclaredLength(d.fields) else -1);
      var w2 := Open(w1, h.id, s);
      var w3 := if malformed then Send(w2, RstFrame(h.id, ProtocolError)) else w2;
      Ok(if h.endStream then Complete(w3, h.id) else w3)
  }

  datatype Start = Bad(code: ErrorCode) | Begin(h: Assembly, last: u31)

  /** What a HEADERS frame starts: the trailers of an open stream, or a new stream, refused beyond the limit. */
  function StartBlock(c: Conn, f: Frame): Start {
    if f.id == 0 || f.id % 2 == 0 then Bad(ProtocolError)
    else
      match Unpad(f.flags, f.payload)
      case None => Bad(ProtocolError)
      case Some((off0, end)) =>
        if Bit5(f.flags) && off0 + 5 > end then Bad(ProtocolError)
        else
          var malformed := Bit5(f.flags) && ReadU32(f.payload, off0) % 0x8000_0000 == f.id;
          var off := if Bit5(f.flags) then off0 + 5 else off0;
          var fin := Bit0(f.flags);
          if f.id in c.streams then
            if c.streams[f.id].remoteDone then Bad(StreamClosed)
            else if !fin then Bad(ProtocolError)
            else Begin(Assembly(true, f.id, fin, false, true, malformed, f.payload[off..end]), c.lastStream)
          else if f.id <= c.lastStream then Bad(ProtocolError)
          else
            var refused := |c.streams| >= MAX_CONCURRENT_STREAMS;
            Begin(Assembly(true, f.id, fin, refused, false, malformed, f.payload[off..end]), f.id)
  }

  ghost function OnHeaders(w: World, f: Frame): Result {
    match StartBlock(w.c, f)
    case Bad(code) => Fail(w, code)
    case Begin(h, last) =>
      var w1 := w.(c := w.c.(hdr := h, lastStream := last));
      if Bit2(f.flags) then FinishBlock(w1) else Ok(w1)
  }

  ghost function OnContinuation(w: World, f: Frame): Result {
    var h := w.c.hdr;
    if !h.expecting || f.id != h.id then Fail(w, ProtocolError)
    else if |h.block| + |f.payload| > MAX_HEADER_BLOCK then Fail(w, EnhanceYourCalm)
    else
      var w1 := w.(c := w.c.(hdr := h.(block := h.block + f.payload)));
      if Bit2(f.flags) then FinishBlock(w1) else Ok(w1)
  }

  function AdjustWindows(streams: map<nat, Stream>, delta: int): map<nat, Stream> {
    map id | id in streams :: streams[id].(sendWindow := streams[id].sendWindow + delta)
  }

  datatype Applied = Applied(c: Conn, code: ErrorCode, changed: bool)

  /** The parameters of a SETTINGS frame, in order; an illegal value stops at once. */
  function ApplySettings(c: Conn, ss: seq<Setting>, changed: bool): Applied
    decreases |ss|
  {
    if ss == [] then Applied(c, NoError, changed)
    else
      var st := ss[0];
      if st.id == SETTING_INITIAL_WINDOW_SIZE then
        if st.val > MAX_WINDOW then Applied(c, FlowControlError, changed)
        else
          var delta := st.val - c.initSendWindow;
          ApplySettings(c.(initSendWindow := st.val, streams := AdjustWindows(c.streams, delta)), ss[1..], true)
      else if st.id == SETTING_MAX_FRAME_SIZE then
        if st.val < DEFAULT_MAX_FRAME_SIZE || st.val > LARGEST_MAX_FRAME_SIZE then Applied(c, ProtocolError, changed)
        else ApplySettings(c.(peerMaxFrame := st.val), ss[1..], changed)
      else if st.id == SETTING_ENABLE_PUSH && st.val > 1 then Applied(c, ProtocolError, changed)
      else ApplySettings(c, ss[1..], changed)
  }

  function OnSettings(w: World, f: Frame): Result {
    if f.id != 0 then Fail(w, ProtocolError)
    else if Bit0(f.flags) then (if f.payload != [] then Fail(w, FrameSizeError) else Ok(w))
    else
      match SettingsOf(f.payload)
      case None => Fail(w, FrameSizeError)
      case Some(ss) =>
        var a := ApplySettings(w.c, ss, false);
        if a.code != NoError then Fail(w.(c := a.c), a.code)
        else
          var w1 := Send(w.(c := a.c), SettingsAckFrame());
          Ok(if a.changed then FlushAll(w1, P.Ids(w1.c.slots)) else w1)
  }

  function OnWindowUpdate(w: World, f: Frame): Result {
    if |f.payload| != 4 then Fail(w, FrameSizeError)
    else
      var inc := ReadU32(f.payload, 0) % 0x8000_0000;
      if f.id == 0 then
        if inc == 0 then Fail(w, ProtocolError)
        else
          var w1 := w.(c := w.c.(connSendWindow := w.c.connSendWindow + inc));
          if w1.c.connSendWindow > MAX_WINDOW then Fail(w1, FlowControlError)
          else Ok(FlushAll(w1, P.Ids(w1.c.slots)))
      else if f.id > w.c.lastStream then Fail(w, ProtocolError)
      else if inc == 0 then Ok(Release(Send(w, RstFrame(f.id, ProtocolError)), f.id))
      else if f.id !in w.c.streams then Ok(w)
      else
        var s := w.c.streams[f.id];
        var w1 := Update(w, f.id, s.(sendWindow := s.sendWindow + inc));
        if s.sendWindow + inc > MAX_WINDOW then Ok(Release(Send(w1, RstFrame(f.id, FlowControlError)), f.id))
        else Ok(Flush(w1, f.id))
  }

  function OnPriority(w: World, f: Frame): Result {
    if f.id == 0 then Fail(w, ProtocolError)
    else if |f.payload| != 5 then Fail(w, FrameSizeError)
    else if ReadU32(f.payload, 0) % 0x8000_0000 == f.id then Ok(Release(Send(w, RstFrame(f.id, ProtocolError)), f.id))
    else Ok(w)
  }

  function OnReset(w: World, f: Frame): Result {
    if f.id == 0 || f.id > w.c.lastStream then Fail(w, ProtocolError)
    else if |f.payload| != 4 then Fail(w, FrameSizeError)
    else Ok(Release(w, f.id))
  }

  function OnPing(w: World, f: Frame): Result {
    if f.id != 0 then Fail(w, ProtocolError)
    else if |f.payload| != 8 then Fail(w, FrameSizeError)
    else if !Bit0(f.flags) then Ok(Send(w, PingAckFrame(f.payload)))
    else Ok(w)
  }

  function OnGoaway(w: World, f: Frame): Result {
    if f.id != 0 then Fail(w, ProtocolError)
    else if |f.payload| < 8 then Fail(w, FrameSizeError)
    else Ok(w)
  }

  /** `frame`: one complete frame of a known type, already noted as received. */
  ghost function OnFrame(w: World, f: Frame): Result
    requires f.typ <= CONTINUATION
  {
    if w.c.hdr.expecting && f.typ != CONTINUATION then Fail(w, ProtocolError)
    else if f.typ == DATA then OnData(w, f)
    else if f.typ == HEADERS then OnHeaders(w, f)
    else if f.typ == PRIORITY then OnPriority(w, f)
    else if f.typ == RST_STREAM then OnReset(w, f)
    else if f.typ == SETTINGS then OnSettings(w, f)
    else if f.typ == PUSH_PROMISE then Fail(w, ProtocolError)
    else if f.typ == PING then OnPing(w, f)
    else if f.typ == GOAWAY then OnGoaway(w, f)
    else if f.typ == WINDOW_UPDATE then OnWindowUpdate(w, f)
    else OnContinuation(w, f)
  }

  // ----- the byte stream

  datatype Consumed = Consumed(w: World, n: nat, close: bool)

  function Closing(w: World, code: ErrorCode, n: nat): Consumed {
    Consumed(Send(w, GoawayFrame(w.c.lastStream, code)), n, true)
  }

  function Shift(r: Consumed, n: nat): Consumed {
    r.(n := r.n + n)
  }

  /** The frame loop of `consume`. */
  ghost function ConsumeFrames(w: World, buf: seq<byte>): Consumed
    decreases |buf|
  {
    match ParseFrameHeader(buf)
    case None => Consumed(w, 0, false)
    case Some(h) =>
      var total := FRAME_HEADER_LEN + h.length;
      if h.length > DEFAULT_MAX_FRAME_SIZE then Closing(w, FrameSizeError, 0)
      else if |buf| < total then Consumed(w, 0, false)
      else
        var f := Frame(h.typ, h.flags, h.id, buf[FRAME_HEADER_LEN..total]);
        if f.typ > CONTINUATION then
          if w.c.hdr.expecting then Closing(w, ProtocolError, 0)
          else Shift(ConsumeFrames(Note(w, Received(f)), buf[total..]), total)
        else
          var r := OnFrame(Note(w, Received(f)), f);
          if r.code != NoError then Closing(r.w, r.code, total)
          else Shift(ConsumeFrames(r.w, buf[total..]), total)
  }

  /** `consume` */
  ghost function Consume(w: World, buf: seq<byte>): Consumed {
    if w.c.prefaceSeen then ConsumeFrames(w, buf)
    else if |buf| < |PREFACE_TAIL| then Consumed(w, 0, false)
    else if buf[..|PREFACE_TAIL|] != PREFACE_TAIL then
      Consumed(Send(w, GoawayFrame(0, ProtocolError)), 0, true)
    else Shift(ConsumeFrames(w.(c := w.c.(prefaceSeen := true)), buf[|PREFACE_TAIL|..]), |PREFACE_TAIL|)
  }

  // ----- runs

  /** A call of the connection's public interface. */
  datatype Call =
    | Preface
    | Feed(buf: seq<byte>)
    | Headers(id: u32, block: seq<byte>, end: bool)
    | Body(id: u32, body: seq<byte>, end: bool)
    | Trailers(id: u32, block: seq<byte>)
    | Abort(id: u32, code: ErrorCode)

  function ServerSettings(): seq<Setting> {
    [Setting(SETTING_MAX_CONCURRENT_STREAMS, MAX_CONCURRENT_STREAMS),
     Setting(SETTING_HEADER_TABLE_SIZE, HPACK_DEFAULT_TABLE_SIZE)]
  }

  datatype Performed = Performed(w: World, close: bool)

  ghost function Perform(w: World, call: Call): Performed {
    match call
    case Preface => Performed(Send(w, SettingsFrame(ServerSettings())), false)
    case Feed(buf) => var r := Consume(w, buf); Performed(r.w, r.close)
    case Headers(id, block, end) => Performed(WriteBlock(Note(w, WroteHeaders(id, end)), id, block, end), false)
    case Body(id, body, end) => Performed(WriteBody(w, id, body, end), false)
    case Trailers(id, block) => Performed(WriteTrailers(w, id, block), false)
    case Abort(id, code) => Performed(Release(Send(w, RstFrame(id, code)), id), false)
  }

  /** A run from a state; a connection that closed takes no further calls. */
  ghost function Run(w: World, calls: seq<Call>): Performed
    decreases |calls|
  {
    if calls == [] then Performed(w, false)
    else
      var p := Perform(w, calls[0]);
      if p.close then p else Run(p.w, calls[1..])
  }
}
