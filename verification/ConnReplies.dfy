// What the connection owes its peer over a run: an acknowledgement for every PING and SETTINGS, one GOAWAY when it
// closes, and a decoder that has seen every header block, whatever became of the block's stream (http2/conn.v).
module ConnReplies {
  import opened Bytes
  import opened Frames
  import opened HpackTable
  import opened ConnModel
  import opened ConnShapes
  import opened ConnLog
  import opened ConnInv
  import opened ConnSteps
  import ConnRuns
  import ConnBlocks
  import ConnEnding
  import HeaderFrames
  import HpackBlock
  import Segmentation
  import P = Probing
  import Rules = RequestRules

  /** A log as the peer counts it: the dynamic table after the header blocks it sent, the block it is sending, the
      PING payloads and SETTINGS frames it sent, and what came back for them. */
  datatype Record = Record(
    table: Table, block: seq<byte>, pings: seq<seq<byte>>, pongs: seq<seq<byte>>, settings: nat, acks: nat,
    goaways: nat)

  /** The fragment of a header block that a HEADERS frame carries, inside its padding and priority. */
  function Fragment(f: Frame): seq<byte> {
    match Unpad(f.flags, f.payload)
    case None => []
    case Some((off, end)) =>
      var start := if Bit5(f.flags) then off + 5 else off;
      if start > end then [] else f.payload[start..end]
  }

  /** The block so far; with END_HEADERS it goes through the table, and the next one starts empty. */
  ghost function Gathered(r: Record, f: Frame, block: seq<byte>): Record {
    if Bit2(f.flags) then r.(table := HpackBlock.DecodeBlock(r.table, block).table, block := [])
    else r.(block := block)
  }

  ghost function RecordAfter(r: Record, e: Event): Record {
    match e
    case Received(f) =>
      if f.typ == HEADERS then Gathered(r, f, Fragment(f))
      else if f.typ == CONTINUATION then Gathered(r, f, r.block + f.payload)
      else if f.typ == PING && !Bit0(f.flags) then r.(pings := r.pings + [f.payload])
      else if f.typ == SETTINGS && !Bit0(f.flags) then r.(settings := r.settings + 1)
      else r
    case Sent(f) =>
      if f.typ == PING then r.(pongs := r.pongs + [f.payload])
      else if f.typ == SETTINGS && Bit0(f.flags) then r.(acks := r.acks + 1)
      else if f.typ == GOAWAY then r.(goaways := r.goaways + 1)
      else r
    case _ => r
  }

  ghost function RecordOf(log: Log): Record {
    match log
    case Nothing => Record(NewConn().dec, [], [], [], 0, 0, 0)
    case Then(before, e) => RecordAfter(RecordOf(before), e)
  }

  ghost predicate Owing(w: World) {
    var r := RecordOf(w.log);
    && r.table == w.c.dec && (w.c.hdr.expecting ==> r.block == w.c.hdr.block)
    && r.pongs == r.pings && r.acks == r.settings && r.goaways == 0
    && (!w.c.prefaceSeen ==> w.c.lastStream == 0)
  }

  // ----- operations the record does not see

  /** From w to v the record, the decoder, the assembly and the session stay as they were. */
  ghost predicate Mute(w: World, v: World) {
    && RecordOf(v.log) == RecordOf(w.log)
    && v.c.dec == w.c.dec && v.c.hdr == w.c.hdr && v.c.prefaceSeen == w.c.prefaceSeen
    && v.c.lastStream == w.c.lastStream
  }

  lemma MuteKeeps(w: World, v: World)
    requires Owing(w) == true && Mute(w, v) == true
    ensures Owing(v) == true
  {
  }

  predicate MuteFrame(f: Frame) {
    f.typ != PING && f.typ != SETTINGS && f.typ != GOAWAY
  }

  predicate MuteEvent(e: Event) {
    if e.Received? then MuteFrame(e.f) && e.f.typ != HEADERS && e.f.typ != CONTINUATION
    else if e.Sent? then MuteFrame(e.f)
    else true
  }

  lemma MuteNote(w: World, e: Event)
    requires MuteEvent(e)
    ensures Mute(w, Note(w, e)) == true
  {
    hide Gathered;
  }

  lemma MuteSend(w: World, f: Frame)
    requires MuteFrame(f)
    ensures Mute(w, Send(w, f)) == true
  {
    hide RecordOf;
    MuteNote(w, Sent(f));
  }

  lemma MuteRelease(w: World, id: nat)
    ensures Mute(w, Release(w, id)) == true
  {
    hide RecordOf, P.Remove;
    MuteNote(w, Released(id));
  }

  lemma MuteReset(w: World, id: nat, code: ErrorCode)
    ensures Mute(w, Release(Send(w, RstFrame(id, code)), id)) == true
  {
    hide RecordOf, Release;
    MuteSend(w, RstFrame(id, code));
    MuteRelease(Send(w, RstFrame(id, code)), id);
  }

  lemma MuteComplete(w: World, id: u31)
    ensures Mute(w, Complete(w, id)) == true
  {
    hide RecordOf, Release;
    MuteRelease(w, id);
    MuteReset(w, id, ProtocolError);
    if id in w.c.streams {
      var s := w.c.streams[id];
      MuteNote(w, Surfaced(Request(id, s.headers, s.body)));
    }
  }

  lemma {:induction false} MuteSendAll(w: World, fs: seq<Frame>)
    requires forall i :: 0 <= i < |fs| ==> MuteFrame(fs[i])
    ensures Mute(w, SendAll(w, fs)) == true
    decreases |fs|
  {
    hide RecordOf;
    if fs != [] {
      MuteSend(w, fs[0]);
      MuteSendAll(Send(w, fs[0]), fs[1..]);
    }
  }

  lemma MuteBlock(w: World, id: nat, block: seq<byte>, end: bool)
    ensures Mute(w, WriteBlock(w, id, block, end)) == true
  {
    var fs := BlockFrames(id, block, end, w.c.peerMaxFrame);
    HeaderFramesMute(id, block, end, w.c.peerMaxFrame);
    hide RecordOf, BlockFrames, Release;
    MuteSendAll(w, fs);
    MuteRelease(SendAll(w, fs), id);
  }

  lemma HeaderFramesMute(id: nat, block: seq<byte>, end: bool, max: FrameSize)
    ensures forall i :: 0 <= i < |BlockFrames(id, block, end, max)| ==> MuteFrame(BlockFrames(id, block, end, max)[i])
  {
    if |block| > max {
      HeaderFrames.ContinuationsShape(id, block[max..], max);
    }
  }

  lemma MuteChunk(w: World, id: nat, chunk: seq<byte>, last: bool)
    requires id in w.c.streams
    ensures Mute(w, SendData(w, id, chunk, last)) == true
  {
    hide RecordOf;
    MuteNote(w, Sent(DataFrame(id, chunk, last)));
  }

  lemma MuteStep(w: World, step: Step)
    requires Legal(w, step)
    ensures Mute(w, Do(w, step)) == true
  {
    hide RecordOf, Release, WriteBlock, SendData;
    match step
    case Wrote(e) => MuteNote(w, e);
    case Cut(id, code) => MuteReset(w, id, code);
    case Tail(id, block) => MuteBlock(w, id, block, true);
    case Chunk(id, chunk) => MuteChunk(w, id, chunk, false);
    case Final(id, chunk) =>
      MuteChunk(w, id, chunk, true);
      MuteRelease(SendData(w, id, chunk, true), id);
    case Keep(c) =>
  }

  lemma {:induction false} MuteSteps(w: World, steps: seq<Step>, v: World)
    requires Owing(w) == true && Leads(w, steps, v) == true
    ensures Owing(v) == true
    decreases |steps|
  {
    hide Owing, RecordOf, Legal, Do;
    if steps != [] {
      MuteStep(w, steps[0]);
      MuteKeeps(w, Do(w, steps[0]));
      MuteSteps(Do(w, steps[0]), steps[1..], v);
    }
  }

  // ----- frames

  lemma MuteData(w: World, f: Frame)
    requires OnData(w, f).code == NoError
    ensures Mute(w, OnData(w, f).w) == true
  {
    hide RecordOf, Complete, Unpad;
    var s, u := w.c.streams[f.id], Unpad(f.flags, f.payload).value;
    var fin, flow := Bit0(f.flags), |f.payload|;
    var w1 := Update(w, f.id, s.(body := if s.rejected then s.body else s.body + f.payload[u.0..u.1],
                                 recvWindow := if fin then s.recvWindow - flow else s.recvWindow));
    MuteSend(w1, WindowUpdateFrame(0, flow));
    var w2 := if flow > 0 then Send(w1, WindowUpdateFrame(0, flow)) else w1;
    MuteComplete(w2, f.id);
    MuteSend(w2, WindowUpdateFrame(f.id, flow));
  }

  lemma MuteControl(w: World, f: Frame)
    ensures OnReset(w, f).code == NoError ==> Mute(w, OnReset(w, f).w) == true
    ensures OnGoaway(w, f).code == NoError ==> Mute(w, OnGoaway(w, f).w) == true
  {
    hide RecordOf, Release;
    MuteRelease(w, f.id);
  }

  /** A finished block goes through the decoder; nothing that follows touches the record. */
  lemma MuteFinish(w: World)
    requires FinishBlock(w).code == NoError
    ensures var d := HpackBlock.DecodeBlock(w.c.dec, w.c.hdr.block);
            Mute(w.(c := w.c.(hdr := w.c.hdr.(expecting := false), dec := d.table)), FinishBlock(w).w) == true
  {
    hide RecordOf, HpackBlock.DecodeBlock, Complete, Release, Rules.ValidRequest, Rules.ValidTrailers,
         Rules.DeclaredLength, P.Put;
    var h := w.c.hdr;
    var d := HpackBlock.DecodeBlock(w.c.dec, h.block);
    var w1 := w.(c := w.c.(hdr := h.(expecting := false), dec := d.table));
    MuteReset(w1, h.id, ProtocolError);
    MuteComplete(w1, h.id);
    MuteSend(w1, RstFrame(h.id, RefusedStream));
    MuteOpening(w1, h, d.fields);
  }

  lemma MuteOpening(w: World, h: Assembly, fields: seq<Field>)
    ensures var ok := Rules.ValidRequest(fields);
            var malformed := h.malformed || !ok;
            var w2 := Open(w, h.id, FreshStream(w.c.initSendWindow).(
                                    headers := fields,
                                    rejected := malformed,
                                    declaredLen := if ok then Rules.DeclaredLength(fields) else -1));
            var w3 := if malformed then Send(w2, RstFrame(h.id, ProtocolError)) else w2;
            Mute(w, if h.endStream then Complete(w3, h.id) else w3) == true
  {
    hide RecordOf, Complete, Rules.ValidRequest, Rules.DeclaredLength, P.Put;
    var ok := Rules.ValidRequest(fields);
    var malformed := h.malformed || !ok;
    var w2 := Open(w, h.id, FreshStream(w.c.initSendWindow).(
                            headers := fields, rejected := malformed,
                            declaredLen := if ok then Rules.DeclaredLength(fields) else -1));
    MuteNote(w, Opened(h.id));
    MuteSend(w2, RstFrame(h.id, ProtocolError));
    var w3 := if malformed then Send(w2, RstFrame(h.id, ProtocolError)) else w2;
    MuteComplete(w3, h.id);
  }

  lemma StartFragment(c: Conn, f: Frame)
    ensures match StartBlock(c, f)
            case Bad(code) => code != NoError
            case Begin(h, last) => h.block == Fragment(f) && h.expecting && last >= c.lastStream
  {
    hide Unpad;
  }

  lemma HeadersOwing(w: World, f: Frame)
    requires Owing(w) == true && f.typ == HEADERS && w.c.prefaceSeen
    requires OnHeaders(Note(w, Received(f)), f).code == NoError
    ensures Owing(OnHeaders(Note(w, Received(f)), f).w) == true
  {
    hide HpackBlock.DecodeBlock, StartBlock, FinishBlock, Fragment;
    var w0 := Note(w, Received(f));
    StartFragment(w0.c, f);
    var start := StartBlock(w0.c, f);
    var w1 := w0.(c := w0.c.(hdr := start.h, lastStream := start.last));
    BlockOwing(w1, f, RecordOf(w.log));
  }

  /** The last fragment of a block has been added to what the record and the connection gathered. */
  lemma BlockOwing(w: World, f: Frame, before: Record)
    requires before.table == w.c.dec && before.pongs == before.pings && before.acks == before.settings
    requires before.goaways == 0
    requires RecordOf(w.log) == Gathered(before, f, w.c.hdr.block) && w.c.prefaceSeen
    requires Bit2(f.flags) ==> FinishBlock(w).code == NoError
    ensures Owing(if Bit2(f.flags) then FinishBlock(w).w else w) == true
  {
    hide HpackBlock.DecodeBlock, FinishBlock, RecordOf;
    if Bit2(f.flags) {
      MuteFinish(w);
      var d := HpackBlock.DecodeBlock(w.c.dec, w.c.hdr.block);
      MuteKeeps(w.(c := w.c.(hdr := w.c.hdr.(expecting := false), dec := d.table)), FinishBlock(w).w);
    }
  }

  lemma ContinuationOwing(w: World, f: Frame)
    requires Owing(w) == true && f.typ == CONTINUATION && w.c.prefaceSeen
    requires OnContinuation(Note(w, Received(f)), f).code == NoError
    ensures Owing(OnContinuation(Note(w, Received(f)), f).w) == true
  {
    hide HpackBlock.DecodeBlock, FinishBlock;
    var w0 := Note(w, Received(f));
    var h := w0.c.hdr;
    var w1 := w0.(c := w0.c.(hdr := h.(block := h.block + f.payload)));
    BlockOwing(w1, f, RecordOf(w.log));
  }

  lemma PingOwing(w: World, f: Frame)
    requires Owing(w) == true && f.typ == PING && OnPing(Note(w, Received(f)), f).code == NoError
    ensures Owing(OnPing(Note(w, Received(f)), f).w) == true
  {
    hide Gathered;
    var w0 := Note(w, Received(f));
    assert RecordOf(w0.log) == RecordAfter(RecordOf(w.log), Received(f));
  }

  lemma AckOwing(w: World, f: Frame)
    requires Owing(w) == true && f.typ == SETTINGS && !Bit0(f.flags) && SettingsOf(f.payload).Some?
    requires KeepsRequests(w.c, Configured(w, f).c)
    ensures Owing(Send(Configured(w, f), SettingsAckFrame())) == true
  {
    hide Gathered, ApplySettings, SettingsOf;
    assert RecordOf(Then(w.log, Received(f))) == RecordAfter(RecordOf(w.log), Received(f));
  }

  lemma AckedOwing(w: World, f: Frame)
    requires Owing(w) == true && f.typ == SETTINGS && Bit0(f.flags)
    ensures Owing(Note(w, Received(f))) == true
  {
    hide Gathered;
  }

  lemma SettingsOwing(w: World, f: Frame)
    requires Inv(w) == true && Owing(w) == true && f.typ == SETTINGS
    requires OnSettings(Note(w, Received(f)), f).code == NoError
    ensures Owing(OnSettings(Note(w, Received(f)), f).w) == true
  {
    hide Inv, Owing, Leads, KeepsRequests, Configured, SettingsOf, ApplySettings, FlushAll, P.Ids;
    if Bit0(f.flags) {
      AckedOwing(w, f);
    } else {
      hide OnSettings;
      var steps := SettingsSteps(w, f);
      AckOwing(w, f);
      MuteSteps(Send(Configured(w, f), SettingsAckFrame()), steps, OnSettings(Note(w, Received(f)), f).w);
    }
  }

  lemma GoawayOwing(w: World, f: Frame)
    requires Owing(w) == true && f.typ == GOAWAY && OnGoaway(Note(w, Received(f)), f).code == NoError
    ensures Owing(OnGoaway(Note(w, Received(f)), f).w) == true
  {
    hide Gathered;
  }

  lemma FrameOwing(w: World, f: Frame)
    requires Inv(w) == true && Owing(w) == true && f.typ <= CONTINUATION && w.c.prefaceSeen
    requires OnFrame(Note(w, Received(f)), f).code == NoError
    ensures Owing(OnFrame(Note(w, Received(f)), f).w) == true
  {
    hide Inv, Owing, Mute, RecordOf, Leads, OnData, OnHeaders, OnPriority, OnReset, OnSettings, OnPing, OnGoaway,
         OnWindowUpdate, OnContinuation;
    var w0 := Note(w, Received(f));
    if f.typ == HEADERS {
      HeadersOwing(w, f);
    } else if f.typ == CONTINUATION {
      ContinuationOwing(w, f);
    } else if f.typ == PING {
      PingOwing(w, f);
    } else if f.typ == SETTINGS {
      SettingsOwing(w, f);
    } else if f.typ == GOAWAY {
      GoawayOwing(w, f);
    } else {
      MuteNote(w, Received(f));
      MuteKeeps(w, w0);
      if f.typ == WINDOW_UPDATE {
        var steps := CreditSteps(w, f);
        MuteSteps(w0, steps, OnFrame(w0, f).w);
      } else if f.typ == PRIORITY {
        var steps := PrioritySteps(w0, f);
        MuteSteps(w0, steps, OnFrame(w0, f).w);
      } else {
        MuteControl(w0, f);
        if f.typ == DATA {
          MuteData(w0, f);
        }
        MuteKeeps(w0, OnFrame(w0, f).w);
      }
    }
  }

  // ----- closing

  /** What is owed may be open, but nothing was answered twice and no GOAWAY went out. */
  ghost predicate Unclosed(log: Log) {
    var r := RecordOf(log);
    r.pongs <= r.pings && r.acks <= r.settings && r.goaways == 0
  }

  ghost predicate RequestsUpTo(log: Log, last: nat) {
    forall i :: 0 <= i < |Requests(log)| ==> Requests(log)[i].id <= last
  }

  /** The log ends with its only GOAWAY, which names an error and covers every request surfaced. */
  ghost predicate Farewell(log: Log) {
    && log.Then? && log.last.Sent? && log.last.f.typ == GOAWAY && |log.last.f.payload| == 8
    && Unclosed(log.before)
    && RequestsUpTo(log, ReadU32(log.last.f.payload, 0))
    && ReadU32(log.last.f.payload, 4) != 0
  }

  lemma GoawayFields(last: u31, code: ErrorCode)
    ensures var p := GoawayFrame(last, code).payload;
            |p| == 8 && ReadU32(p, 0) == last && ReadU32(p, 4) == code.Number()
  {
    hide ReadU32, U32Bytes;
    var a, b := U32Bytes(last), U32Bytes(code.Number());
    assert last % 0x8000_0000 == last;
    U32RoundTrip([], last, b);
    U32RoundTrip(a, code.Number(), []);
    assert [] + a + b == a + b && a + b + [] == a + b;
  }

  lemma FarewellOf(log: Log, last: u31, code: ErrorCode)
    requires Unclosed(log) == true && RequestsUpTo(log, last) == true && code != NoError
    ensures Farewell(Then(log, Sent(GoawayFrame(last, code)))) == true
  {
    GoawayFields(last, code);
    hide Unclosed, ReadU32, U32Bytes;
    assert Requests(Then(log, Sent(GoawayFrame(last, code)))) == Requests(log);
  }

  lemma OwingUnclosed(w: World)
    requires Owing(w) == true
    ensures Unclosed(w.log) == true
  {
    hide RecordOf;
  }

  lemma ReceivedUnclosed(w: World, f: Frame)
    requires Owing(w) == true
    ensures Unclosed(Then(w.log, Received(f))) == true
  {
    hide HpackBlock.DecodeBlock, Fragment;
  }

  /** Every request surfaced has an id the connection has seen. */
  lemma RequestsSeen(w: World)
    requires Inv(w) == true
    ensures RequestsUpTo(w.log, w.c.lastStream) == true
  {
    forall i | 0 <= i < |Requests(w.log)| ensures Requests(w.log)[i].id <= w.c.lastStream {
      var id := Requests(w.log)[i].id;
      ConnRuns.SurfacedAre(w.log, id);
      assert ConnRuns.Lists(Requests(w.log), id);
      NoHistory(w, id);
    }
  }

  lemma NoHistory(w: World, id: nat)
    requires Inv(w) == true && TallyOf(w.log, id).surfaced
    ensures id <= w.c.lastStream
  {
    hide TallyOf, TotalsOf, Safe, TableOk, HeaderOk, TotalsOk, AllParkedOk, StreamOk, ResponseOk;
    assert IdOk(w.c, id, TallyOf(w.log, id));
  }

  /** An error does not forget the last stream seen. */
  lemma ErrorKeepsLast(w: World, f: Frame)
    requires f.typ <= CONTINUATION && OnFrame(w, f).code != NoError
    ensures OnFrame(w, f).w.c.lastStream >= w.c.lastStream
  {
    StartFragment(w.c, f);
    hide HpackBlock.DecodeBlock, StartBlock, Fragment, Complete, Release, Flush, FlushAll, ReadU32, Unpad, SettingsOf,
         Rules.ValidRequest, Rules.ValidTrailers, Rules.DeclaredLength, P.Put, P.Ids;
    if f.typ == SETTINGS && SettingsOf(f.payload).Some? {
      ApplySettingsShape(w.c, SettingsOf(f.payload).value, false);
    }
  }

  ghost predicate Settled(w: World, close: bool) {
    if close then Farewell(w.log) else Owing(w)
  }

  lemma TurnSettled(w: World, buf: seq<byte>)
    requires Owing(w) == true && Inv(w) == true && w.c.prefaceSeen
    ensures match Segmentation.Turn(w, buf)
            case None => true
            case Some(t) => Settled(t.w, t.close) == true
  {
    hide Owing, Inv, Farewell, Unclosed, RequestsUpTo, OnFrame, Join3, Join4, GoawayFrame;
    OwingUnclosed(w);
    RequestsSeen(w);
    match ParseFrameHeader(buf)
    case None =>
    case Some(h) =>
      var total := FRAME_HEADER_LEN + h.length;
      FarewellOf(w.log, w.c.lastStream, FrameSizeError);
      FarewellOf(w.log, w.c.lastStream, ProtocolError);
      if h.length <= DEFAULT_MAX_FRAME_SIZE && total <= |buf| {
        var f := Frame(h.typ, h.flags, h.id, buf[FRAME_HEADER_LEN..total]);
        if f.typ > CONTINUATION {
          UnknownOwing(w, f);
        } else if OnFrame(Note(w, Received(f)), f).code == NoError {
          FrameOwing(w, f);
        } else {
          ErrorFarewell(w, f);
        }
      }
  }

  lemma UnknownOwing(w: World, f: Frame)
    requires Owing(w) == true && f.typ > CONTINUATION
    ensures Owing(Note(w, Received(f))) == true
  {
    hide Owing, RecordOf;
    MuteNote(w, Received(f));
    MuteKeeps(w, Note(w, Received(f)));
  }

  lemma ErrorFarewell(w: World, f: Frame)
    requires Owing(w) == true && RequestsUpTo(w.log, w.c.lastStream) == true
    requires f.typ <= CONTINUATION && OnFrame(Note(w, Received(f)), f).code != NoError
    ensures var r := OnFrame(Note(w, Received(f)), f);
            Farewell(Then(r.w.log, Sent(GoawayFrame(r.w.c.lastStream, r.code)))) == true
  {
    hide Owing, Farewell, Unclosed, OnFrame, GoawayFrame;
    var w0 := Note(w, Received(f));
    var r := OnFrame(w0, f);
    ReceivedUnclosed(w, f);
    FrameErrorLog(w0, f);
    ErrorKeepsLast(w0, f);
    assert Requests(w0.log) == Requests(w.log);
    FarewellOf(w0.log, r.w.c.lastStream, r.code);
  }

  lemma {:induction false} ConsumeFramesSettled(w: World, buf: seq<byte>)
    requires Owing(w) == true && Inv(w) == true && w.c.prefaceSeen
    ensures Settled(ConsumeFrames(w, buf).w, ConsumeFrames(w, buf).close) == true
    decreases |buf|
  {
    hide Owing, Inv, Farewell, ConsumeFrames, Segmentation.Turn, Safe;
    Segmentation.TurnUnfold(w, buf);
    ConnRuns.TurnGood(w, buf);
    TurnSettled(w, buf);
    match Segmentation.Turn(w, buf)
    case None =>
    case Some(t) =>
      if !t.close {
        Segmentation.TurnKeepsPreface(w, buf);
        ConsumeFramesSettled(t.w, buf[t.n..]);
      }
  }

  lemma ConsumeSettled(w: World, buf: seq<byte>)
    requires Owing(w) == true && Inv(w) == true
    ensures Settled(Consume(w, buf).w, Consume(w, buf).close) == true
  {
    hide Inv, Farewell, ConsumeFrames, RecordOf, Ascii, GoawayFrame, Unclosed, RequestsUpTo;
    if w.c.prefaceSeen {
      ConsumeFramesSettled(w, buf);
    } else {
      OwingUnclosed(w);
      RequestsSeen(w);
      FarewellOf(w.log, w.c.lastStream, ProtocolError);
      if |buf| >= |PREFACE_TAIL| {
        ConnRuns.PrefaceInv(w);
        ConsumeFramesSettled(w.(c := w.c.(prefaceSeen := true)), buf[|PREFACE_TAIL|..]);
      }
    }
  }

  lemma PrefaceOwing(w: World)
    requires Owing(w) == true
    ensures Owing(Send(w, SettingsFrame(ServerSettings()))) == true
  {
    hide Gathered, SettingsBytes;
  }

  lemma PerformSettled(w: World, call: Call)
    requires Owing(w) == true && Inv(w) == true
    ensures Settled(Perform(w, call).w, Perform(w, call).close) == true
  {
    hide Owing, Inv, Leads, Farewell, RecordOf, Consume, WriteBlock, WriteBody, WriteTrailers, Release, SettingsFrame;
    match call
    case Preface => PrefaceOwing(w);
    case Feed(buf) => ConsumeSettled(w, buf);
    case Headers(id, block, end) =>
      var w0 := Note(w, WroteHeaders(id, end));
      MuteNote(w, WroteHeaders(id, end));
      MuteKeeps(w, w0);
      MuteBlock(w0, id, block, end);
      MuteKeeps(w0, WriteBlock(w0, id, block, end));
    case _ =>
      Ids31(w);
      var steps := CallSteps(w, call);
      MuteSteps(w, steps, Perform(w, call).w);
  }

  lemma {:induction false} RunSettled(w: World, calls: seq<Call>)
    requires Owing(w) == true && Inv(w) == true
    ensures Settled(Run(w, calls).w, Run(w, calls).close) == true
    decreases |calls|
  {
    hide Owing, Inv, Farewell, Perform, Safe;
    if calls != [] {
      ConnRuns.PerformGood(w, calls[0]);
      PerformSettled(w, calls[0]);
      if !Perform(w, calls[0]).close {
        RunSettled(Perform(w, calls[0]).w, calls[1..]);
      }
    }
  }

  lemma NewOwing()
    ensures Owing(NewWorld()) == true
  {
  }

  lemma NewRunSettled(calls: seq<Call>)
    ensures Settled(Run(NewWorld(), calls).w, Run(NewWorld(), calls).close) == true
  {
    NewWorldInv();
    NewOwing();
    hide Owing, Inv, Run, NewWorld;
    RunSettled(NewWorld(), calls);
  }

  // ----- the theorems

  /** While the connection is open, every PING was answered with its payload, in order, every SETTINGS frame was
      acknowledged once, and no GOAWAY was written. */
  lemma RepliesMatch(calls: seq<Call>)
    requires !Run(NewWorld(), calls).close
    ensures var r := RecordOf(Run(NewWorld(), calls).w.log);
            r.pongs == r.pings && r.acks == r.settings && r.goaways == 0
  {
    NewRunSettled(calls);
    hide Run, NewWorld, RecordOf;
  }

  /** The decoder's table is that of a peer whose every header block was decompressed once and in order: refused,
      malformed, trailing or surfaced, no block is skipped. */
  lemma DecoderInStep(calls: seq<Call>)
    requires !Run(NewWorld(), calls).close
    ensures Run(NewWorld(), calls).w.c.dec == RecordOf(Run(NewWorld(), calls).w.log).table
  {
    NewRunSettled(calls);
    hide Run, NewWorld, RecordOf;
  }

  /** A connection closes with its only GOAWAY, written last; it names an error and a stream at or above every
      request surfaced, and nothing was acknowledged twice before it. */
  lemma ClosesWithGoaway(calls: seq<Call>)
    requires Run(NewWorld(), calls).close
    ensures Farewell(Run(NewWorld(), calls).w.log)
  {
    NewRunSettled(calls);
    hide Run, NewWorld, Farewell;
  }
}
