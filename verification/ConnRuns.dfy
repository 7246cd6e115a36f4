// What holds of every run of a connection: any bytes, any application calls, in any order.
module ConnRuns {
  import opened Bytes
  import opened Frames
  import opened HpackTable
  import opened ConnModel
  import opened ConnShapes
  import opened ConnLog
  import opened ConnInv
  import opened ConnSend
  import opened ConnRecv
  import opened ConnBlocks
  import Segmentation
  import P = Probing
  import Rules = RequestRules

  /** An open connection is in order; a closed one has left a safe log. */
  ghost predicate Good(w: World, close: bool) {
    if close then Safe(w.log) else Inv(w)
  }

  lemma ClosingSafe(w: World, code: ErrorCode)
    requires Safe(w.log)
    ensures Safe(Send(w, GoawayFrame(w.c.lastStream, code)).log) && Safe(Send(w, GoawayFrame(0, code)).log)
  {
    hide TallyOf, TotalsOf;
  }

  lemma UnknownInv(w: World, f: Frame)
    requires Inv(w) == true && f.typ > CONTINUATION
    ensures Inv(Note(w, Received(f))) == true
  {
    ReceivePlain(w, f);
    NoteCore(w, Received(f));
  }

  lemma TurnGood(w: World, buf: seq<byte>)
    requires Inv(w) == true
    ensures match Segmentation.Turn(w, buf)
            case None => true
            case Some(t) => Good(t.w, t.close)
  {
    hide Inv, Safe, OnFrame, Join3, Join4;
    SafeOf(w);
    match ParseFrameHeader(buf)
    case None =>
    case Some(h) =>
      var total := FRAME_HEADER_LEN + h.length;
      ClosingSafe(w, FrameSizeError);
      ClosingSafe(w, ProtocolError);
      if h.length <= DEFAULT_MAX_FRAME_SIZE && total <= |buf| {
        var f := Frame(h.typ, h.flags, h.id, buf[FRAME_HEADER_LEN..total]);
        if f.typ > CONTINUATION {
          UnknownInv(w, f);
        } else {
          FrameInv(w, f);
          var r := OnFrame(Note(w, Received(f)), f);
          if r.code != NoError {
            ClosingSafe(r.w, r.code);
          }
        }
      }
  }

  lemma {:induction false} ConsumeFramesGood(w: World, buf: seq<byte>)
    requires Inv(w) == true
    ensures Good(ConsumeFrames(w, buf).w, ConsumeFrames(w, buf).close)
    decreases |buf|
  {
    hide Inv, Safe, ConsumeFrames, Segmentation.Turn;
    Segmentation.TurnUnfold(w, buf);
    TurnGood(w, buf);
    match Segmentation.Turn(w, buf)
    case None =>
    case Some(t) =>
      if !t.close {
        ConsumeFramesGood(t.w, buf[t.n..]);
      }
  }

  lemma PrefaceInv(w: World)
    requires Inv(w) == true
    ensures Inv(w.(c := w.c.(prefaceSeen := true))) == true
  {
    hide TallyOf, TotalsOf, Safe, StreamOk, ResponseOk, P.Valid, P.Holds;
    var v := w.(c := w.c.(prefaceSeen := true));
    forall x: nat ensures IdOk(v.c, x, TallyOf(v.log, x)) && ParkedOk(v.c, x) {
      assert IdOk(w.c, x, TallyOf(w.log, x)) && ParkedOk(w.c, x);
    }
  }

  lemma ConsumeGood(w: World, buf: seq<byte>)
    requires Inv(w) == true
    ensures Good(Consume(w, buf).w, Consume(w, buf).close)
  {
    hide Inv, Safe, ConsumeFrames;
    SafeOf(w);
    ClosingSafe(w, ProtocolError);
    ConsumeFramesGood(w, buf);
    PrefaceInv(w);
    if |buf| >= |PREFACE_TAIL| {
      ConsumeFramesGood(w.(c := w.c.(prefaceSeen := true)), buf[|PREFACE_TAIL|..]);
    }
  }

  lemma WroteHeadersTallies(log: Log, id: nat, end: bool)
    ensures SameTallies(log, Then(log, WroteHeaders(id, end)))
  {
  }

  lemma PerformGood(w: World, call: Call)
    requires Inv(w) == true
    ensures Good(Perform(w, call).w, Perform(w, call).close)
  {
    hide Inv, Safe, Consume, WriteBlock, WriteBody, WriteTrailers, Release, SameTallies, SettingsBytes;
    match call
    case Preface => SendPlainInv(w, SettingsFrame(ServerSettings()));
    case Feed(buf) => ConsumeGood(w, buf);
    case Headers(id, block, end) =>
      WroteHeadersTallies(w.log, id, end);
      NoteCore(w, WroteHeaders(id, end));
      WriteBlockInv(Note(w, WroteHeaders(id, end)), id, block, end);
    case Body(id, body, end) => WriteBodyInv(w, id, body, end);
    case Trailers(id, block) => WriteTrailersInv(w, id, block);
    case Abort(id, code) => ResetInv(w, id, code);
  }

  lemma {:induction false} RunFromGood(w: World, calls: seq<Call>)
    requires Inv(w) == true
    ensures Good(Run(w, calls).w, Run(w, calls).close)
    decreases |calls|
  {
    hide Inv, Safe, Perform;
    if calls != [] {
      PerformGood(w, calls[0]);
      if !Perform(w, calls[0]).close {
        RunFromGood(Perform(w, calls[0]).w, calls[1..]);
      }
    }
  }

  lemma RunGood(calls: seq<Call>)
    ensures Good(Run(NewWorld(), calls).w, Run(NewWorld(), calls).close)
  {
    NewWorldInv();
    hide Inv, Safe, Run, NewWorld;
    RunFromGood(NewWorld(), calls);
  }

  lemma RunSafe(calls: seq<Call>)
    ensures Safe(Run(NewWorld(), calls).w.log)
  {
    RunGood(calls);
    hide Run, NewWorld;
    if !Run(NewWorld(), calls).close {
      SafeOf(Run(NewWorld(), calls).w);
    }
  }

  // ----- the theorems

  /** No DATA and no trailers stay parked while both windows are open; trailers wait only behind parked DATA. */
  lemma NothingStranded(calls: seq<Call>, id: nat)
    requires !Run(NewWorld(), calls).close && id in Run(NewWorld(), calls).w.c.streams
    ensures var c := Run(NewWorld(), calls).w.c;
            var s := c.streams[id];
            && (s.parked != [] ==> Min(c.connSendWindow, s.sendWindow) <= 0)
            && (s.trailersPending || s.parkedEnd ==> s.parked != [])
  {
    RunGood(calls);
    var w := Run(NewWorld(), calls).w;
    hide Run, NewWorld;
    StreamOf(w, id);
    hide Core, StreamOk;
    assert ParkedOk(w.c, id);
  }

  /** DATA sent, then what is parked, is what the application wrote, in order; a stream that ended early sent a
      prefix. */
  lemma BodiesInOrder(calls: seq<Call>, id: nat)
    requires !Run(NewWorld(), calls).close
    ensures var w := Run(NewWorld(), calls).w;
            var t := TallyOf(w.log, id);
            if id in w.c.streams then t.out + w.c.streams[id].parked == t.bodies else t.out <= t.bodies
  {
    RunGood(calls);
    var w := Run(NewWorld(), calls).w;
    hide Run, NewWorld, TallyOf, TotalsOf, Safe, TableOk, HeaderOk, TotalsOk, StreamOk, AllParkedOk;
    assert IdOk(w.c, id, TallyOf(w.log, id));
  }

  /** Send windows are what the frames exchanged make them, and stay in range, across retroactive settings. */
  lemma WindowAccounting(calls: seq<Call>)
    requires !Run(NewWorld(), calls).close
    ensures var w := Run(NewWorld(), calls).w;
            var t := TotalsOf(w.log);
            && w.c.connSendWindow == DEFAULT_WINDOW_SIZE + t.credit - t.out
            && 0 <= w.c.connSendWindow <= MAX_WINDOW
            && w.c.initSendWindow == t.init && w.c.peerMaxFrame == t.maxFrame
            && forall id :: id in w.c.streams ==>
                 && w.c.streams[id].sendWindow == t.init + TallyOf(w.log, id).credit - |TallyOf(w.log, id).out|
                 && -MAX_WINDOW <= w.c.streams[id].sendWindow <= 2 * MAX_WINDOW
  {
    RunGood(calls);
    var w := Run(NewWorld(), calls).w;
    hide Run, NewWorld, TallyOf, TotalsOf, Safe, TableOk, HeaderOk, ResponseOk, RequestOk, AllParkedOk;
    forall id | id in w.c.streams
      ensures w.c.streams[id].sendWindow == TotalsOf(w.log).init + TallyOf(w.log, id).credit - |TallyOf(w.log, id).out|
      ensures -MAX_WINDOW <= w.c.streams[id].sendWindow <= 2 * MAX_WINDOW
    {
      assert IdOk(w.c, id, TallyOf(w.log, id));
    }
  }

  /** Receive windows are full between calls, and the connection was credited with all DATA received. */
  lemma ReceiveWindowsFull(calls: seq<Call>)
    requires !Run(NewWorld(), calls).close
    ensures var w := Run(NewWorld(), calls).w;
            && w.c.connRecvWindow == DEFAULT_WINDOW_SIZE
            && TotalsOf(w.log).creditOut == TotalsOf(w.log).into
            && forall id :: id in w.c.streams && !w.c.streams[id].remoteDone ==>
                              w.c.streams[id].recvWindow == DEFAULT_WINDOW_SIZE
  {
    RunGood(calls);
    var w := Run(NewWorld(), calls).w;
    hide Run, NewWorld, TallyOf, TotalsOf, Safe, TableOk, HeaderOk, ResponseOk, RequestOk, AllParkedOk;
    forall id | id in w.c.streams && !w.c.streams[id].remoteDone
      ensures w.c.streams[id].recvWindow == DEFAULT_WINDOW_SIZE
    {
      assert IdOk(w.c, id, TallyOf(w.log, id));
    }
  }

  /** So no DATA frame a peer may send, at most 16384 octets, can meet the flow-control error. */
  lemma ReceivedDataFits(calls: seq<Call>, f: Frame)
    requires !Run(NewWorld(), calls).close && f.typ == DATA && |f.payload| <= DEFAULT_MAX_FRAME_SIZE
    ensures OnFrame(Note(Run(NewWorld(), calls).w, Received(f)), f).code != FlowControlError
  {
    RunGood(calls);
    hide Run, NewWorld, Inv, OnData;
    DataNeverOverflows(Run(NewWorld(), calls).w, f);
  }

  ghost predicate IsPrefix(p: Log, log: Log) {
    p == log || (log.Then? && IsPrefix(p, log.before))
  }

  /** The recorded peak is the greatest number of streams open at any moment of the log. */
  lemma {:induction false} PeakIsMaximum(log: Log)
    ensures forall p :: IsPrefix(p, log) ==> TotalsOf(p).open <= TotalsOf(log).peak
    ensures exists p :: IsPrefix(p, log) && TotalsOf(p).open == TotalsOf(log).peak
  {
    match log
    case Nothing =>
      assert IsPrefix(Nothing, log);
    case Then(before, e) =>
      PeakIsMaximum(before);
      var q :| IsPrefix(q, before) && TotalsOf(q).open == TotalsOf(before).peak;
      assert IsPrefix(q, log) && IsPrefix(log, log);
      forall p | IsPrefix(p, log) ensures TotalsOf(p).open <= TotalsOf(log).peak {
        assert p == log || IsPrefix(p, before);
        OpenBelowPeak(before);
      }
  }

  lemma {:induction false} OpenBelowPeak(log: Log)
    ensures TotalsOf(log).open <= TotalsOf(log).peak
  {
    match log
    case Nothing =>
    case Then(before, e) => OpenBelowPeak(before);
  }

  /** The pool: as many states exist, open or pooled, as streams were ever open at once, at most 128; the ids
      of open streams are odd and none is above the last one seen. */
  lemma PoolIsPeak(calls: seq<Call>)
    requires !Run(NewWorld(), calls).close
    ensures var w := Run(NewWorld(), calls).w;
            && |w.c.streams| == TotalsOf(w.log).open
            && |w.c.streams| + w.c.free == TotalsOf(w.log).peak <= MAX_CONCURRENT_STREAMS
            && forall id :: id in w.c.streams ==> id % 2 == 1 && id <= w.c.lastStream
  {
    RunGood(calls);
    hide Run, NewWorld, TallyOf, TotalsOf, Safe, HeaderOk, IdsOk, AllParkedOk, P.Valid;
  }

  ghost predicate Lists(rs: seq<Request>, id: nat) {
    exists i :: 0 <= i < |rs| && rs[i].id == id
  }

  lemma ListsSnoc(rs: seq<Request>, r: Request, id: nat)
    ensures Lists(rs + [r], id) <==> Lists(rs, id) || r.id == id
  {
    if Lists(rs, id) {
      var i :| 0 <= i < |rs| && rs[i].id == id;
      assert (rs + [r])[i].id == id;
    }
    assert (rs + [r])[|rs|] == r;
  }

  lemma {:induction false} SurfacedAre(log: Log, id: nat)
    ensures TallyOf(log, id).surfaced <==> Lists(Requests(log), id)
  {
    match log
    case Nothing =>
    case Then(before, e) =>
      SurfacedAre(before, id);
      if e.Surfaced? {
        ListsSnoc(Requests(before), e.r, id);
      } else {
        assert Requests(log) == Requests(before);
      }
  }

  lemma {:induction false} RequestsDistinct(log: Log)
    requires Safe(log)
    ensures forall i, j :: 0 <= i < j < |Requests(log)| ==> Requests(log)[i].id != Requests(log)[j].id
    ensures forall i :: 0 <= i < |Requests(log)| ==>
                          && Rules.ValidRequest(Requests(log)[i].headers)
                          && (Rules.DeclaredLength(Requests(log)[i].headers) >= 0 ==>
                                Rules.DeclaredLength(Requests(log)[i].headers) == |Requests(log)[i].body|)
  {
    hide Rules.ValidRequest, Rules.DeclaredLength, FrameAllowed;
    match log
    case Nothing =>
    case Then(before, e) =>
      RequestsDistinct(before);
      if e.Surfaced? {
        SurfacedAre(before, e.r.id);
        var n := |Requests(before)|;
        assert forall i :: 0 <= i < n ==> Requests(log)[i] == Requests(before)[i];
      }
  }

  lemma {:induction false} EventsSafe(log: Log, p: Log, e: Event)
    requires Safe(log) && IsPrefix(Then(p, e), log)
    ensures EventSafe(p, e)
  {
    hide EventSafe;
    if log != Then(p, e) {
      EventsSafe(log.before, p, e);
    }
  }

  /** At the moment any frame is written, in any run, it fits the peer's frame size and, if it is DATA with
      content, both flow-control windows that the frames exchanged until then define. */
  lemma FramesAllowed(calls: seq<Call>, p: Log, f: Frame)
    requires IsPrefix(Then(p, Sent(f)), Run(NewWorld(), calls).w.log)
    ensures FrameAllowed(p, f)
  {
    RunSafe(calls);
    hide Run, NewWorld, Safe, FrameAllowed;
    EventsSafe(Run(NewWorld(), calls).w.log, p, Sent(f));
  }

  /** Over a whole run, closed or not, each stream id surfaces at most once, well formed, with its declared length. */
  lemma RequestsSurfaceOnce(calls: seq<Call>)
    ensures var rs := Requests(Run(NewWorld(), calls).w.log);
            && (forall i, j :: 0 <= i < j < |rs| ==> rs[i].id != rs[j].id)
            && (forall i :: 0 <= i < |rs| ==>
                              && Rules.ValidRequest(rs[i].headers)
                              && (Rules.DeclaredLength(rs[i].headers) >= 0 ==>
                                  Rules.DeclaredLength(rs[i].headers) == |rs[i].body|))
  {
    RunSafe(calls);
    hide Run, NewWorld;
    RequestsDistinct(Run(NewWorld(), calls).w.log);
  }

  /** Everything a run writes, closed or not, parses back as exactly the frames it sent. */
  lemma OutputWellFramed(calls: seq<Call>)
    ensures var log := Run(NewWorld(), calls).w.log;
            ParseAll(Wire(log)) == Some(SentFrames(log))
  {
    RunSafe(calls);
    hide Run, NewWorld;
    WireWellFramed(Run(NewWorld(), calls).w.log);
  }
}
