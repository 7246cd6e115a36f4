// Receiving keeps the invariant, one lemma per frame handler of http2/conn.v.
module ConnRecv {
  import opened Bytes
  import opened Frames
  import opened HpackTable
  import opened ConnModel
  import opened ConnShapes
  import opened ConnLog
  import opened ConnInv
  import opened ConnSend
  import HpackBlock
  import P = Probing
  import Rules = RequestRules

  /** A handler's verdict: the invariant, or an error with a log that is still safe. */
  ghost predicate Handled(r: Result) {
    if r.code == NoError then Inv(r.w) else Safe(r.w.log)
  }

  lemma NoteCore(w: World, e: Event)
    requires Inv(w) == true && SameTallies(w.log, Then(w.log, e))
    ensures Inv(Note(w, e)) == true
  {
    hide SameTallies, AllParkedOk, Core;
    SameCore(w, Then(w.log, e));
  }

  lemma NotedSafe(w: World, f: Frame)
    requires Inv(w) == true
    ensures Safe(Then(w.log, Received(f)))
  {
  }

  /** Replacing one stream's content moves no window. */
  lemma TotalsKept(c: Conn, t: Totals, id: nat, s: Stream, t1: Totals)
    requires TotalsOk(c, t) && id in c.streams && t1.into == t1.creditOut
    requires t1 == t.(into := t1.into, creditOut := t1.creditOut)
    ensures TotalsOk(c.(streams := c.streams[id := s]), t1)
  {
    assert c.streams[id := s].Keys == c.streams.Keys;
    assert |c.streams[id := s]| == |c.streams|;
  }

  lemma ReplaceInv(w: World, v: World, id: nat, s: Stream)
    requires Inv(w) == true && id in w.c.streams && v.c == w.c.(streams := w.c.streams[id := s])
    requires forall x: nat :: x != id ==> TallyOf(v.log, x) == TallyOf(w.log, x)
    requires s.remoteDone ==> w.c.streams[id].remoteDone || !w.c.hdr.expecting
    requires s.parked == w.c.streams[id].parked && s.sendWindow == w.c.streams[id].sendWindow
    requires TotalsOf(v.log) == TotalsOf(w.log).(into := TotalsOf(v.log).into, creditOut := TotalsOf(v.log).creditOut)
    requires TotalsOf(v.log).into == TotalsOf(v.log).creditOut && Safe(v.log)
    requires StreamOk(w.c.initSendWindow, s, TallyOf(v.log, id)) && ResponseOk(s, TallyOf(v.log, id))
    ensures Inv(v) == true
  {
    hide TallyOf, TotalsOf, Safe, StreamOk, ResponseOk, TableOk, HeaderOk, TotalsOk, IdsOk;
    TotalsKept(w.c, TotalsOf(w.log), id, s, TotalsOf(v.log));
    OneChangedCore(w, v, id, s);
    hide Core;
    assert ParkedOk(w.c, id);
    OthersStayParked(w, v, id, s);
  }

  lemma StreamOf(w: World, id: nat)
    requires Inv(w) == true && id in w.c.streams
    ensures StreamOk(w.c.initSendWindow, w.c.streams[id], TallyOf(w.log, id))
    ensures ResponseOk(w.c.streams[id], TallyOf(w.log, id))
    ensures TotalsOf(w.log).into == TotalsOf(w.log).creditOut && Safe(w.log)
    ensures !Unused(w.c, id)
  {
    hide TallyOf, TotalsOf, Safe, StreamOk, ResponseOk, P.Valid, AllParkedOk;
    assert IdOk(w.c, id, TallyOf(w.log, id));
    NotUnused(w.c, id);
  }

  // ----- trailers of a response

  lemma WroteTrailersTallies(log: Log, id: nat)
    ensures SameTallies(log, Then(log, WroteTrailers(id)))
  {
  }

  lemma WriteTrailersInv(w: World, id: nat, block: seq<byte>)
    requires Inv(w) == true
    ensures Inv(WriteTrailers(w, id, block)) == true
  {
    if id in w.c.streams {
      WroteTrailersTallies(w.log, id);
      NoteCore(w, WroteTrailers(id));
      var w1 := Note(w, WroteTrailers(id));
      var s := w.c.streams[id];
      StreamOf(w1, id);
      hide Inv, TallyOf, TotalsOf, Safe;
      if s.parked == [] {
        WriteBlockInv(w1, id, block, true);
      } else {
        var s1 := s.(trailers := block, trailersPending := true);
        ReplaceInv(w1, Update(w1, id, s1), id, s1);
      }
    }
  }

  // ----- the end of a request

  lemma SurfacedTallies(log: Log, r: Request)
    ensures var l := Then(log, Surfaced(r));
            && TallyOf(l, r.id) == TallyOf(log, r.id).(surfaced := true)
            && (forall x: nat :: x != r.id ==> TallyOf(l, x) == TallyOf(log, x))
            && TotalsOf(l) == TotalsOf(log)
            && (Safe(log) && RequestSound(log, r) ==> Safe(l))
  {
    hide RequestSound;
  }

  /** Surfacing a stream's request, with whatever receive window it ends with. */
  lemma SurfaceInv(w: World, id: u31, recv: int)
    requires Inv(w) == true && !w.c.hdr.expecting && id in w.c.streams && !w.c.streams[id].remoteDone
    requires !w.c.streams[id].rejected
    requires w.c.streams[id].declaredLen >= 0 ==> w.c.streams[id].declaredLen == |w.c.streams[id].body|
    ensures var s := w.c.streams[id];
            Inv(Note(Update(w, id, s.(remoteDone := true, recvWindow := recv)),
                     Surfaced(Request(id, s.headers, s.body))))
  {
    var s := w.c.streams[id];
    var r := Request(id, s.headers, s.body);
    var s1 := s.(remoteDone := true, recvWindow := recv);
    var v := Note(Update(w, id, s1), Surfaced(r));
    SurfacedTallies(w.log, r);
    StreamOf(w, id);
    hide Inv, TallyOf, TotalsOf, Safe, Rules.ValidRequest, Rules.DeclaredLength;
    assert RequestSound(w.log, r);
    ReplaceInv(w, v, id, s1);
  }

  /** Completing a request: w is in order, and the state at hand differs from it in the receive window only. */
  lemma CompleteInv(w: World, id: u31, recv: int)
    requires Inv(w) && !w.c.hdr.expecting && (id in w.c.streams ==> !w.c.streams[id].remoteDone)
    ensures id in w.c.streams ==> Inv(Complete(Update(w, id, w.c.streams[id].(recvWindow := recv)), id))
    ensures id !in w.c.streams ==> Inv(Complete(w, id))
  {
    hide Inv, Release, P.Remove;
    if id in w.c.streams {
      var s := w.c.streams[id];
      var a := s.(recvWindow := recv);
      var u := Update(w, id, a);
      if s.rejected {
        ReleaseSame(w, u, id);
        ReleaseInv(w, id);
      } else if s.declaredLen >= 0 && s.declaredLen != |s.body| {
        ResetInv(w, id, ProtocolError);
        ReleaseSame(Send(w, RstFrame(id, ProtocolError)), Send(u, RstFrame(id, ProtocolError)), id);
      } else {
        SurfaceInv(w, id, recv);
        var b := s.(remoteDone := true, recvWindow := recv);
        assert w.c.streams[id := a][id := b] == w.c.streams[id := b];
      }
    }
  }

  /** A stream error: RST_STREAM, and the stream is gone. */
  lemma ResetInv(w: World, id: nat, code: ErrorCode)
    requires Inv(w) == true
    ensures Inv(Release(Send(w, RstFrame(id, code)), id)) == true
  {
    SendPlainInv(w, RstFrame(id, code));
    hide Inv, Release;
    ReleaseInv(Send(w, RstFrame(id, code)), id);
  }

  /** Releasing a stream forgets what it held. */
  lemma ReleaseSame(w: World, u: World, id: nat)
    requires id in w.c.streams && u.log == w.log
    requires u.c == w.c.(streams := u.c.streams) && id in u.c.streams
    requires u.c.streams == w.c.streams[id := u.c.streams[id]]
    ensures Release(u, id) == Release(w, id)
  {
    hide P.Remove;
    assert u.c.streams - {id} == w.c.streams - {id};
  }

  lemma CompleteSimply(w: World, id: u31)
    requires Inv(w) && !w.c.hdr.expecting && (id in w.c.streams ==> !w.c.streams[id].remoteDone)
    ensures Inv(Complete(w, id)) == true
  {
    hide Inv, Complete;
    if id in w.c.streams {
      var s := w.c.streams[id];
      assert w.c.streams[id := s.(recvWindow := s.recvWindow)] == w.c.streams;
      CompleteInv(w, id, s.recvWindow);
    } else {
      CompleteInv(w, id, 0);
    }
  }

  // ----- DATA

  lemma DataTallies(log: Log, f: Frame)
    requires f.typ == DATA
    ensures var l := Then(log, Received(f));
            && TallyOf(l, f.id) == TallyOf(log, f.id).(into := TallyOf(log, f.id).into + Content(f))
            && (forall x: nat :: x != f.id ==> TallyOf(l, x) == TallyOf(log, x))
            && TotalsOf(l) == TotalsOf(log).(into := TotalsOf(log).into + |f.payload|)
            && (Safe(log) ==> Safe(l))
  {
    hide Content;
  }

  lemma IncrementWritten(id: nat, n: nat)
    requires n < 0x8000_0000
    ensures Increment(WindowUpdateFrame(id, n)) == n
  {
    hide ReadU32, U32Bytes;
    U32RoundTrip([], n, []);
    var b := U32Bytes(n);
    assert [] + b + [] == b && n % 0x8000_0000 == n;
  }

  lemma ReplenishTallies(log: Log, n: nat)
    requires n < 0x8000_0000
    ensures var l := Then(log, Sent(WindowUpdateFrame(0, n)));
            && (forall x: nat :: TallyOf(l, x) == TallyOf(log, x))
            && TotalsOf(l) == TotalsOf(log).(creditOut := TotalsOf(log).creditOut + n)
            && (Safe(log) ==> Safe(l))
  {
    IncrementWritten(0, n);
    hide Increment;
  }

  /** The state once a DATA frame's content is in and the connection window is full again. */
  function Accepted(w: World, f: Frame): (v: World)
    requires f.id in w.c.streams
    ensures f.id in v.c.streams
  {
    var s := w.c.streams[f.id];
    var w1 := Update(Note(w, Received(f)), f.id, if s.rejected then s else s.(body := s.body + Content(f)));
    if f.payload == [] then w1 else Send(w1, WindowUpdateFrame(0, |f.payload|))
  }

  lemma AcceptedTallies(w: World, f: Frame)
    requires f.typ == DATA && f.id in w.c.streams && |f.payload| <= DEFAULT_MAX_FRAME_SIZE
    ensures var l := Accepted(w, f).log;
            && TallyOf(l, f.id) == TallyOf(w.log, f.id).(into := TallyOf(w.log, f.id).into + Content(f))
            && (forall x: nat :: x != f.id ==> TallyOf(l, x) == TallyOf(w.log, x))
            && TotalsOf(l) == TotalsOf(w.log).(into := TotalsOf(w.log).into + |f.payload|,
                                               creditOut := TotalsOf(w.log).creditOut + |f.payload|)
            && (Safe(w.log) ==> Safe(l))
  {
    DataTallies(w.log, f);
    ReplenishTallies(Then(w.log, Received(f)), |f.payload|);
    hide TallyOf, TotalsOf, Safe, Content;
  }

  lemma AcceptedInv(w: World, f: Frame)
    requires Inv(w) == true && f.typ == DATA && f.id in w.c.streams && |f.payload| <= DEFAULT_MAX_FRAME_SIZE
    requires !w.c.streams[f.id].remoteDone
    ensures Inv(Accepted(w, f)) == true
  {
    AcceptedTallies(w, f);
    StreamOf(w, f.id);
    hide Inv, TallyOf, TotalsOf, Safe, Content, Rules.ValidRequest, Rules.DeclaredLength;
    ReplaceInv(w, Accepted(w, f), f.id, Accepted(w, f).c.streams[f.id]);
  }

  /** What an accepted DATA frame comes to. */
  lemma OnDataForm(w: World, f: Frame)
    requires f.typ == DATA && OnData(Note(w, Received(f)), f).code == NoError
    ensures f.id != 0 && f.id in w.c.streams && !w.c.streams[f.id].remoteDone
    ensures var v := Accepted(w, f);
            var s := v.c.streams[f.id];
            OnData(Note(w, Received(f)), f).w ==
            if Bit0(f.flags) then Complete(Update(v, f.id, s.(recvWindow := s.recvWindow - |f.payload|)), f.id)
            else if f.payload == [] then v
            else Send(v, WindowUpdateFrame(f.id, |f.payload|))
  {
    hide Complete;
    var s := w.c.streams[f.id];
    var a := if s.rejected then s else s.(body := s.body + Content(f));
    var b := a.(recvWindow := s.recvWindow - |f.payload|);
    assert w.c.streams[f.id := a][f.id := b] == w.c.streams[f.id := b];
    assert w.c.streams[f.id := a.(recvWindow := s.recvWindow)] == w.c.streams[f.id := a];
  }

  lemma OnDataError(w: World, f: Frame)
    requires OnData(w, f).code != NoError
    ensures OnData(w, f).w == w
  {
    hide Complete;
  }

  lemma OnDataInv(w: World, f: Frame)
    requires Inv(w) == true && f.typ == DATA && !w.c.hdr.expecting && |f.payload| <= DEFAULT_MAX_FRAME_SIZE
    ensures Handled(OnData(Note(w, Received(f)), f))
  {
    hide Inv, OnData, Complete;
    var r := OnData(Note(w, Received(f)), f);
    if r.code != NoError {
      OnDataError(Note(w, Received(f)), f);
      NotedSafe(w, f);
    } else {
      OnDataForm(w, f);
      AcceptedInv(w, f);
      var v := Accepted(w, f);
      if Bit0(f.flags) {
        CompleteInv(v, f.id, v.c.streams[f.id].recvWindow - |f.payload|);
      } else if f.payload != [] {
        SendPlainInv(v, WindowUpdateFrame(f.id, |f.payload|));
      }
    }
  }

  /** The DATA flow-control error cannot happen: the windows between frames are full, and a frame is smaller. */
  lemma DataNeverOverflows(w: World, f: Frame)
    requires Inv(w) == true && f.typ == DATA && |f.payload| <= DEFAULT_MAX_FRAME_SIZE
    ensures OnData(Note(w, Received(f)), f).code != FlowControlError
  {
    hide TallyOf, TotalsOf, Safe, TableOk, HeaderOk, ResponseOk, RequestOk, Complete, Unpad;
    if f.id in w.c.streams {
      assert IdOk(w.c, f.id, TallyOf(w.log, f.id));
    }
  }
}
