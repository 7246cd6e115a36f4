// Stream ids do not come back: once a stream is closed or refused, its DATA closes the connection (http2/conn.v).
module ConnSpent {
  import opened Bytes
  import opened Frames
  import opened ConnModel
  import opened ConnShapes
  import opened ConnLog
  import opened ConnInv
  import opened ConnRecv
  import opened ConnBlocks
  import opened ConnRuns
  import opened ConnHops
  import opened ConnIntake
  import ConnEnding
  import ConnReplies
  import HpackBlock
  import P = Probing
  import Rules = RequestRules

  /** A stream that is closed for good: announced or passed over, and not open. */
  ghost predicate Spent(c: Conn, id: nat) {
    id !in c.streams && !Unused(c, id)
  }

  /** From w to v stream id stays closed, and its record stays as it was. */
  ghost predicate Past(w: World, v: World, id: nat) {
    Spent(v.c, id) && Frozen(w.log, v.log, id)
  }

  lemma FrozenTwice(a: Log, b: Log, c: Log, id: nat)
    requires Frozen(a, b, id) && Frozen(b, c, id)
    ensures Frozen(a, c, id)
  {
    hide TallyOf, ConnEnding.EndingOf;
  }

  lemma FrozenNote(log: Log, e: Event, id: nat)
    requires (e.Sent? ==> e.f.typ != DATA) && !e.WroteBody?
    ensures Frozen(log, Then(log, e), id)
  {
  }

  // ----- one operation

  lemma StillSpent(w: World, v: World, id: nat)
    requires Still(w, v) == true && Spent(w.c, id)
    ensures Past(w, v, id)
  {
    hide IntakeOf, FieldsTied, Requests, Frozen;
  }

  lemma ReleaseSpent(w: World, x: nat, id: nat)
    requires Spent(w.c, id)
    ensures Past(w, Release(w, x), id)
  {
    hide P.Remove;
    if x in w.c.streams {
      FrozenNote(w.log, Released(x), id);
    }
  }

  lemma ResetSpent(w: World, x: nat, code: ErrorCode, id: nat)
    requires Spent(w.c, id)
    ensures Past(w, Release(Send(w, RstFrame(x, code)), x), id)
  {
    hide Release, Frozen;
    var v := Send(w, RstFrame(x, code));
    FrozenNote(w.log, Sent(RstFrame(x, code)), id);
    ReleaseSpent(v, x, id);
    FrozenTwice(w.log, v.log, Release(v, x).log, id);
  }

  lemma CompleteSpent(w: World, x: u31, id: nat)
    requires Spent(w.c, id)
    ensures Past(w, Complete(w, x), id)
  {
    ReleaseSpent(w, x, id);
    ResetSpent(w, x, ProtocolError, id);
    hide Release;
    if x in w.c.streams {
      var s := w.c.streams[x];
      FrozenNote(w.log, Surfaced(Request(x, s.headers, s.body)), id);
    }
  }

  lemma AcceptedSpent(w: World, f: Frame, id: nat)
    requires Spent(w.c, id) && f.id in w.c.streams
    ensures Past(w, Accepted(w, f), id)
  {
    hide Content, Frozen, TallyOf;
    var l := Then(w.log, Received(f));
    FrozenNote(w.log, Received(f), id);
    FrozenNote(l, Sent(WindowUpdateFrame(0, |f.payload|)), id);
    FrozenTwice(w.log, l, Then(l, Sent(WindowUpdateFrame(0, |f.payload|))), id);
  }

  lemma DataSpent(w: World, f: Frame, id: nat)
    requires Spent(w.c, id) && f.typ == DATA && OnData(Note(w, Received(f)), f).code == NoError
    ensures Past(w, OnData(Note(w, Received(f)), f).w, id)
  {
    hide OnData, Complete, Accepted, Frozen;
    OnDataForm(w, f);
    AcceptedSpent(w, f, id);
    var v := Accepted(w, f);
    var s := v.c.streams[f.id];
    if Bit0(f.flags) {
      var u := Update(v, f.id, s.(recvWindow := s.recvWindow - |f.payload|));
      CompleteSpent(u, f.id, id);
      FrozenTwice(w.log, v.log, Complete(u, f.id).log, id);
    } else {
      FrozenNote(v.log, Sent(WindowUpdateFrame(f.id, |f.payload|)), id);
      FrozenTwice(w.log, v.log, Then(v.log, Sent(WindowUpdateFrame(f.id, |f.payload|))), id);
    }
  }

  lemma OpenSpent(w: World, x: u31, s: Stream, id: nat)
    requires Spent(w.c, id) && x != id
    ensures Past(w, Open(w, x, s), id) && Past(w, Send(Open(w, x, s), RstFrame(x, ProtocolError)), id)
  {
    hide P.Put, Frozen;
    var v := Open(w, x, s);
    FrozenNote(w.log, Opened(x), id);
    FrozenNote(v.log, Sent(RstFrame(x, ProtocolError)), id);
    FrozenTwice(w.log, v.log, Then(v.log, Sent(RstFrame(x, ProtocolError))), id);
  }

  lemma FinishSpent(w: World, id: nat)
    requires Spent(w.c, id) && w.c.hdr.expecting && FinishBlock(w).code == NoError
    ensures Past(w, FinishBlock(w).w, id)
  {
    hide HpackBlock.DecodeBlock, Complete, Release, Open, Frozen, Rules.ValidRequest, Rules.ValidTrailers,
         Rules.DeclaredLength;
    var h := w.c.hdr;
    var d := HpackBlock.DecodeBlock(w.c.dec, h.block);
    var w1 := w.(c := w.c.(hdr := h.(expecting := false), dec := d.table));
    if h.trailers {
      CompleteSpent(w1, h.id, id);
      ResetSpent(w1, h.id, ProtocolError, id);
    } else if h.refused {
      FrozenNote(w.log, Sent(RstFrame(h.id, RefusedStream)), id);
    } else {
      var ok := Rules.ValidRequest(d.fields);
      var malformed := h.malformed || !ok;
      var s := FreshStream(w.c.initSendWindow).(
               headers := d.fields,
               rejected := malformed,
               declaredLen := if ok then Rules.DeclaredLength(d.fields) else -1);
      OpenSpent(w1, h.id, s, id);
      var w2 := Open(w1, h.id, s);
      var w3 := if malformed then Send(w2, RstFrame(h.id, ProtocolError)) else w2;
      CompleteSpent(w3, h.id, id);
      if h.endStream {
        FrozenTwice(w.log, w3.log, Complete(w3, h.id).log, id);
      }
    }
  }

  lemma HeadersSpent(w: World, f: Frame, id: nat)
    requires Spent(w.c, id) && !w.c.hdr.expecting && OnHeaders(w, f).code == NoError
    ensures Past(w, OnHeaders(w, f).w, id)
  {
    hide FinishBlock, StartBlock;
    StartBlockForm(w.c, f);
    match StartBlock(w.c, f)
    case Bad(_) =>
    case Begin(h, last) =>
      if Bit2(f.flags) {
        FinishSpent(w.(c := w.c.(hdr := h, lastStream := last)), id);
      }
  }

  lemma ContinuationSpent(w: World, f: Frame, id: nat)
    requires Spent(w.c, id) && OnContinuation(w, f).code == NoError
    ensures Past(w, OnContinuation(w, f).w, id)
  {
    hide FinishBlock;
    var h := w.c.hdr;
    if Bit2(f.flags) {
      FinishSpent(w.(c := w.c.(hdr := h.(block := h.block + f.payload))), id);
    }
  }

  lemma FrameSpent(w: World, f: Frame, id: nat)
    requires Inv(w) == true && IntakeOk(w) == true && Spent(w.c, id) && f.typ <= CONTINUATION
    requires OnFrame(Note(w, Received(f)), f).code == NoError
    ensures Past(w, OnFrame(Note(w, Received(f)), f).w, id)
  {
    hide Inv, IntakeOk, Still, Matched, Frozen, OnData, OnHeaders, OnPriority, OnReset, OnSettings, OnPing, OnGoaway,
         OnWindowUpdate, OnContinuation;
    var w0 := Note(w, Received(f));
    if f.typ == DATA {
      DataSpent(w, f, id);
    } else if f.typ == HEADERS || f.typ == CONTINUATION {
      FrozenNote(w.log, Received(f), id);
      if f.typ == HEADERS {
        HeadersSpent(w0, f, id);
      } else {
        ContinuationSpent(w0, f, id);
      }
      FrozenTwice(w.log, w0.log, OnFrame(w0, f).w.log, id);
    } else {
      OkMatched(w);
      OtherStill(w, f);
      StillSpent(w, OnFrame(w0, f).w, id);
    }
  }

  // ----- runs

  lemma HopSpent(w: World, hop: Hop, id: nat)
    requires Inv(w) == true && IntakeOk(w) == true && Spent(w.c, id) && Fits(w, hop)
    ensures Past(w, Take(w, hop), id)
  {
    hide Inv, IntakeOk, Still, Matched, Frozen, OnFrame, Perform;
    var v := Take(w, hop);
    OkMatched(w);
    match hop
    case Accept(f) => FrameSpent(w, f, id);
    case Skip(f) => FrozenNote(w.log, Received(f), id);
    case Greet =>
      StillLike(w, v);
      StillSpent(w, v, id);
    case Make(call) =>
      CallStill(w, call);
      StillSpent(w, v, id);
  }

  lemma {:induction false} PathSpent(w: World, hops: seq<Hop>, v: World, id: nat)
    requires Inv(w) == true && IntakeOk(w) == true && Spent(w.c, id) && Path(w, hops, v)
    ensures Past(w, v, id)
    decreases |hops|
  {
    hide Inv, IntakeOk, Spent, Fits, Take;
    if hops == [] {
    } else {
      var u := Take(w, hops[0]);
      HopInv(w, hops[0]);
      HopIntake(w, hops[0]);
      HopSpent(w, hops[0], id);
      hide Frozen;
      PathSpent(u, hops[1..], v, id);
      FrozenTwice(w.log, u.log, v.log, id);
    }
  }

  /** The record is kept whether the connection goes on or closes. */
  ghost predicate Gone(w: World, v: World, close: bool, id: nat) {
    Frozen(w.log, v.log, id) && (!close ==> Spent(v.c, id))
  }

  lemma FrozenLeaves(a: Log, b: Log, id: nat)
    requires Leaves(a, b)
    ensures Frozen(a, b, id)
  {
    hide Frozen;
    FrozenNote(b.before, b.last, id);
    if b.before != a {
      FrozenNote(a, b.before.last, id);
      FrozenTwice(a, b.before, b, id);
    }
  }

  lemma RunSpent(w: World, calls: seq<Call>, id: nat)
    requires Inv(w) == true && IntakeOk(w) == true && Spent(w.c, id)
    ensures Gone(w, Run(w, calls).w, Run(w, calls).close, id)
  {
    hide Inv, IntakeOk, Spent, Frozen, Path, Leaves, Run;
    var hops, v := RunHops(w, calls);
    PathSpent(w, hops, v, id);
    if Run(w, calls).close {
      FrozenLeaves(v.log, Run(w, calls).w.log, id);
      FrozenTwice(w.log, v.log, Run(w, calls).w.log, id);
    }
  }

  // ----- DATA on a stream that is not open

  /** DATA meets STREAM_CLOSED exactly when no block is being received and the stream is spent, or open with its
      request side complete. */
  lemma StreamClosedIff(w: World, f: Frame)
    requires f.typ == DATA
    ensures OnFrame(w, f).code == StreamClosed <==>
            && !w.c.hdr.expecting && f.id != 0
            && (Spent(w.c, f.id) || (f.id in w.c.streams && w.c.streams[f.id].remoteDone))
  {
    hide Complete, Unpad, Update, OnHeaders, OnPriority, OnReset, OnSettings, OnPing, OnGoaway, OnWindowUpdate,
         OnContinuation;
  }

  /** A stream id that is spent stays so in every run that goes on from there: it is not opened again, nothing more is
      written to it or sent on it as DATA, and the record of its ending stays. */
  lemma IdsNeverReturn(before: seq<Call>, after: seq<Call>, id: nat)
    requires !Run(NewWorld(), before).close && Spent(Run(NewWorld(), before).w.c, id)
    ensures var w := Run(NewWorld(), before).w;
            Gone(w, Run(w, after).w, Run(w, after).close, id)
  {
    hide Inv, IntakeOk, Spent, Gone, Run, NewWorld;
    ReachedOk(before);
    RunSpent(Run(NewWorld(), before).w, after, id);
  }

  lemma ReachedOk(calls: seq<Call>)
    requires !Run(NewWorld(), calls).close
    ensures Inv(Run(NewWorld(), calls).w) == true && IntakeOk(Run(NewWorld(), calls).w) == true
  {
    hide Inv, Safe, IntakeOk, Run, NewWorld, FieldsTied, Requests, IntakeOf;
    RunGood(calls);
    NewRunIntake(calls);
  }

  /** The last frame of a header block that is refused: HEADERS for a new stream while the limit is reached, or the
      last CONTINUATION of a block that such a frame began. */
  predicate Refuses(c: Conn, f: Frame) {
    && Bit2(f.flags) && |f.payload| <= DEFAULT_MAX_FRAME_SIZE
    && if f.typ == HEADERS then !c.hdr.expecting && f.id !in c.streams && |c.streams| >= MAX_CONCURRENT_STREAMS
       else f.typ == CONTINUATION && c.hdr.expecting && c.hdr.refused && !c.hdr.trailers
  }

  /** A block begun by HEADERS without END_HEADERS is one to refuse exactly when the limit is reached. */
  lemma BegunRefused(w: World, f: Frame)
    requires !w.c.hdr.expecting && f.typ == HEADERS && !Bit2(f.flags) && OnFrame(w, f).code == NoError
    ensures var h := OnFrame(w, f).w.c.hdr;
            && h.expecting && h.id == f.id
            && (h.refused && !h.trailers <==> f.id !in w.c.streams && |w.c.streams| >= MAX_CONCURRENT_STREAMS)
  {
    hide StartBlock, FinishBlock, DependsOnItself, ConnReplies.Fragment, OnData, OnPriority, OnReset, OnSettings,
         OnPing, OnGoaway, OnWindowUpdate, OnContinuation;
    StartBlockForm(w.c, f);
    StartIntake(w.c, f);
  }

  lemma RefusedFinish(w: World)
    requires w.c.hdr.refused && !w.c.hdr.trailers && FinishBlock(w).code == NoError
    ensures FinishBlock(w).w.log == Then(w.log, Sent(RstFrame(w.c.hdr.id, RefusedStream)))
    ensures var c := FinishBlock(w).w.c;
            c.streams == w.c.streams && c.lastStream == w.c.lastStream && !c.hdr.expecting
  {
    hide HpackBlock.DecodeBlock, Rules.ValidRequest, Rules.ValidTrailers, Rules.DeclaredLength, Complete, Open;
  }

  lemma RefusedHeaders(w: World, f: Frame)
    requires f.id !in w.c.streams && |w.c.streams| >= MAX_CONCURRENT_STREAMS && Bit2(f.flags)
    requires OnHeaders(w, f).code == NoError
    ensures Spent(OnHeaders(w, f).w.c, f.id) && f.id != 0
    ensures OnHeaders(w, f).w.log == Then(w.log, Sent(RstFrame(f.id, RefusedStream)))
  {
    hide StartBlock, FinishBlock, DependsOnItself, ConnReplies.Fragment;
    StartBlockForm(w.c, f);
    StartIntake(w.c, f);
    var start := StartBlock(w.c, f);
    RefusedFinish(w.(c := w.c.(hdr := start.h, lastStream := start.last)));
  }

  lemma RefusedContinuation(w: World, f: Frame)
    requires Inv(w) == true && w.c.hdr.refused && !w.c.hdr.trailers && Bit2(f.flags)
    requires OnContinuation(w, f).code == NoError
    ensures Spent(OnContinuation(w, f).w.c, f.id) && f.id != 0
    ensures OnContinuation(w, f).w.log == Then(w.log, Sent(RstFrame(f.id, RefusedStream)))
  {
    hide Inv, FinishBlock;
    AnnouncedLast(w);
    RefusedFinish(w.(c := w.c.(hdr := w.c.hdr.(block := w.c.hdr.block + f.payload))));
  }

  lemma RefusedSpent(w: World, f: Frame)
    requires Inv(w) == true && Refuses(w.c, f) && OnFrame(w, f).code == NoError
    ensures Spent(OnFrame(w, f).w.c, f.id) && f.id != 0
    ensures OnFrame(w, f).w.log == Then(w.log, Sent(RstFrame(f.id, RefusedStream)))
  {
    hide Inv, Spent, OnData, OnHeaders, OnPriority, OnReset, OnSettings, OnPing, OnGoaway, OnWindowUpdate,
         OnContinuation;
    if f.typ == HEADERS {
      RefusedHeaders(w, f);
    } else {
      RefusedContinuation(w, f);
    }
  }

  lemma AnnouncedLast(w: World)
    requires Inv(w) == true
    ensures w.c.hdr.expecting && !w.c.hdr.trailers ==>
              w.c.hdr.id != 0 && w.c.hdr.id == w.c.lastStream && w.c.hdr.id !in w.c.streams
  {
  }

  /** Nothing drains a refused stream: it is reset with REFUSED_STREAM, and in every run that goes on from there a DATA
      frame on it closes the connection. */
  lemma RefusedDataCloses(before: seq<Call>, f: Frame, after: seq<Call>, g: Frame)
    requires !Run(NewWorld(), before).close && Refuses(Run(NewWorld(), before).w.c, f)
    requires OnFrame(Note(Run(NewWorld(), before).w, Received(f)), f).code == NoError
    requires var w := OnFrame(Note(Run(NewWorld(), before).w, Received(f)), f).w;
             !Run(w, after).close && g.typ == DATA && g.id == f.id
    ensures var w0 := Note(Run(NewWorld(), before).w, Received(f));
            var v := Run(OnFrame(w0, f).w, after).w;
            && OnFrame(w0, f).w.log == Then(w0.log, Sent(RstFrame(f.id, RefusedStream)))
            && OnFrame(Note(v, Received(g)), g).code == if v.c.hdr.expecting then ProtocolError else StreamClosed
  {
    hide Inv, IntakeOk, Spent, Run, NewWorld, OnFrame;
    var u := Run(NewWorld(), before).w;
    ReachedOk(before);
    RefusedReached(u, f);
    var w := OnFrame(Note(u, Received(f)), f).w;
    RunSpent(w, after, f.id);
    SpentData(Note(Run(w, after).w, Received(g)), g);
  }

  lemma RefusedReached(w: World, f: Frame)
    requires Inv(w) == true && IntakeOk(w) == true && Refuses(w.c, f)
    requires OnFrame(Note(w, Received(f)), f).code == NoError
    ensures var r := OnFrame(Note(w, Received(f)), f);
            && Inv(r.w) == true && IntakeOk(r.w) == true && Spent(r.w.c, f.id) && f.id != 0
            && r.w.log == Then(Then(w.log, Received(f)), Sent(RstFrame(f.id, RefusedStream)))
  {
    hide Inv, Safe, IntakeOk, Spent, OnFrame, SameTallies;
    ReceivePlain(w, f);
    NoteCore(w, Received(f));
    RefusedSpent(Note(w, Received(f)), f);
    FrameInv(w, f);
    FrameIntake(w, f);
  }

  lemma SpentData(w: World, f: Frame)
    requires f.typ == DATA && f.id != 0 && Spent(w.c, f.id)
    ensures OnFrame(w, f).code == if w.c.hdr.expecting then ProtocolError else StreamClosed
  {
    hide OnData, OnHeaders, OnPriority, OnReset, OnSettings, OnPing, OnGoaway, OnWindowUpdate, OnContinuation;
    StreamClosedIff(w, f);
  }
}
