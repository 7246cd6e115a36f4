// Which streams are open, read off the frames that crossed the wire alone, and the requests that are due by that
// reading (http2/conn.v).
module ConnPeer {
  import opened Bytes
  import opened Frames
  import opened HpackTable
  import opened ConnModel
  import opened ConnShapes
  import opened ConnLog
  import opened ConnInv
  import opened ConnRecv
  import opened ConnBlocks
  import opened ConnRuns
  import opened ConnSteps
  import opened ConnHops
  import opened ConnIntake
  import ConnEnding
  import HeaderFrames
  import HpackBlock
  import P = Probing
  import Rules = RequestRules

  // ----- the frames exchanged

  /** What the frames amount to, with the streams they leave open, and those whose first reset is still to come: a
      malformed request is reset at once, and its stream then stays until the request ends. */
  datatype View = View(intake: Intake, rejecting: set<nat>)

  /** The stream's request is malformed. */
  ghost predicate Broken(r: Intake, id: nat) {
    id in r.fields && (id in r.selfDependent || !Rules.ValidRequest(r.fields[id]))
  }

  /** A complete header block: trailers end a malformed request, and a block that is not refused opens its stream,
      unless it is malformed and ends the request as well. */
  ghost function BlockSeen(v: View, b: Block): View {
    var d := HpackBlock.DecodeBlock(v.intake.table, b.octets);
    var open := v.intake.open;
    if b.trailers then
      if b.id in open && Rules.ValidTrailers(d.fields) && Broken(v.intake, b.id) then
        v.(intake := v.intake.(open := open - {b.id}))
      else v
    else if b.refused then v
    else
      var bad := b.selfDependent || !Rules.ValidRequest(d.fields);
      if bad && b.endStream then v
      else v.(intake := v.intake.(open := open + {b.id}),
              rejecting := if bad then v.rejecting + {b.id} else v.rejecting)
  }

  /** The streams open after a frame was received. */
  ghost function FrameSeen(v: View, f: Frame): View {
    var open := v.intake.open;
    if f.typ == DATA && Bit0(f.flags) && f.id in open && Broken(v.intake, f.id) then
      v.(intake := v.intake.(open := open - {f.id}))
    else if f.typ == HEADERS && Bit2(f.flags) then BlockSeen(v, BlockStarted(v.intake, f))
    else if f.typ == CONTINUATION && Bit2(f.flags) then
      BlockSeen(v, v.intake.block.(octets := v.intake.block.octets + f.payload))
    else if f.typ == RST_STREAM then v.(intake := v.intake.(open := open - {f.id}))
    else v
  }

  ghost function ViewAfter(v: View, before: Log, e: Event): View {
    match e
    case Received(f) =>
      var s := FrameSeen(v, f);
      View(IntakeAfter(v.intake, before, e).(open := s.intake.open), s.rejecting)
    case Sent(f) =>
      if f.typ == RST_STREAM && f.id in v.rejecting then v.(rejecting := v.rejecting - {f.id})
      else if f.typ == RST_STREAM || (ConnEnding.Carries(f) && Bit0(f.flags)) then
        v.(intake := v.intake.(open := v.intake.open - {f.id}))
      else v
    case _ => v
  }

  ghost function ViewOf(log: Log): View {
    match log
    case Nothing => View(IntakeOf(Nothing), {})
    case Then(before, e) => ViewAfter(ViewOf(before), before, e)
  }

  // ----- the invariant

  /** Between calls and frames the connection's table is what the frames leave open. */
  ghost predicate PeerOk(w: World) {
    ViewOf(w.log) == View(IntakeOf(w.log), {})
  }

  ghost predicate Shows(log: Log, open: set<nat>, rejecting: set<nat>) {
    ViewOf(log).intake.open == open && ViewOf(log).rejecting == rejecting
  }

  /** The two readings agree but for the streams that are open. */
  ghost predicate Alike(log: Log) {
    ViewOf(log).intake == IntakeOf(log).(open := ViewOf(log).intake.open)
  }

  /** Nothing was received from a to b. */
  ghost predicate Unreceived(a: Log, b: Log)
    decreases b
  {
    b == a || (b.Then? && !b.last.Received? && Unreceived(a, b.before))
  }

  lemma {:induction false} UnreceivedTwice(a: Log, b: Log, c: Log)
    requires Unreceived(a, b) && Unreceived(b, c)
    ensures Unreceived(a, c)
    decreases c
  {
    if c != b {
      UnreceivedTwice(a, b, c.before);
    }
  }

  lemma {:induction false} UnreceivedAlike(a: Log, b: Log)
    requires Alike(a) && Unreceived(a, b)
    ensures Alike(b)
    decreases b
  {
    if b != a {
      UnreceivedAlike(a, b.before);
      hide BlockTaken, RequestEnded, FrameSeen;
    }
  }

  lemma PeerFrom(a: Log, w: World)
    requires Alike(a) && Unreceived(a, w.log) && Matched(w) == true && Shows(w.log, w.c.streams.Keys, {}) == true
    ensures PeerOk(w) == true
  {
    hide ViewOf, IntakeOf;
    UnreceivedAlike(a, w.log);
  }

  lemma PeerShows(w: World)
    requires PeerOk(w) == true && Matched(w) == true
    ensures Shows(w.log, w.c.streams.Keys, {}) == true && Alike(w.log)
  {
    hide ViewOf, IntakeOf;
  }

  lemma ReceivedAlike(w: World, f: Frame)
    requires PeerOk(w) == true
    ensures Alike(Then(w.log, Received(f)))
  {
    hide FrameSeen, IntakeAfter;
  }

  lemma ReceivedShows(w: World, f: Frame)
    requires PeerOk(w) == true
    ensures var s := FrameSeen(View(IntakeOf(w.log), {}), f);
            Shows(Then(w.log, Received(f)), s.intake.open, s.rejecting) == true
  {
    hide FrameSeen, IntakeAfter;
  }

  // ----- what is sent

  /** The frames that close a stream. */
  predicate Closes(f: Frame) {
    f.typ == RST_STREAM || (ConnEnding.Carries(f) && Bit0(f.flags))
  }

  lemma ShowsNote(log: Log, e: Event, open: set<nat>, rejecting: set<nat>)
    requires Shows(log, open, rejecting) == true && !e.Received? && (e.Sent? ==> !Closes(e.f))
    ensures Shows(Then(log, e), open, rejecting) == true && Unreceived(log, Then(log, e))
  {
    hide FrameSeen, IntakeAfter;
  }

  lemma ShowsClose(log: Log, f: Frame, open: set<nat>)
    requires Shows(log, open, {}) == true && Closes(f)
    ensures Shows(Then(log, Sent(f)), open - {f.id}, {}) == true && Unreceived(log, Then(log, Sent(f)))
  {
    hide FrameSeen, IntakeAfter;
  }

  lemma ReleaseShows(w: World, id: nat, open: set<nat>)
    requires Shows(w.log, open, {}) == true
    ensures Shows(Release(w, id).log, open, {}) == true && Unreceived(w.log, Release(w, id).log)
    ensures Release(w, id).c.streams.Keys == w.c.streams.Keys - {id}
  {
    hide Shows, P.Remove;
    if id in w.c.streams {
      ShowsNote(w.log, Released(id), open, {});
    }
  }

  lemma ResetShows(w: World, id: nat, code: ErrorCode)
    requires id < 0x8000_0000 && Shows(w.log, w.c.streams.Keys, {}) == true
    ensures var v := Release(Send(w, RstFrame(id, code)), id);
            Shows(v.log, v.c.streams.Keys, {}) == true && Unreceived(w.log, v.log)
  {
    hide Shows, Release;
    var u := Send(w, RstFrame(id, code));
    ShowsClose(w.log, RstFrame(id, code), w.c.streams.Keys);
    ReleaseShows(u, id, w.c.streams.Keys - {id});
    UnreceivedTwice(w.log, u.log, Release(u, id).log);
  }

  lemma {:induction false} SendAllShows(w: World, fs: seq<Frame>, open: set<nat>)
    requires Shows(w.log, open, {}) == true && forall i :: 0 <= i < |fs| ==> !Closes(fs[i])
    ensures Shows(SendAll(w, fs).log, open, {}) == true && Unreceived(w.log, SendAll(w, fs).log)
    decreases |fs|
  {
    hide Shows;
    if fs != [] {
      var v := Send(w, fs[0]);
      ShowsNote(w.log, Sent(fs[0]), open, {});
      SendAllShows(v, fs[1..], open);
      UnreceivedTwice(w.log, v.log, SendAll(w, fs).log);
    }
  }

  lemma BlockFramesShow(w: World, id: nat, block: seq<byte>, end: bool, open: set<nat>)
    requires Shows(w.log, open, {}) == true
    ensures var v := SendAll(w, BlockFrames(id, block, end, w.c.peerMaxFrame));
            && Shows(v.log, if end then open - {id % 0x8000_0000} else open, {}) == true
            && Unreceived(w.log, v.log) && v.c == w.c
  {
    hide Shows, BlockFrames;
    var fs := BlockFrames(id, block, end, w.c.peerMaxFrame);
    HeaderFrames.BlockFramesShape(id, block, end, w.c.peerMaxFrame);
    SendAllShape(w, fs);
    if end {
      var u := Send(w, fs[0]);
      ShowsClose(w.log, fs[0], open);
      SendAllShows(u, fs[1..], open - {id % 0x8000_0000});
      UnreceivedTwice(w.log, u.log, SendAll(w, fs).log);
    } else {
      SendAllShows(w, fs, open);
    }
  }

  lemma BlockShows(w: World, id: nat, block: seq<byte>, end: bool)
    requires id < 0x8000_0000 && Shows(w.log, w.c.streams.Keys, {}) == true
    ensures var v := WriteBlock(w, id, block, end);
            Shows(v.log, v.c.streams.Keys, {}) == true && Unreceived(w.log, v.log)
  {
    hide Shows, Release, BlockFrames;
    var v := SendAll(w, BlockFrames(id, block, end, w.c.peerMaxFrame));
    BlockFramesShow(w, id, block, end, w.c.streams.Keys);
    if end {
      ReleaseShows(v, id, w.c.streams.Keys - {id});
      UnreceivedTwice(w.log, v.log, Release(v, id).log);
    }
  }

  lemma ChunkShows(w: World, id: nat, chunk: seq<byte>)
    requires id in w.c.streams && Shows(w.log, w.c.streams.Keys, {}) == true
    ensures var v := SendData(w, id, chunk, false);
            Shows(v.log, v.c.streams.Keys, {}) == true && Unreceived(w.log, v.log)
  {
    hide Shows;
    ShowsNote(w.log, Sent(DataFrame(id, chunk, false)), w.c.streams.Keys, {});
    assert SendData(w, id, chunk, false).c.streams.Keys == w.c.streams.Keys;
  }

  lemma FinalShows(w: World, id: nat, chunk: seq<byte>)
    requires id in w.c.streams && id < 0x8000_0000 && Shows(w.log, w.c.streams.Keys, {}) == true
    ensures var v := Release(SendData(w, id, chunk, true), id);
            Shows(v.log, v.c.streams.Keys, {}) == true && Unreceived(w.log, v.log)
  {
    hide Shows, Release;
    var u := SendData(w, id, chunk, true);
    ShowsClose(w.log, DataFrame(id, chunk, true), w.c.streams.Keys);
    assert u.c.streams.Keys == w.c.streams.Keys;
    ReleaseShows(u, id, w.c.streams.Keys - {id});
    UnreceivedTwice(w.log, u.log, Release(u, id).log);
  }

  lemma StepShows(w: World, step: Step)
    requires Legal(w, step) && (step.Cut? ==> step.id < 0x8000_0000) && Shows(w.log, w.c.streams.Keys, {}) == true
    ensures var v := Do(w, step);
            Shows(v.log, v.c.streams.Keys, {}) == true && Unreceived(w.log, v.log)
  {
    hide Shows, Release, WriteBlock, SendData;
    match step
    case Wrote(e) => ShowsNote(w.log, e, w.c.streams.Keys, {});
    case Cut(id, code) => ResetShows(w, id, code);
    case Tail(id, block) => BlockShows(w, id, block, true);
    case Chunk(id, chunk) => ChunkShows(w, id, chunk);
    case Final(id, chunk) => FinalShows(w, id, chunk);
    case Keep(c) =>
  }

  lemma {:induction false} StepsShow(w: World, steps: seq<Step>, v: World)
    requires Leads(w, steps, v) == true && Unmasked(steps) && Shows(w.log, w.c.streams.Keys, {}) == true
    ensures Shows(v.log, v.c.streams.Keys, {}) == true && Unreceived(w.log, v.log)
    decreases |steps|
  {
    hide Shows, Legal, Do;
    if steps != [] {
      var u := Do(w, steps[0]);
      assert steps[0].Cut? ==> steps[0].id < 0x8000_0000;
      StepShows(w, steps[0]);
      StepsShow(u, steps[1..], v);
      UnreceivedTwice(w.log, u.log, v.log);
    }
  }

  // ----- what is received

  /** The streams a request that ends leaves open: a malformed one is gone already. */
  function Remaining(c: Conn, id: nat): set<nat> {
    if id in c.streams && c.streams[id].rejected then c.streams.Keys - {id} else c.streams.Keys
  }

  lemma CompleteShows(w: World, id: u31)
    requires Shows(w.log, Remaining(w.c, id), {}) == true
    ensures var v := Complete(w, id);
            Shows(v.log, v.c.streams.Keys, {}) == true && Unreceived(w.log, v.log)
  {
    hide Shows, Release;
    if id in w.c.streams {
      var s := w.c.streams[id];
      if s.rejected {
        ReleaseShows(w, id, w.c.streams.Keys - {id});
      } else {
        ResetShows(w, id, ProtocolError);
        ShowsNote(w.log, Surfaced(Request(id, s.headers, s.body)), w.c.streams.Keys, {});
        assert Update(w, id, s.(remoteDone := true)).c.streams.Keys == w.c.streams.Keys;
      }
    }
  }

  lemma BrokenIsRejected(w: World, id: nat)
    requires IntakeOk(w) == true && id in w.c.streams
    ensures Broken(IntakeOf(w.log), id) <==> w.c.streams[id].rejected
    ensures IntakeOf(w.log).open == w.c.streams.Keys
  {
    hide IntakeOf, FieldsTied, Requests, Rules.ValidRequest;
    assert StreamTied(w.c.streams[id], IntakeOf(w.log), id);
  }

  lemma AcceptedShows(w: World, f: Frame, open: set<nat>)
    requires f.id in w.c.streams && Shows(Then(w.log, Received(f)), open, {}) == true
    ensures Shows(Accepted(w, f).log, open, {}) == true && Unreceived(Then(w.log, Received(f)), Accepted(w, f).log)
    ensures Accepted(w, f).c.streams.Keys == w.c.streams.Keys
    ensures Accepted(w, f).c.streams[f.id].rejected == w.c.streams[f.id].rejected
  {
    hide Shows, Content;
    ShowsNote(Then(w.log, Received(f)), Sent(WindowUpdateFrame(0, |f.payload|)), open, {});
  }

  lemma DataSeen(w: World, f: Frame)
    requires IntakeOk(w) == true && PeerOk(w) == true && f.typ == DATA && f.id in w.c.streams
    ensures var open := if Bit0(f.flags) then Remaining(w.c, f.id) else w.c.streams.Keys;
            Shows(Then(w.log, Received(f)), open, {}) == true
  {
    hide Shows, PeerOk, IntakeOk, IntakeOf, ViewOf, Broken, BlockSeen;
    BrokenIsRejected(w, f.id);
    ReceivedShows(w, f);
  }

  lemma DataPeer(w: World, f: Frame)
    requires IntakeOk(w) == true && PeerOk(w) == true && f.typ == DATA
    requires OnData(Note(w, Received(f)), f).code == NoError
    ensures var v := OnData(Note(w, Received(f)), f).w;
            Shows(v.log, v.c.streams.Keys, {}) == true && Unreceived(Then(w.log, Received(f)), v.log)
  {
    hide Shows, PeerOk, IntakeOk, OnData, Complete, Accepted, Unreceived;
    OnDataForm(w, f);
    DataSeen(w, f);
    var l := Then(w.log, Received(f));
    var open := if Bit0(f.flags) then Remaining(w.c, f.id) else w.c.streams.Keys;
    AcceptedShows(w, f, open);
    var v := Accepted(w, f);
    var s := v.c.streams[f.id];
    if Bit0(f.flags) {
      var u := Update(v, f.id, s.(recvWindow := s.recvWindow - |f.payload|));
      assert u.c.streams.Keys == w.c.streams.Keys;
      CompleteShows(u, f.id);
      UnreceivedTwice(l, v.log, Complete(u, f.id).log);
    } else {
      ShowsNote(v.log, Sent(WindowUpdateFrame(f.id, |f.payload|)), open, {});
      UnreceivedTwice(l, v.log, Then(v.log, Sent(WindowUpdateFrame(f.id, |f.payload|))));
    }
  }

  /** The connection holds the block b whole, and shows what the frames leave open. */
  ghost predicate BlockShown(w: World, r: Intake) {
    var s := BlockSeen(View(r, {}), BlockOf(w.c.hdr));
    && r.table == w.c.dec && r.open == w.c.streams.Keys
    && (w.c.hdr.id in w.c.streams ==> (Broken(r, w.c.hdr.id) <==> w.c.streams[w.c.hdr.id].rejected))
    && (!w.c.hdr.trailers ==> w.c.hdr.id !in w.c.streams)
    && Shows(w.log, s.intake.open, s.rejecting)
  }

  lemma TrailersShow(w: World, r: Intake, w1: World)
    requires BlockShown(w, r) == true && w.c.hdr.trailers && w1.log == w.log && w1.c.streams == w.c.streams
    ensures var d := HpackBlock.DecodeBlock(w.c.dec, w.c.hdr.block);
            var v := if Rules.ValidTrailers(d.fields) then Complete(w1, w.c.hdr.id)
                     else Release(Send(w1, RstFrame(w.c.hdr.id, ProtocolError)), w.c.hdr.id);
            Shows(v.log, v.c.streams.Keys, {}) == true && Unreceived(w.log, v.log)
  {
    hide ViewOf, HpackBlock.DecodeBlock, Complete, Release, Rules.ValidTrailers, Broken;
    var d := HpackBlock.DecodeBlock(w.c.dec, w.c.hdr.block);
    if Rules.ValidTrailers(d.fields) {
      assert Shows(w1.log, Remaining(w1.c, w.c.hdr.id), {});
      hide Shows;
      CompleteShows(w1, w.c.hdr.id);
    } else {
      assert Shows(w1.log, w1.c.streams.Keys, {});
      hide Shows;
      ResetShows(w1, w.c.hdr.id, ProtocolError);
    }
  }

  /** The reset of a malformed request that goes on: its stream stays. */
  lemma ShowsRejection(log: Log, f: Frame, open: set<nat>)
    requires Shows(log, open, {f.id}) == true && f.typ == RST_STREAM
    ensures Shows(Then(log, Sent(f)), open, {}) == true && Unreceived(log, Then(log, Sent(f)))
  {
    hide FrameSeen, IntakeAfter;
  }

  lemma OpenShows(w: World, id: u31, s: Stream, open: set<nat>, rejecting: set<nat>)
    requires Shows(w.log, open, rejecting) == true
    ensures Shows(Open(w, id, s).log, open, rejecting) == true && Unreceived(w.log, Open(w, id, s).log)
    ensures Open(w, id, s).c.streams.Keys == w.c.streams.Keys + {id}
  {
    hide Shows, P.Put;
    ShowsNote(w.log, Opened(id), open, rejecting);
  }

  /** A stream that was just opened, with what the frames show of it. */
  lemma OpenedShows(w: World, id: u31, s: Stream, end: bool)
    requires id !in w.c.streams
    requires var keys := w.c.streams.Keys;
             if s.rejected && end then Shows(w.log, keys, {}) == true
             else Shows(w.log, keys + {id}, if s.rejected then {id} else {}) == true
    ensures var w2 := Open(w, id, s);
            var w3 := if s.rejected then Send(w2, RstFrame(id, ProtocolError)) else w2;
            var v := if end then Complete(w3, id) else w3;
            Shows(v.log, v.c.streams.Keys, {}) == true && Unreceived(w.log, v.log)
  {
    hide Shows, Open, Complete;
    var keys, f := w.c.streams.Keys, RstFrame(id, ProtocolError);
    var w2 := Open(w, id, s);
    var w3 := if s.rejected then Send(w2, f) else w2;
    if s.rejected && end {
      OpenShows(w, id, s, keys, {});
      ShowsClose(w2.log, f, keys);
      assert keys - {id} == keys;
    } else if s.rejected {
      OpenShows(w, id, s, keys + {id}, {id});
      ShowsRejection(w2.log, f, keys + {id});
    } else {
      OpenShows(w, id, s, keys + {id}, {});
    }
    UnreceivedSelf(w2.log);
    UnreceivedTwice(w.log, w2.log, w3.log);
    OpenStream(w, id, s);
    if end {
      assert Remaining(w3.c, id) == if s.rejected then keys else keys + {id};
      CompleteShows(w3, id);
      UnreceivedTwice(w.log, w3.log, Complete(w3, id).log);
    }
  }

  lemma UnreceivedSelf(log: Log)
    ensures Unreceived(log, log)
  {
  }

  lemma FinishShows(w: World, r: Intake)
    requires BlockShown(w, r) == true && FinishBlock(w).code == NoError
    ensures var v := FinishBlock(w).w;
            Shows(v.log, v.c.streams.Keys, {}) == true && Unreceived(w.log, v.log)
  {
    hide ViewOf, HpackBlock.DecodeBlock, Complete, Release, Open, Rules.ValidRequest, Rules.ValidTrailers,
         Rules.DeclaredLength, Broken;
    var h := w.c.hdr;
    var d := HpackBlock.DecodeBlock(w.c.dec, h.block);
    var w1 := w.(c := w.c.(hdr := h.(expecting := false), dec := d.table));
    if h.trailers {
      TrailersShow(w, r, w1);
    } else if h.refused {
      assert Shows(w1.log, w1.c.streams.Keys, {});
      ShowsClose(w1.log, RstFrame(h.id, RefusedStream), w1.c.streams.Keys);
      assert w1.c.streams.Keys - {h.id} == w1.c.streams.Keys;
    } else {
      var ok := Rules.ValidRequest(d.fields);
      var malformed := h.malformed || !ok;
      var s := FreshStream(w.c.initSendWindow).(
               headers := d.fields,
               rejected := malformed,
               declaredLen := if ok then Rules.DeclaredLength(d.fields) else -1);
      assert {} + {h.id} == {h.id};
      OpenedShows(w1, h.id, s, h.endStream);
    }
  }

  /** What a frame of a header block shows. */
  lemma BlockFrameSeen(w: World, f: Frame, b: Block)
    requires IntakeOk(w) == true && PeerOk(w) == true
    requires if f.typ == HEADERS then b == BlockStarted(IntakeOf(w.log), f)
             else f.typ == CONTINUATION
                  && b == IntakeOf(w.log).block.(octets := IntakeOf(w.log).block.octets + f.payload)
    ensures var s := BlockSeen(View(IntakeOf(w.log), {}), b);
            if Bit2(f.flags) then Shows(Then(w.log, Received(f)), s.intake.open, s.rejecting) == true
            else Shows(Then(w.log, Received(f)), w.c.streams.Keys, {}) == true
  {
    hide Shows, PeerOk, IntakeOk, IntakeOf, ViewOf, BlockSeen, BlockStarted;
    OpenIs(w);
    ReceivedShows(w, f);
  }

  lemma BlockShownOf(w: World, w1: World)
    requires IntakeOk(w) == true && w1.c.streams == w.c.streams && w1.c.dec == w.c.dec
    requires !w1.c.hdr.trailers ==> w1.c.hdr.id !in w1.c.streams
    requires var s := BlockSeen(View(IntakeOf(w.log), {}), BlockOf(w1.c.hdr));
             Shows(w1.log, s.intake.open, s.rejecting) == true
    ensures BlockShown(w1, IntakeOf(w.log)) == true
  {
    hide IntakeOk, IntakeOf, Shows, BlockSeen, Broken;
    OpenIs(w);
    if w1.c.hdr.id in w.c.streams {
      BrokenIsRejected(w, w1.c.hdr.id);
    }
  }

  lemma HeadersPeer(w: World, f: Frame)
    requires Inv(w) == true && IntakeOk(w) == true && PeerOk(w) == true && f.typ == HEADERS && !w.c.hdr.expecting
    requires OnHeaders(Note(w, Received(f)), f).code == NoError
    ensures var v := OnHeaders(Note(w, Received(f)), f).w;
            Shows(v.log, v.c.streams.Keys, {}) == true && Unreceived(Then(w.log, Received(f)), v.log)
  {
    hide Inv, IntakeOk, PeerOk, IntakeOf, Shows, BlockSeen, BlockShown, FinishBlock, StartBlock, ConnReplies.Fragment,
         DependsOnItself;
    var w0, r := Note(w, Received(f)), IntakeOf(w.log);
    StartBlockForm(w0.c, f);
    StartIntake(w0.c, f);
    OpenIs(w);
    UnreceivedSelf(w0.log);
    assert |w.c.streams| == |w.c.streams.Keys|;
    BlockFrameSeen(w, f, BlockStarted(r, f));
    match StartBlock(w0.c, f)
    case Bad(_) =>
    case Begin(h, last) =>
      var w1 := w0.(c := w0.c.(hdr := h, lastStream := last));
      assert BlockStarted(r, f) == BlockOf(h);
      if Bit2(f.flags) {
        BlockShownOf(w, w1);
        FinishShows(w1, r);
      }
  }

  lemma OpenIs(w: World)
    requires IntakeOk(w) == true
    ensures IntakeOf(w.log).open == w.c.streams.Keys && IntakeOf(w.log).table == w.c.dec
    ensures w.c.hdr.expecting ==> IntakeOf(w.log).block == BlockOf(w.c.hdr)
  {
    hide IntakeOf, FieldsTied, Requests;
  }

  lemma ContinuationPeer(w: World, f: Frame)
    requires Inv(w) == true && IntakeOk(w) == true && PeerOk(w) == true && f.typ == CONTINUATION
    requires OnContinuation(Note(w, Received(f)), f).code == NoError
    ensures var v := OnContinuation(Note(w, Received(f)), f).w;
            Shows(v.log, v.c.streams.Keys, {}) == true && Unreceived(Then(w.log, Received(f)), v.log)
  {
    hide Inv, IntakeOk, PeerOk, IntakeOf, Shows, BlockSeen, BlockShown, FinishBlock;
    AnnouncedNew(w);
    var w0, r, h := Note(w, Received(f)), IntakeOf(w.log), w.c.hdr;
    OpenIs(w);
    UnreceivedSelf(w0.log);
    var w1 := w0.(c := w0.c.(hdr := h.(block := h.block + f.payload)));
    assert r.block.(octets := r.block.octets + f.payload) == BlockOf(w1.c.hdr);
    BlockFrameSeen(w, f, BlockOf(w1.c.hdr));
    if Bit2(f.flags) {
      BlockShownOf(w, w1);
      FinishShows(w1, r);
    }
  }

  lemma AnnouncedNew(w: World)
    requires Inv(w) == true && w.c.hdr.expecting
    ensures !w.c.hdr.trailers ==> w.c.hdr.id !in w.c.streams
  {
  }

  lemma ResetSeen(w: World, f: Frame)
    requires IntakeOk(w) == true && PeerOk(w) == true && f.typ == RST_STREAM
    ensures Shows(Then(w.log, Received(f)), w.c.streams.Keys - {f.id}, {}) == true
  {
    hide IntakeOk, PeerOk, IntakeOf, ViewOf, Shows, Broken, BlockSeen;
    OpenIs(w);
    ReceivedShows(w, f);
  }

  lemma ResetPeer(w: World, f: Frame)
    requires IntakeOk(w) == true && PeerOk(w) == true && f.typ == RST_STREAM
    requires OnReset(Note(w, Received(f)), f).code == NoError
    ensures var v := OnReset(Note(w, Received(f)), f).w;
            Shows(v.log, v.c.streams.Keys, {}) == true && Unreceived(Then(w.log, Received(f)), v.log)
  {
    hide IntakeOk, PeerOk, Shows, Release;
    ResetSeen(w, f);
    ReleaseShows(Note(w, Received(f)), f.id, w.c.streams.Keys - {f.id});
  }

  lemma ControlSeen(w: World, f: Frame)
    requires IntakeOk(w) == true && PeerOk(w) == true && Control(f) && f.typ != RST_STREAM
    ensures Shows(Then(w.log, Received(f)), w.c.streams.Keys, {}) == true
  {
    hide IntakeOk, PeerOk, IntakeOf, ViewOf, Shows, Broken, BlockSeen;
    OpenIs(w);
    ReceivedShows(w, f);
  }

  /** Frames that leave the streams as they are and may let something out. */
  lemma SteppedPeer(w: World, f: Frame)
    requires Inv(w) == true && IntakeOk(w) == true && PeerOk(w) == true && f.typ <= CONTINUATION && Stepped(f)
    requires OnFrame(Note(w, Received(f)), f).code == NoError
    ensures var v := OnFrame(Note(w, Received(f)), f).w;
            Shows(v.log, v.c.streams.Keys, {}) == true && Unreceived(Then(w.log, Received(f)), v.log)
  {
    hide Inv, IntakeOk, PeerOk, Shows, Leads, Controls, OnFrame, Unmasked, Unreceived;
    var u, steps := FrameSteps(w, f);
    var l := Then(w.log, Received(f));
    ControlSeen(w, f);
    UnreceivedSelf(l);
    if f.typ == SETTINGS {
      ShowsNote(l, Sent(SettingsAckFrame()), w.c.streams.Keys, {});
    }
    StepsShow(u, steps, OnFrame(Note(w, Received(f)), f).w);
    UnreceivedTwice(l, u.log, OnFrame(Note(w, Received(f)), f).w.log);
  }

  lemma ControlPeer(w: World, f: Frame)
    requires IntakeOk(w) == true && PeerOk(w) == true && !Stepped(f)
    requires f.typ == SETTINGS || f.typ == PING || f.typ == GOAWAY
    requires OnFrame(Note(w, Received(f)), f).code == NoError
    ensures var v := OnFrame(Note(w, Received(f)), f).w;
            Shows(v.log, v.c.streams.Keys, {}) == true && Unreceived(Then(w.log, Received(f)), v.log)
  {
    hide IntakeOk, PeerOk, Shows, SettingsOf, ApplySettings, Unreceived, OnData, OnHeaders, OnContinuation, OnReset,
         OnPriority, OnWindowUpdate;
    var l := Then(w.log, Received(f));
    ControlSeen(w, f);
    UnreceivedSelf(l);
    ShowsNote(l, Sent(PingAckFrame(f.payload)), w.c.streams.Keys, {});
  }

  lemma FramePeer(w: World, f: Frame)
    requires Inv(w) == true && IntakeOk(w) == true && PeerOk(w) == true && f.typ <= CONTINUATION
    requires OnFrame(Note(w, Received(f)), f).code == NoError
    ensures PeerOk(OnFrame(Note(w, Received(f)), f).w) == true
  {
    hide Inv, IntakeOk, PeerOk, IntakeOf, Matched, Shows, Alike, Unreceived, OnData, OnHeaders, OnPriority, OnReset,
         OnSettings, OnPing, OnGoaway, OnWindowUpdate, OnContinuation;
    ReceivedAlike(w, f);
    FrameIntake(w, f);
    OkMatched(OnFrame(Note(w, Received(f)), f).w);
    if Stepped(f) {
      SteppedPeer(w, f);
    } else if f.typ == DATA {
      DataPeer(w, f);
    } else if f.typ == HEADERS {
      HeadersPeer(w, f);
    } else if f.typ == CONTINUATION {
      ContinuationPeer(w, f);
    } else if f.typ == RST_STREAM {
      ResetPeer(w, f);
    } else {
      ControlPeer(w, f);
    }
    PeerFrom(Then(w.log, Received(f)), OnFrame(Note(w, Received(f)), f).w);
  }

  // ----- runs

  /** Headers and aborts name a stream id, not a number with the reserved bit set. */
  predicate Named(call: Call) {
    (call.Headers? || call.Abort?) ==> call.id < 0x8000_0000
  }

  /** The call has the reserved bit set and ends or resets, on the wire, an open stream that the connection keeps. */
  predicate Masks(w: World, call: Call) {
    && !Named(call) && (call.Headers? ==> call.end) && call.id % 0x8000_0000 in w.c.streams
  }

  lemma PrefaceShows(w: World)
    requires Shows(w.log, w.c.streams.Keys, {}) == true
    ensures var v := Send(w, SettingsFrame(ServerSettings()));
            Shows(v.log, w.c.streams.Keys, {}) == true && Unreceived(w.log, v.log)
  {
    assert SettingsFrame(ServerSettings()).typ == SETTINGS;
    hide Shows, SettingsFrame;
    ShowsNote(w.log, Sent(SettingsFrame(ServerSettings())), w.c.streams.Keys, {});
  }

  lemma HeadersShow(w: World, id: nat, block: seq<byte>, end: bool)
    requires id < 0x8000_0000 && Shows(w.log, w.c.streams.Keys, {}) == true
    ensures var v := WriteBlock(Note(w, WroteHeaders(id, end)), id, block, end);
            Shows(v.log, v.c.streams.Keys, {}) == true && Unreceived(w.log, v.log)
  {
    hide Shows, WriteBlock;
    var w0 := Note(w, WroteHeaders(id, end));
    ShowsNote(w.log, WroteHeaders(id, end), w.c.streams.Keys, {});
    BlockShows(w0, id, block, end);
    UnreceivedTwice(w.log, w0.log, WriteBlock(w0, id, block, end).log);
  }

  lemma CallShows(w: World, call: Call)
    requires Inv(w) == true && Shows(w.log, w.c.streams.Keys, {}) == true && !call.Feed? && Named(call)
    ensures var v := Perform(w, call).w;
            Shows(v.log, v.c.streams.Keys, {}) == true && Unreceived(w.log, v.log)
  {
    hide Inv, Shows, Leads, Unmasked, Unreceived, Consume, WriteBlock, WriteBody, WriteTrailers, Release, SettingsFrame;
    match call {
      case Preface => PrefaceShows(w);
      case Headers(id, block, end) => HeadersShow(w, id, block, end);
      case _ =>
        Ids31(w);
        var steps := CallSteps(w, call);
        StepsShow(w, steps, Perform(w, call).w);
    }
  }

  lemma NamedPeer(w: World, call: Call)
    requires Inv(w) == true && IntakeOk(w) == true && PeerOk(w) == true && !call.Feed? && Named(call)
    ensures PeerOk(Perform(w, call).w) == true
  {
    hide Inv, IntakeOk, PeerOk, Matched, Shows, Alike, Still, Unreceived, Perform;
    OkMatched(w);
    PeerShows(w);
    CallStill(w, call);
    StillMatched(w, Perform(w, call).w);
    CallShows(w, call);
    PeerFrom(w.log, Perform(w, call).w);
  }

  /** What a call that names no stream id shows: the masked id closes on the wire, and the connection is as it was. */
  lemma MaskedShows(w: World, call: Call)
    requires Inv(w) == true && Shows(w.log, w.c.streams.Keys, {}) == true && !Named(call)
    ensures var v := Perform(w, call).w;
            var keys := w.c.streams.Keys;
            && v.c.streams == w.c.streams && Unreceived(w.log, v.log)
            && Shows(v.log, if call.Headers? && !call.end then keys else keys - {call.id % 0x8000_0000}, {}) == true
  {
    hide Inv, Shows, BlockFrames, Consume;
    Ids31(w);
    var keys := w.c.streams.Keys;
    if call.Abort? {
      ShowsClose(w.log, RstFrame(call.id, call.code), keys);
    } else {
      var w0 := Note(w, WroteHeaders(call.id, call.end));
      ShowsNote(w.log, WroteHeaders(call.id, call.end), keys, {});
      BlockFramesShow(w0, call.id, call.block, call.end, keys);
      UnreceivedTwice(w.log, w0.log, Perform(w, call).w.log);
    }
  }

  /** After a call the connection's streams are those the frames leave open if and only if the call did not mask one. */
  lemma CallPeer(w: World, call: Call)
    requires Inv(w) == true && IntakeOk(w) == true && PeerOk(w) == true && !call.Feed?
    ensures PeerOk(Perform(w, call).w) == true <==> !Masks(w, call)
  {
    hide Inv, IntakeOk, PeerOk, Matched, Alike, Still, Shows, Unreceived, Perform;
    if Named(call) {
      NamedPeer(w, call);
    } else {
      var v, x := Perform(w, call).w, call.id % 0x8000_0000;
      OkMatched(w);
      PeerShows(w);
      MaskedShows(w, call);
      CallStill(w, call);
      StillMatched(w, v);
      if !Masks(w, call) {
        assert x !in w.c.streams.Keys ==> w.c.streams.Keys - {x} == w.c.streams.Keys;
        PeerFrom(w.log, v);
      } else if PeerOk(v) {
        PeerShows(v);
        ShownOnce(v.log, w.c.streams.Keys - {x}, v.c.streams.Keys);
      }
    }
  }

  lemma ShownOnce(log: Log, a: set<nat>, b: set<nat>)
    requires Shows(log, a, {}) == true && Shows(log, b, {}) == true
    ensures a == b
  {
    hide ViewOf;
  }

  lemma {:induction false} FedPeer(w: World, hops: seq<Hop>, v: World)
    requires Inv(w) == true && IntakeOk(w) == true && PeerOk(w) == true && Path(w, hops, v) && Fed(hops)
    ensures PeerOk(v) == true
    decreases |hops|
  {
    hide Inv, IntakeOk, IntakeOf, OnFrame;
    if hops != [] {
      assert !hops[0].Make?;
      HopInv(w, hops[0]);
      HopIntake(w, hops[0]);
      match hops[0] {
        case Accept(f) => FramePeer(w, f);
        case Skip(f) => SkipPeer(w, f);
        case _ =>
      }
      hide PeerOk, Fits, Take;
      FedPeer(Take(w, hops[0]), hops[1..], v);
    }
  }

  lemma SkipPeer(w: World, f: Frame)
    requires PeerOk(w) == true && f.typ > CONTINUATION
    ensures PeerOk(Note(w, Received(f))) == true
  {
  }

  ghost predicate UnmaskedRun(w: World, calls: seq<Call>)
    decreases |calls|
  {
    calls != [] ==>
      && !Masks(w, calls[0])
      && (!Perform(w, calls[0]).close ==> UnmaskedRun(Perform(w, calls[0]).w, calls[1..]))
  }

  lemma {:induction false} RunPeer(w: World, calls: seq<Call>)
    requires Inv(w) == true && IntakeOk(w) == true && PeerOk(w) == true && UnmaskedRun(w, calls)
    requires !Run(w, calls).close
    ensures IntakeOk(Run(w, calls).w) == true && PeerOk(Run(w, calls).w) == true
    decreases |calls|
  {
    hide Inv, IntakeOk, PeerOk, Safe, Perform, Masks, Path, Leaves;
    if calls != [] {
      var p := Perform(w, calls[0]);
      PerformGood(w, calls[0]);
      PerformIntake(w, calls[0]);
      if calls[0].Feed? {
        var hops, v := PerformHops(w, calls[0]);
        FedPeer(w, hops, v);
      } else {
        CallPeer(w, calls[0]);
      }
      RunPeer(p.w, calls[1..]);
    }
  }

  lemma NewWorldPeer()
    ensures PeerOk(NewWorld()) == true
  {
  }

  /** In every run that is still open, the requests surfaced are exactly those due by the frames that crossed the wire,
      in order, and the connection's streams are exactly those the frames leave open. */
  lemma RequestsByFrames(calls: seq<Call>)
    requires !Run(NewWorld(), calls).close && UnmaskedRun(NewWorld(), calls)
    ensures var w := Run(NewWorld(), calls).w;
            Requests(w.log) == ViewOf(w.log).intake.due && ViewOf(w.log).intake.open == w.c.streams.Keys
  {
    NewWorldInv();
    NewWorldIntake();
    NewWorldPeer();
    hide Inv, IntakeOk, Run, NewWorld, UnmaskedRun, IntakeOf, ViewOf, Requests;
    RunPeer(NewWorld(), calls);
    OkTied(Run(NewWorld(), calls).w);
    OpenIs(Run(NewWorld(), calls).w);
  }
}
