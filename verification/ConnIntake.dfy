// Which requests a peer's frames amount to, and that these are the ones surfaced, with their fields (http2/conn.v).
module ConnIntake {
  import opened Bytes
  import opened Frames
  import opened HpackTable
  import opened ConnModel
  import opened ConnShapes
  import opened ConnLog
  import opened ConnInv
  import opened ConnRecv
  import opened ConnBlocks
  import opened ConnSteps
  import opened ConnRuns
  import opened ConnHops
  import ConnEnding
  import ConnReplies
  import HpackBlock
  import Segmentation
  import P = Probing
  import Rules = RequestRules

  // ----- what the frames received amount to

  /** A header block being received. */
  datatype Block = Block(
    id: u31, endStream: bool, refused: bool, trailers: bool, selfDependent: bool, octets: seq<byte>)

  /** The dynamic table, the current block, the open streams, the fields of each stream's first block, the streams
      whose priority named themselves, and the requests that are complete. */
  datatype Intake = Intake(
    table: Table, block: Block, open: set<nat>, fields: map<nat, seq<Field>>, selfDependent: set<nat>,
    due: seq<Request>)

  predicate DependsOnItself(f: Frame) {
    match Unpad(f.flags, f.payload)
    case None => false
    case Some((off, end)) => Bit5(f.flags) && off + 5 <= end && ReadU32(f.payload, off) % 0x8000_0000 == f.id
  }

  /** Well formed, and of the length it declares. */
  ghost predicate Complies(fields: seq<Field>, body: seq<byte>) {
    && Rules.ValidRequest(fields)
    && (Rules.DeclaredLength(fields) >= 0 ==> Rules.DeclaredLength(fields) == |body|)
  }

  /** The request side of a stream has ended with this body. */
  ghost function RequestEnded(r: Intake, id: u31, body: seq<byte>): Intake {
    if id in r.fields && id !in r.selfDependent && Complies(r.fields[id], body) then
      r.(due := r.due + [Request(id, r.fields[id], body)])
    else r
  }

  /** The current block is complete: it goes through the table, and then it ends a request, or starts one. */
  ghost function BlockTaken(r: Intake, body: seq<byte>): Intake {
    var b := r.block;
    var d := HpackBlock.DecodeBlock(r.table, b.octets);
    var r1 := r.(table := d.table);
    if b.trailers then if b.id in r.open && Rules.ValidTrailers(d.fields) then RequestEnded(r1, b.id, body) else r1
    else if b.refused then r1
    else
      var r2 := r1.(fields := r.fields[b.id := d.fields],
                    selfDependent := if b.selfDependent then r.selfDependent + {b.id} else r.selfDependent - {b.id});
      if b.endStream then RequestEnded(r2, b.id, body) else r2
  }

  /** The block a HEADERS frame starts. */
  function BlockStarted(r: Intake, f: Frame): Block {
    var trailers := f.id in r.open;
    Block(f.id, Bit0(f.flags), !trailers && |r.open| >= MAX_CONCURRENT_STREAMS, trailers, DependsOnItself(f),
          ConnReplies.Fragment(f))
  }

  ghost function IntakeAfter(r: Intake, before: Log, e: Event): Intake {
    match e
    case Received(f) =>
      if f.typ == DATA then
        if Bit0(f.flags) && f.id in r.open then RequestEnded(r, f.id, TallyOf(before, f.id).into + Content(f)) else r
      else if f.typ == HEADERS then
        var r1 := r.(block := BlockStarted(r, f));
        if Bit2(f.flags) then BlockTaken(r1, TallyOf(before, f.id).into) else r1
      else if f.typ == CONTINUATION then
        var r1 := r.(block := r.block.(octets := r.block.octets + f.payload));
        if Bit2(f.flags) then BlockTaken(r1, TallyOf(before, r1.block.id).into) else r1
      else r
    case Opened(id) => r.(open := r.open + {id})
    case Released(id) => r.(open := r.open - {id})
    case _ => r
  }

  ghost function IntakeOf(log: Log): Intake {
    match log
    case Nothing => Intake(NewConn().dec, Block(0, false, false, false, false, []), {}, map[], {}, [])
    case Then(before, e) => IntakeAfter(IntakeOf(before), before, e)
  }

  /** Every request surfaced carries the fields of its stream's first block. */
  ghost predicate FieldsTied(log: Log) {
    match log
    case Nothing => true
    case Then(before, Surfaced(r)) =>
      FieldsTied(before) && r.id in IntakeOf(before).fields && r.headers == IntakeOf(before).fields[r.id]
    case Then(before, _) => FieldsTied(before)
  }

  // ----- the invariant

  function BlockOf(h: Assembly): Block {
    Block(h.id, h.endStream, h.refused, h.trailers, h.malformed, h.block)
  }

  ghost predicate StreamTied(s: Stream, r: Intake, id: nat) {
    && id < 0x8000_0000
    && id in r.fields && s.headers == r.fields[id]
    && (s.rejected <==> id in r.selfDependent || !Rules.ValidRequest(r.fields[id]))
  }

  /** The connection holds what the frames amount to. */
  ghost predicate Held(w: World) {
    var r := IntakeOf(w.log);
    && r.table == w.c.dec && r.open == w.c.streams.Keys
    && (w.c.hdr.expecting ==> r.block == BlockOf(w.c.hdr))
    && (forall id: nat :: id in w.c.streams ==> StreamTied(w.c.streams[id], r, id))
    && FieldsTied(w.log)
  }

  ghost predicate IntakeOk(w: World) {
    Held(w) && Requests(w.log) == IntakeOf(w.log).due
  }

  // ----- operations the intake does not see

  /** Nothing more is written to or sent on stream x, and an END_STREAM sent on it stays sent. */
  ghost predicate Frozen(a: Log, b: Log, x: nat) {
    && TallyOf(b, x).out == TallyOf(a, x).out && TallyOf(b, x).bodies == TallyOf(a, x).bodies
    && (ConnEnding.EndingOf(a, x).sent ==> ConnEnding.EndingOf(b, x).sent)
  }

  /** From w to v only open streams may go; the rest of the intake, the requests, and the record of streams that are
      not open stay as they were. */
  ghost predicate Still(w: World, v: World) {
    && IntakeOf(v.log) == IntakeOf(w.log).(open := v.c.streams.Keys)
    && v.c.dec == w.c.dec && v.c.hdr == w.c.hdr && v.c.lastStream == w.c.lastStream
    && Requests(v.log) == Requests(w.log)
    && (forall x: nat :: x in v.c.streams ==>
          && x in w.c.streams && v.c.streams[x].headers == w.c.streams[x].headers
          && v.c.streams[x].rejected == w.c.streams[x].rejected)
    && (FieldsTied(w.log) ==> FieldsTied(v.log))
    && (forall x: nat :: x !in w.c.streams ==> Frozen(w.log, v.log, x))
  }

  ghost predicate Matched(w: World) {
    IntakeOf(w.log).open == w.c.streams.Keys && forall x: nat :: x in w.c.streams ==> x < 0x8000_0000
  }

  lemma StillKeeps(w: World, v: World)
    requires Held(w) == true && Still(w, v) == true
    ensures Held(v) == true
    ensures IntakeOf(v.log).due == IntakeOf(w.log).due && Requests(v.log) == Requests(w.log)
    ensures Requests(w.log) == IntakeOf(w.log).due ==> IntakeOk(v) == true
  {
    hide IntakeOf, FieldsTied, Requests, Frozen;
    forall x: nat | x in v.c.streams ensures StreamTied(v.c.streams[x], IntakeOf(v.log), x) {
      assert StreamTied(w.c.streams[x], IntakeOf(w.log), x);
    }
  }

  lemma StillTwice(u: World, v: World, w: World)
    requires Still(u, v) == true && Still(v, w) == true
    ensures Still(u, w) == true
  {
    hide IntakeOf, FieldsTied, Requests, TallyOf, ConnEnding.EndingOf;
    forall x: nat | x !in u.c.streams ensures Frozen(u.log, w.log, x) {
      assert Frozen(u.log, v.log, x) && Frozen(v.log, w.log, x);
    }
  }

  lemma StillMatched(w: World, v: World)
    requires Matched(w) == true && Still(w, v) == true
    ensures Matched(v) == true
  {
    hide IntakeOf, FieldsTied, Requests, Frozen;
  }

  lemma MatchedId(w: World, id: nat)
    requires Matched(w) == true && id in w.c.streams
    ensures id % 0x8000_0000 == id
  {
    hide IntakeOf;
  }

  /** Frames and writes of the response side, DATA and bodies on open streams only. */
  predicate StillEvent(c: Conn, e: Event) {
    match e
    case Received(f) => f.typ != DATA && f.typ != HEADERS && f.typ != CONTINUATION
    case Sent(f) => f.typ == DATA ==> f.id in c.streams
    case WroteBody(id, _, _) => id in c.streams
    case WroteHeaders(_, _) => true
    case WroteTrailers(_) => true
    case _ => false
  }

  lemma StillNote(w: World, e: Event)
    requires Matched(w) == true && StillEvent(w.c, e)
    ensures Still(w, Note(w, e)) == true
  {
    hide BlockTaken, RequestEnded;
    assert IntakeOf(Then(w.log, e)) == IntakeOf(w.log);
    forall x: nat | x !in w.c.streams ensures Frozen(w.log, Then(w.log, e), x) {
    }
  }

  /** Fields of the connection and of open streams that the intake does not record. */
  lemma StillLike(w: World, v: World)
    requires Matched(w) == true && v.log == w.log && v.c.dec == w.c.dec && v.c.hdr == w.c.hdr
    requires v.c.lastStream == w.c.lastStream
    requires v.c.streams.Keys == w.c.streams.Keys
    requires forall x: nat :: x in w.c.streams ==>
               v.c.streams[x].headers == w.c.streams[x].headers && v.c.streams[x].rejected == w.c.streams[x].rejected
    ensures Still(w, v) == true
  {
    hide IntakeOf, FieldsTied, Requests;
  }

  lemma StillRelease(w: World, id: nat)
    requires Matched(w) == true
    ensures Still(w, Release(w, id)) == true
  {
    hide BlockTaken, RequestEnded, P.Remove;
    var v := Release(w, id);
    if id !in w.c.streams {
      assert IntakeOf(w.log).(open := w.c.streams.Keys) == IntakeOf(w.log);
    } else {
      assert v.c.streams.Keys == w.c.streams.Keys - {id};
    }
  }

  lemma StillReset(w: World, id: nat, code: ErrorCode)
    requires Matched(w) == true
    ensures Still(w, Release(Send(w, RstFrame(id, code)), id)) == true
  {
    hide IntakeOf, Still, Matched, Release;
    var v := Send(w, RstFrame(id, code));
    StillNote(w, Sent(RstFrame(id, code)));
    StillMatched(w, v);
    StillRelease(v, id);
    StillTwice(w, v, Release(v, id));
  }

  lemma {:induction false} StillSendAll(w: World, fs: seq<Frame>)
    requires Matched(w) == true && forall i :: 0 <= i < |fs| ==> Plain(fs[i])
    ensures Still(w, SendAll(w, fs)) == true
    decreases |fs|
  {
    hide IntakeOf, Still, Matched;
    if fs == [] {
      StillLike(w, w);
    } else {
      StillNote(w, Sent(fs[0]));
      StillMatched(w, Send(w, fs[0]));
      StillSendAll(Send(w, fs[0]), fs[1..]);
      StillTwice(w, Send(w, fs[0]), SendAll(w, fs));
    }
  }

  lemma StillBlock(w: World, id: nat, block: seq<byte>, end: bool)
    requires Matched(w) == true
    ensures Still(w, WriteBlock(w, id, block, end)) == true
  {
    hide IntakeOf, Still, Matched, BlockFrames, Release;
    var v := SendAll(w, BlockFrames(id, block, end, w.c.peerMaxFrame));
    BlockFits(id, block, end, w.c.peerMaxFrame);
    StillSendAll(w, BlockFrames(id, block, end, w.c.peerMaxFrame));
    StillMatched(w, v);
    StillRelease(v, id);
    StillTwice(w, v, Release(v, id));
  }

  lemma StillChunk(w: World, id: nat, chunk: seq<byte>, last: bool)
    requires Matched(w) == true && id in w.c.streams
    ensures Still(w, SendData(w, id, chunk, last)) == true
  {
    hide IntakeOf, Still, Matched;
    var u := Send(w, DataFrame(id, chunk, last));
    MatchedId(w, id);
    StillNote(w, Sent(DataFrame(id, chunk, last)));
    StillMatched(w, u);
    StillLike(u, SendData(w, id, chunk, last));
    StillTwice(w, u, SendData(w, id, chunk, last));
  }

  lemma StillUpdate(w: World, id: nat, s: Stream)
    requires Matched(w) == true && id in w.c.streams
    requires s.headers == w.c.streams[id].headers && s.rejected == w.c.streams[id].rejected
    ensures Still(w, Update(w, id, s)) == true
  {
    hide IntakeOf, Still, Matched;
    StillLike(w, Update(w, id, s));
  }

  lemma StillKeep(w: World, c: Conn)
    requires Matched(w) == true && KeepsRequests(w.c, c)
    ensures Still(w, World(c, w.log)) == true
  {
    hide IntakeOf, Still, Matched;
    StillLike(w, World(c, w.log));
  }

  lemma StillFinal(w: World, id: nat, chunk: seq<byte>)
    requires Matched(w) == true && id in w.c.streams
    ensures Still(w, Release(SendData(w, id, chunk, true), id)) == true
  {
    hide IntakeOf, Still, Matched, Release, SendData;
    var v := SendData(w, id, chunk, true);
    StillChunk(w, id, chunk, true);
    StillMatched(w, v);
    StillRelease(v, id);
    StillTwice(w, v, Release(v, id));
  }

  lemma StillStep(w: World, step: Step)
    requires Matched(w) == true && Legal(w, step)
    ensures Still(w, Do(w, step)) == true
  {
    hide IntakeOf, Still, Matched, Release, WriteBlock, SendData, KeepsRequests;
    match step
    case Wrote(e) => StillNote(w, e);
    case Cut(id, code) => StillReset(w, id, code);
    case Tail(id, block) => StillBlock(w, id, block, true);
    case Chunk(id, chunk) => StillChunk(w, id, chunk, false);
    case Final(id, chunk) => StillFinal(w, id, chunk);
    case Keep(c) => StillKeep(w, c);
  }

  lemma {:induction false} StillSteps(w: World, steps: seq<Step>, v: World)
    requires Matched(w) == true && Leads(w, steps, v) == true
    ensures Still(w, v) == true
    decreases |steps|
  {
    hide IntakeOf, Still, Matched, Legal, Do;
    if steps == [] {
      StillLike(w, w);
    } else {
      var u := Do(w, steps[0]);
      StillStep(w, steps[0]);
      StillMatched(w, u);
      StillSteps(u, steps[1..], v);
      StillTwice(w, u, v);
    }
  }

  // ----- the end of a request

  /** What completing a stream surfaces. */
  function DueOf(s: Stream, id: u31): seq<Request> {
    if s.rejected || (s.declaredLen >= 0 && s.declaredLen != |s.body|) then [] else [Request(id, s.headers, s.body)]
  }

  function Expected(w: World, id: u31): seq<Request> {
    if id in w.c.streams then DueOf(w.c.streams[id], id) else []
  }

  lemma CompleteIntake(w: World, id: u31)
    requires Held(w) == true && IntakeOf(w.log).due == Requests(w.log) + Expected(w, id)
    ensures IntakeOk(Complete(w, id)) == true
  {
    hide IntakeOf, Held, Still, Matched, Release, FieldsTied, Requests;
    HeldMatched(w);
    if id in w.c.streams && Expected(w, id) != [] {
      SurfacedIntake(w, id);
    } else {
      assert Requests(w.log) + [] == Requests(w.log);
      StillLike(w, w);
      StillRelease(w, id);
      StillReset(w, id, ProtocolError);
      StillKeeps(w, Complete(w, id));
    }
  }

  lemma HeldMatched(w: World)
    requires Held(w) == true
    ensures Matched(w) == true
  {
    hide IntakeOf, FieldsTied;
  }

  lemma SurfacedIntake(w: World, id: u31)
    requires Held(w) == true && IntakeOf(w.log).due == Requests(w.log) + Expected(w, id)
    requires id in w.c.streams && Expected(w, id) != []
    ensures IntakeOk(Complete(w, id)) == true
  {
    hide IntakeAfter, Release;
    var s := w.c.streams[id];
    var r := Request(id, s.headers, s.body);
    var v := Complete(w, id);
    SurfacedRecord(w.log, r);
    assert StreamTied(s, IntakeOf(w.log), id);
    hide IntakeOf, FieldsTied, Requests;
    assert v.c.streams.Keys == w.c.streams.Keys;
    forall x: nat | x in v.c.streams ensures StreamTied(v.c.streams[x], IntakeOf(v.log), x) {
      assert StreamTied(w.c.streams[x], IntakeOf(w.log), x);
    }
  }

  lemma SurfacedRecord(log: Log, r: Request)
    ensures IntakeOf(Then(log, Surfaced(r))) == IntakeOf(log) && Requests(Then(log, Surfaced(r))) == Requests(log) + [r]
    ensures FieldsTied(log) && r.id in IntakeOf(log).fields && r.headers == IntakeOf(log).fields[r.id] ==>
              FieldsTied(Then(log, Surfaced(r)))
  {
    hide BlockTaken, RequestEnded;
  }

  /** What the frames make due is what the stream's state makes due. */
  lemma DueAgrees(s: Stream, r: Intake, id: u31, body: seq<byte>)
    requires StreamTied(s, r, id)
    requires !s.rejected ==> s.declaredLen == Rules.DeclaredLength(s.headers) && s.body == body
    ensures RequestEnded(r, id, body) == r.(due := RequestEnded(r, id, body).due)
    ensures RequestEnded(r, id, body).due == r.due + DueOf(s, id)
  {
    hide Rules.ValidRequest, Rules.DeclaredLength;
    assert r.due + [] == r.due;
  }

  // ----- DATA

  lemma RequestFacts(w: World, id: nat)
    requires Inv(w) == true && id in w.c.streams && !w.c.streams[id].rejected
    ensures w.c.streams[id].body == TallyOf(w.log, id).into
    ensures w.c.streams[id].declaredLen == Rules.DeclaredLength(w.c.streams[id].headers)
  {
    hide TallyOf, TotalsOf, Safe, ResponseOk, P.Valid, TableOk, HeaderOk, TotalsOk, AllParkedOk;
    assert IdOk(w.c, id, TallyOf(w.log, id));
  }

  lemma DataDue(w: World, f: Frame)
    requires Inv(w) == true && IntakeOk(w) == true && f.typ == DATA && f.id in w.c.streams
    ensures IntakeOf(Then(w.log, Received(f))).due ==
            Requests(w.log) + if Bit0(f.flags) then DueOf(Accepted(w, f).c.streams[f.id], f.id) else []
  {
    hide Inv, TallyOf, BlockTaken, Content, Complies, Accepted, DueOf;
    AcceptedStream(w, f);
    var s := w.c.streams[f.id];
    var r := IntakeOf(w.log);
    var body := TallyOf(w.log, f.id).into + Content(f);
    assert StreamTied(s, r, f.id);
    if !s.rejected {
      RequestFacts(w, f.id);
    }
    DueAgrees(Accepted(w, f).c.streams[f.id], r, f.id, body);
    assert IntakeOf(Then(w.log, Received(f))) == if Bit0(f.flags) then RequestEnded(r, f.id, body) else r;
    assert r.due + [] == r.due;
  }

  lemma DataIntake(w: World, f: Frame)
    requires Inv(w) == true && IntakeOk(w) == true && f.typ == DATA && OnData(Note(w, Received(f)), f).code == NoError
    ensures IntakeOk(OnData(Note(w, Received(f)), f).w) == true
  {
    hide Inv, OnData, Complete, IntakeOf, FieldsTied, Requests, Held, Still, Accepted, DueOf;
    OnDataForm(w, f);
    DataDue(w, f);
    DataHeld(w, f);
    var w0 := Note(w, Received(f));
    AcceptedStill(w0, w, f);
    AcceptedStream(w, f);
    var v := Accepted(w, f);
    StillKeeps(w0, v);
    HeldMatched(v);
    if Bit0(f.flags) {
      var t := v.c.streams[f.id];
      var u := Update(v, f.id, t.(recvWindow := t.recvWindow - |f.payload|));
      StillUpdate(v, f.id, t.(recvWindow := t.recvWindow - |f.payload|));
      StillKeeps(v, u);
      SameDue(t, t.(recvWindow := t.recvWindow - |f.payload|), f.id);
      CompleteIntake(u, f.id);
    } else {
      assert Requests(w.log) + [] == Requests(w.log);
      if f.payload != [] {
        StillNote(v, Sent(WindowUpdateFrame(f.id, |f.payload|)));
        StillKeeps(v, Send(v, WindowUpdateFrame(f.id, |f.payload|)));
      }
    }
  }

  lemma SameDue(s: Stream, t: Stream, id: u31)
    requires t == s.(recvWindow := t.recvWindow)
    ensures DueOf(s, id) == DueOf(t, id)
  {
  }

  lemma AcceptedStream(w: World, f: Frame)
    requires f.id in w.c.streams
    ensures var s := w.c.streams[f.id];
            Accepted(w, f).c.streams[f.id] == if s.rejected then s else s.(body := s.body + Content(f))
  {
    hide Content;
  }

  lemma DataHeld(w: World, f: Frame)
    requires Held(w) == true && f.typ == DATA && Requests(w.log) == IntakeOf(w.log).due
    ensures Held(Note(w, Received(f))) == true && Requests(Then(w.log, Received(f))) == Requests(w.log)
  {
    hide TallyOf, BlockTaken, Content, Complies;
    var w0 := Note(w, Received(f));
    assert IntakeOf(w0.log) == IntakeOf(w.log).(due := IntakeOf(w0.log).due);
    assert FieldsTied(w0.log);
    hide IntakeOf, FieldsTied;
    forall x: nat | x in w0.c.streams ensures StreamTied(w0.c.streams[x], IntakeOf(w0.log), x) {
      assert StreamTied(w.c.streams[x], IntakeOf(w.log), x);
    }
  }

  lemma AcceptedStill(w0: World, w: World, f: Frame)
    requires f.id in w.c.streams && w0 == Note(w, Received(f)) && Held(w0) == true
    ensures Still(w0, Accepted(w, f)) == true
  {
    hide IntakeOf, Still, Held, Matched, Content;
    HeldMatched(w0);
    var s := Accepted(w, f).c.streams[f.id];
    var v := Update(w0, f.id, s);
    StillUpdate(w0, f.id, s);
    StillMatched(w0, v);
    StillNote(v, Sent(WindowUpdateFrame(0, |f.payload|)));
    StillTwice(w0, v, Send(v, WindowUpdateFrame(0, |f.payload|)));
  }

  // ----- header blocks

  /** The connection holds what the frames amounted to before its current block was complete. */
  ghost predicate BlockHeld(w: World, r: Intake, body: seq<byte>) {
    && r.table == w.c.dec && r.open == w.c.streams.Keys && r.block == BlockOf(w.c.hdr)
    && (forall id: nat :: id in w.c.streams ==> StreamTied(w.c.streams[id], r, id))
    && FieldsTied(w.log) && r.due == Requests(w.log)
    && IntakeOf(w.log) == BlockTaken(r, body) && body == TallyOf(w.log, w.c.hdr.id).into
  }

  lemma FinishIntake(w: World, r: Intake, body: seq<byte>)
    requires Inv(w) == true && w.c.hdr.expecting && BlockHeld(w, r, body) == true && FinishBlock(w).code == NoError
    ensures IntakeOk(FinishBlock(w).w) == true
  {
    hide Inv, IntakeOf, Requests, FieldsTied, Complete, Release, Open, HpackBlock.DecodeBlock, Rules.ValidRequest,
         Rules.ValidTrailers, Rules.DeclaredLength, TallyOf, BlockTaken, IntakeOk, BlockHeld;
    var h := w.c.hdr;
    var d := HpackBlock.DecodeBlock(w.c.dec, h.block);
    var w1 := w.(c := w.c.(hdr := h.(expecting := false), dec := d.table));
    TakenInv(w, d.table);
    if h.trailers {
      TrailersIntake(w, r, body, w1, d.fields);
    } else if h.refused {
      RefusedIntake(w, r, body, w1);
    } else {
      OpenIntake(w, r, body, w1, d.fields);
    }
  }

  /** Nothing but the table, and perhaps what is due, changed. */
  lemma TakenHeld(w: World, r: Intake, v: World)
    requires r.open == w.c.streams.Keys && (forall id: nat :: id in w.c.streams ==> StreamTied(w.c.streams[id], r, id))
    requires FieldsTied(v.log) && v.c.streams == w.c.streams && !v.c.hdr.expecting
    requires IntakeOf(v.log) == r.(table := v.c.dec, due := IntakeOf(v.log).due)
    ensures Held(v) == true
  {
    hide IntakeOf, FieldsTied, Rules.ValidRequest;
    forall x: nat | x in v.c.streams ensures StreamTied(v.c.streams[x], IntakeOf(v.log), x) {
      assert StreamTied(w.c.streams[x], r, x);
    }
  }

  lemma RefusedIntake(w: World, r: Intake, body: seq<byte>, w1: World)
    requires BlockHeld(w, r, body) == true && !w.c.hdr.trailers && w.c.hdr.refused
    requires w1 == w.(c := w.c.(hdr := w.c.hdr.(expecting := false),
                                dec := HpackBlock.DecodeBlock(w.c.dec, w.c.hdr.block).table))
    ensures IntakeOk(Send(w1, RstFrame(w1.c.hdr.id, RefusedStream))) == true
  {
    hide IntakeOf, FieldsTied, Requests, HpackBlock.DecodeBlock, TallyOf, Rules.ValidRequest, Rules.ValidTrailers,
         RequestEnded;
    TakenHeld(w, r, w1);
    hide Held, Still;
    HeldMatched(w1);
    StillNote(w1, Sent(RstFrame(w1.c.hdr.id, RefusedStream)));
    StillKeeps(w1, Send(w1, RstFrame(w1.c.hdr.id, RefusedStream)));
  }

  lemma TrailersIntake(w: World, r: Intake, body: seq<byte>, w1: World, fields: seq<Field>)
    requires Inv(w1) == true && BlockHeld(w, r, body) == true && w.c.hdr.trailers
    requires fields == HpackBlock.DecodeBlock(w.c.dec, w.c.hdr.block).fields
    requires w1 == w.(c := w.c.(hdr := w.c.hdr.(expecting := false),
                                dec := HpackBlock.DecodeBlock(w.c.dec, w.c.hdr.block).table))
    ensures if Rules.ValidTrailers(fields) then IntakeOk(Complete(w1, w1.c.hdr.id)) == true
            else IntakeOk(Release(Send(w1, RstFrame(w1.c.hdr.id, ProtocolError)), w1.c.hdr.id)) == true
  {
    hide Inv, IntakeOf, FieldsTied, Requests, HpackBlock.DecodeBlock, TallyOf, Rules.ValidRequest, Rules.ValidTrailers,
         RequestEnded, Complete, Release, DueOf;
    var id := w.c.hdr.id;
    var r1 := r.(table := w1.c.dec);
    assert Requests(w.log) + [] == Requests(w.log);
    if id in w.c.streams {
      var s := w.c.streams[id];
      assert StreamTied(s, r, id);
      if !s.rejected {
        RequestFacts(w1, id);
      }
      DueAgrees(s, r1, id, body);
    }
    TakenHeld(w, r, w1);
    hide Held, Still;
    HeldMatched(w1);
    if Rules.ValidTrailers(fields) {
      CompleteIntake(w1, id);
    } else {
      StillReset(w1, id, ProtocolError);
      StillKeeps(w1, Release(Send(w1, RstFrame(id, ProtocolError)), id));
    }
  }

  lemma OpenedIntake(log: Log, id: nat)
    ensures IntakeOf(Then(log, Opened(id))) == IntakeOf(log).(open := IntakeOf(log).open + {id})
    ensures Requests(Then(log, Opened(id))) == Requests(log) && FieldsTied(Then(log, Opened(id))) == FieldsTied(log)
  {
    hide BlockTaken, RequestEnded;
  }

  /** A new stream stands for the block that opened it. */
  lemma OpenHeld(w: World, r: Intake, w1: World, v: World, s: Stream, fields: seq<Field>)
    requires r.open == w.c.streams.Keys && (forall x: nat :: x in w.c.streams ==> StreamTied(w.c.streams[x], r, x))
    requires w1.c.streams == w.c.streams && !w1.c.hdr.expecting && FieldsTied(w1.log)
    requires v == Open(w1, w1.c.hdr.id, s) && r.block == BlockOf(w.c.hdr) && w1.c.hdr.id == w.c.hdr.id
    requires s.headers == fields && (s.rejected <==> w.c.hdr.malformed || !Rules.ValidRequest(fields))
    requires IntakeOf(w1.log) ==
             r.(table := w1.c.dec, fields := r.fields[r.block.id := fields], due := IntakeOf(w1.log).due,
                selfDependent := if r.block.selfDependent then r.selfDependent + {r.block.id}
                                 else r.selfDependent - {r.block.id})
    ensures Held(v) == true && IntakeOf(v.log).due == IntakeOf(w1.log).due && Requests(v.log) == Requests(w1.log)
  {
    hide IntakeOf, FieldsTied, Requests, Rules.ValidRequest, P.Put;
    OpenedIntake(w1.log, w1.c.hdr.id);
    assert v.c.streams.Keys == w.c.streams.Keys + {w1.c.hdr.id};
    forall x: nat | x in v.c.streams ensures StreamTied(v.c.streams[x], IntakeOf(v.log), x) {
      if x != w1.c.hdr.id {
        assert StreamTied(w.c.streams[x], r, x);
      }
    }
  }

  lemma OpenIntake(w: World, r: Intake, body: seq<byte>, w1: World, fields: seq<Field>)
    requires BlockHeld(w, r, body) == true && !w.c.hdr.trailers && !w.c.hdr.refused
    requires fields == HpackBlock.DecodeBlock(w.c.dec, w.c.hdr.block).fields
    requires w1 == w.(c := w.c.(hdr := w.c.hdr.(expecting := false),
                                dec := HpackBlock.DecodeBlock(w.c.dec, w.c.hdr.block).table))
    requires TallyOf(w.log, w.c.hdr.id) == NO_TALLY
    ensures var h, ok := w.c.hdr, Rules.ValidRequest(fields);
            var malformed := h.malformed || !ok;
            var s := FreshStream(w.c.initSendWindow).(
                     headers := fields,
                     rejected := malformed,
                     declaredLen := if ok then Rules.DeclaredLength(fields) else -1);
            var w2 := Open(w1, h.id, s);
            var w3 := if malformed then Send(w2, RstFrame(h.id, ProtocolError)) else w2;
            IntakeOk(if h.endStream then Complete(w3, h.id) else w3) == true
  {
    hide IntakeOf, FieldsTied, Requests, HpackBlock.DecodeBlock, TallyOf, Rules.ValidRequest, Rules.ValidTrailers,
         Rules.DeclaredLength, Complete, Open, DueOf, Complies;
    var h, ok := w.c.hdr, Rules.ValidRequest(fields);
    var malformed := h.malformed || !ok;
    var s := FreshStream(w.c.initSendWindow).(
             headers := fields, rejected := malformed, declaredLen := if ok then Rules.DeclaredLength(fields) else -1);
    var w2 := Open(w1, h.id, s);
    OpenHeld(w, r, w1, w2, s, fields);
    OpenDue(w, r, body, w1, s, fields);
    OpenStream(w1, h.id, s);
    hide Held, Still;
    HeldMatched(w2);
    StillNote(w2, Sent(RstFrame(h.id, ProtocolError)));
    StillKeeps(w2, Send(w2, RstFrame(h.id, ProtocolError)));
    var w3 := if malformed then Send(w2, RstFrame(h.id, ProtocolError)) else w2;
    if h.endStream {
      CompleteIntake(w3, h.id);
    }
  }

  lemma OpenStream(w: World, id: nat, s: Stream)
    ensures id in Open(w, id, s).c.streams && Open(w, id, s).c.streams[id] == s
  {
  }

  lemma OpenDue(w: World, r: Intake, body: seq<byte>, w1: World, s: Stream, fields: seq<Field>)
    requires BlockHeld(w, r, body) == true && !w.c.hdr.trailers && !w.c.hdr.refused && w1.log == w.log
    requires fields == HpackBlock.DecodeBlock(w.c.dec, w.c.hdr.block).fields
    requires body == [] && s.body == [] && s.headers == fields
    requires s.rejected <==> w.c.hdr.malformed || !Rules.ValidRequest(fields)
    requires !s.rejected ==> s.declaredLen == Rules.DeclaredLength(fields)
    ensures IntakeOf(w1.log).due == Requests(w1.log) + if w.c.hdr.endStream then DueOf(s, w.c.hdr.id) else []
  {
    hide IntakeOf, FieldsTied, Requests, HpackBlock.DecodeBlock, TallyOf, Rules.ValidRequest, Rules.DeclaredLength,
         DueOf, Complies;
    var b := r.block;
    var r2 := r.(table := HpackBlock.DecodeBlock(r.table, b.octets).table, fields := r.fields[b.id := fields],
                 selfDependent := if b.selfDependent then r.selfDependent + {b.id} else r.selfDependent - {b.id});
    DueAgrees(s, r2, b.id, []);
    assert Requests(w.log) + [] == Requests(w.log);
  }

  /** A HEADERS frame starts a block, of a new stream or the trailers of an open one. */
  lemma StartIntake(c: Conn, f: Frame)
    ensures match StartBlock(c, f)
            case Bad(code) => true
            case Begin(h, last) =>
              BlockOf(h) == Block(f.id, Bit0(f.flags), f.id !in c.streams && |c.streams| >= MAX_CONCURRENT_STREAMS,
                                  f.id in c.streams, DependsOnItself(f), ConnReplies.Fragment(f))
  {
    hide Unpad, ReadU32;
  }

  lemma HeadersLog(log: Log, f: Frame)
    requires f.typ == HEADERS
    ensures var l, r := Then(log, Received(f)), IntakeOf(log);
            var b := Block(f.id, Bit0(f.flags), f.id !in r.open && |r.open| >= MAX_CONCURRENT_STREAMS, f.id in r.open,
                           DependsOnItself(f), ConnReplies.Fragment(f));
            && IntakeOf(l) == (if Bit2(f.flags) then BlockTaken(r.(block := b), TallyOf(log, f.id).into)
                               else r.(block := b))
            && Requests(l) == Requests(log) && FieldsTied(l) == FieldsTied(log)
            && TallyOf(l, f.id) == TallyOf(log, f.id)
  {
    hide BlockTaken, ConnReplies.Fragment, DependsOnItself;
  }

  lemma ContinuationLog(log: Log, f: Frame, id: nat)
    requires f.typ == CONTINUATION
    ensures var l, r := Then(log, Received(f)), IntakeOf(log);
            var r1 := r.(block := r.block.(octets := r.block.octets + f.payload));
            && IntakeOf(l) == (if Bit2(f.flags) then BlockTaken(r1, TallyOf(log, r.block.id).into) else r1)
            && Requests(l) == Requests(log) && FieldsTied(l) == FieldsTied(log)
            && TallyOf(l, id) == TallyOf(log, id)
  {
    hide BlockTaken;
  }

  lemma SameTied(c: Conn, r: Intake, b: Block)
    requires forall x: nat :: x in c.streams ==> StreamTied(c.streams[x], r, x)
    ensures forall x: nat :: x in c.streams ==> StreamTied(c.streams[x], r.(block := b), x)
  {
    hide Rules.ValidRequest;
    forall x: nat | x in c.streams ensures StreamTied(c.streams[x], r.(block := b), x) {
      assert StreamTied(c.streams[x], r, x);
    }
  }

  lemma HeadersIntake(w: World, f: Frame)
    requires Inv(w) == true && IntakeOk(w) == true && f.typ == HEADERS && !w.c.hdr.expecting
    requires OnHeaders(Note(w, Received(f)), f).code == NoError
    ensures IntakeOk(OnHeaders(Note(w, Received(f)), f).w) == true
  {
    hide Inv, IntakeOf, FieldsTied, Requests, TallyOf, SameTallies, FinishBlock, StartBlock, BlockTaken, StreamTied,
         ConnReplies.Fragment, DependsOnItself;
    var w0 := Note(w, Received(f));
    ReceivePlain(w, f);
    NoteCore(w, Received(f));
    StartBlockForm(w0.c, f);
    StartIntake(w0.c, f);
    HeadersLog(w.log, f);
    assert |w.c.streams| == |w.c.streams.Keys|;
    match StartBlock(w0.c, f)
    case Bad(_) =>
    case Begin(h, last) =>
      var w1 := w0.(c := w0.c.(hdr := h, lastStream := last));
      AnnouncedInv(w0, h, last);
      SameTied(w1.c, IntakeOf(w.log), BlockOf(h));
      if Bit2(f.flags) {
        FinishIntake(w1, IntakeOf(w.log).(block := BlockOf(h)), TallyOf(w.log, f.id).into);
      }
  }

  lemma ContinuationIntake(w: World, f: Frame)
    requires Inv(w) == true && IntakeOk(w) == true && f.typ == CONTINUATION
    requires OnContinuation(Note(w, Received(f)), f).code == NoError
    ensures IntakeOk(OnContinuation(Note(w, Received(f)), f).w) == true
  {
    hide Inv, IntakeOf, FieldsTied, Requests, TallyOf, SameTallies, FinishBlock, BlockTaken, StreamTied;
    var w0, h := Note(w, Received(f)), w.c.hdr;
    ReceivePlain(w, f);
    NoteCore(w, Received(f));
    ContinuationLog(w.log, f, h.id);
    var w1 := w0.(c := w0.c.(hdr := h.(block := h.block + f.payload)));
    LongerBlockInv(w0, h.block + f.payload);
    SameTied(w1.c, IntakeOf(w.log), BlockOf(w1.c.hdr));
    if Bit2(f.flags) {
      FinishIntake(w1, IntakeOf(w.log).(block := BlockOf(w1.c.hdr)), TallyOf(w.log, h.id).into);
    }
  }

  // ----- the other frames

  lemma StillOk(w: World, v: World)
    requires IntakeOk(w) == true && Still(w, v) == true
    ensures IntakeOk(v) == true && Matched(v) == true
  {
    hide IntakeOf, FieldsTied, Requests, Held, Still, Matched;
    StillKeeps(w, v);
    HeldMatched(v);
  }

  lemma OkMatched(w: World)
    requires IntakeOk(w) == true
    ensures Matched(w) == true
  {
    hide IntakeOf, FieldsTied, Requests;
  }

  lemma SettingsFrameStill(w: World, f: Frame)
    requires Inv(w) == true && Matched(w) == true && f.typ == SETTINGS
    requires OnSettings(Note(w, Received(f)), f).code == NoError
    ensures Still(w, OnSettings(Note(w, Received(f)), f).w) == true
  {
    var w0 := Note(w, Received(f));
    if Bit0(f.flags) {
      hide IntakeOf, Still, Matched;
      StillNote(w, Received(f));
    } else {
      hide Inv, IntakeOf, Still, Matched, Leads, KeepsRequests, OnSettings, SettingsOf, ApplySettings;
      var steps := SettingsSteps(w, f);
      var v := Configured(w, f);
      var u := Send(v, SettingsAckFrame());
      StillNote(w, Received(f));
      StillMatched(w, w0);
      StillKeep(w0, v.c);
      StillTwice(w, w0, v);
      StillMatched(w, v);
      StillNote(v, Sent(SettingsAckFrame()));
      StillTwice(w, v, u);
      StillMatched(w, u);
      StillSteps(u, steps, OnSettings(w0, f).w);
      StillTwice(w, u, OnSettings(w0, f).w);
    }
  }

  lemma ControlStill(w: World, f: Frame)
    requires Matched(w) == true
    ensures Still(w, OnPing(w, f).w) == true && Still(w, OnGoaway(w, f).w) == true && Still(w, OnReset(w, f).w) == true
  {
    hide IntakeOf, Still, Matched, Release;
    StillLike(w, w);
    StillNote(w, Sent(PingAckFrame(f.payload)));
    StillRelease(w, f.id);
  }

  /** The frames other than DATA, HEADERS and CONTINUATION. */
  lemma OtherStill(w: World, f: Frame)
    requires Inv(w) == true && Matched(w) == true && f.typ <= CONTINUATION
    requires f.typ != DATA && f.typ != HEADERS && f.typ != CONTINUATION
    requires OnFrame(Note(w, Received(f)), f).code == NoError
    ensures Still(w, OnFrame(Note(w, Received(f)), f).w) == true
  {
    hide Inv, IntakeOf, Still, Matched, Leads, OnData, OnHeaders, OnPriority, OnReset, OnSettings, OnPing, OnGoaway,
         OnWindowUpdate, OnContinuation;
    if f.typ == SETTINGS {
      SettingsFrameStill(w, f);
    } else {
      var w0 := Note(w, Received(f));
      StillNote(w, Received(f));
      StillMatched(w, w0);
      if f.typ == WINDOW_UPDATE {
        var steps := CreditSteps(w, f);
        StillSteps(w0, steps, OnFrame(w0, f).w);
      } else if f.typ == PRIORITY {
        var steps := PrioritySteps(w0, f);
        StillSteps(w0, steps, OnFrame(w0, f).w);
      } else {
        ControlStill(w0, f);
      }
      StillTwice(w, w0, OnFrame(w0, f).w);
    }
  }

  lemma FrameIntake(w: World, f: Frame)
    requires Inv(w) == true && IntakeOk(w) == true && f.typ <= CONTINUATION
    requires OnFrame(Note(w, Received(f)), f).code == NoError
    ensures IntakeOk(OnFrame(Note(w, Received(f)), f).w) == true
  {
    hide Inv, IntakeOk, Still, Matched, OnData, OnHeaders, OnPriority, OnReset, OnSettings, OnPing, OnGoaway,
         OnWindowUpdate, OnContinuation;
    if f.typ == DATA {
      DataIntake(w, f);
    } else if f.typ == HEADERS {
      HeadersIntake(w, f);
    } else if f.typ == CONTINUATION {
      ContinuationIntake(w, f);
    } else {
      OkMatched(w);
      OtherStill(w, f);
      StillOk(w, OnFrame(Note(w, Received(f)), f).w);
    }
  }

  // ----- runs

  lemma PrefaceStill(w: World)
    requires Matched(w) == true
    ensures Still(w, Send(w, SettingsFrame(ServerSettings()))) == true
  {
    assert SettingsFrame(ServerSettings()).typ == SETTINGS;
    hide IntakeOf, Still, Matched, SettingsFrame;
    StillNote(w, Sent(SettingsFrame(ServerSettings())));
  }

  lemma HeadersStill(w: World, id: nat, block: seq<byte>, end: bool)
    requires Matched(w) == true
    ensures Still(w, WriteBlock(Note(w, WroteHeaders(id, end)), id, block, end)) == true
  {
    hide IntakeOf, Still, Matched, WriteBlock;
    var w0 := Note(w, WroteHeaders(id, end));
    StillNote(w, WroteHeaders(id, end));
    StillMatched(w, w0);
    StillBlock(w0, id, block, end);
    StillTwice(w, w0, WriteBlock(w0, id, block, end));
  }

  /** Calls other than feeding octets. */
  lemma CallStill(w: World, call: Call)
    requires Inv(w) == true && Matched(w) == true && !call.Feed?
    ensures Still(w, Perform(w, call).w) == true
  {
    hide Inv, IntakeOf, Still, Matched, Leads, Consume, WriteBlock, WriteBody, WriteTrailers, Release, SettingsFrame;
    if call.Preface? {
      PrefaceStill(w);
    } else if call.Headers? {
      HeadersStill(w, call.id, call.block, call.end);
    } else {
      Ids31(w);
      var steps := CallSteps(w, call);
      StillSteps(w, steps, Perform(w, call).w);
    }
  }

  lemma HopIntake(w: World, hop: Hop)
    requires Inv(w) == true && IntakeOk(w) == true && Fits(w, hop)
    ensures IntakeOk(Take(w, hop)) == true
  {
    hide Inv, IntakeOk, Still, Matched, OnFrame, Perform;
    OkMatched(w);
    var v := Take(w, hop);
    match hop
    case Accept(f) => FrameIntake(w, f);
    case Skip(f) =>
      StillNote(w, Received(f));
      StillOk(w, v);
    case Greet =>
      StillLike(w, v);
      StillOk(w, v);
    case Make(call) =>
      CallStill(w, call);
      StillOk(w, v);
  }

  lemma {:induction false} PathIntake(w: World, hops: seq<Hop>, v: World)
    requires Inv(w) == true && IntakeOk(w) == true && Path(w, hops, v)
    ensures Inv(v) == true && IntakeOk(v) == true
    decreases |hops|
  {
    hide Inv, IntakeOk, Fits, Take;
    if hops != [] {
      HopInv(w, hops[0]);
      HopIntake(w, hops[0]);
      PathIntake(Take(w, hops[0]), hops[1..], v);
    }
  }

  lemma LeavesTied(w: World, log: Log)
    requires IntakeOk(w) == true && Leaves(w.log, log)
    ensures FieldsTied(log)
  {
    hide IntakeOf, Requests;
  }

  lemma OkTied(w: World)
    requires IntakeOk(w) == true
    ensures FieldsTied(w.log) && Requests(w.log) == IntakeOf(w.log).due
  {
    hide IntakeOf, FieldsTied, Requests;
  }

  lemma PerformIntake(w: World, call: Call)
    requires Inv(w) == true && IntakeOk(w) == true
    ensures !Perform(w, call).close ==> IntakeOk(Perform(w, call).w) == true
  {
    hide Inv, IntakeOk, Path, Leaves, Perform;
    var hops, v := PerformHops(w, call);
    PathIntake(w, hops, v);
  }

  lemma NewWorldIntake()
    ensures IntakeOk(NewWorld()) == true
  {
  }

  lemma NewRunIntake(calls: seq<Call>)
    ensures var r := Run(NewWorld(), calls);
            && FieldsTied(r.w.log)
            && (!r.close ==> IntakeOk(r.w) == true && Requests(r.w.log) == IntakeOf(r.w.log).due)
  {
    hide Inv, IntakeOk, Run, NewWorld, FieldsTied, Requests, IntakeOf, Path, Leaves;
    NewWorldInv();
    NewWorldIntake();
    var hops, v := RunHops(NewWorld(), calls);
    PathIntake(NewWorld(), hops, v);
    OkTied(v);
    if Run(NewWorld(), calls).close {
      LeavesTied(v, Run(NewWorld(), calls).w.log);
    }
  }

  lemma {:induction false} PrefixTied(log: Log, p: Log, r: Request)
    requires FieldsTied(log) && IsPrefix(Then(p, Surfaced(r)), log)
    ensures r.id in IntakeOf(p).fields && r.headers == IntakeOf(p).fields[r.id]
    decreases log
  {
    hide IntakeOf;
    if log != Then(p, Surfaced(r)) {
      PrefixTied(log.before, p, r);
    }
  }

  // ----- the theorems

  /** In every run that is still open, the requests surfaced are exactly those the peer's frames amount to, in the
      order they were complete: none is lost, none is invented, and each carries its own fields and body. */
  lemma RequestsAreDue(calls: seq<Call>)
    requires !Run(NewWorld(), calls).close
    ensures Requests(Run(NewWorld(), calls).w.log) == IntakeOf(Run(NewWorld(), calls).w.log).due
  {
    hide Run, NewWorld, FieldsTied, Requests, IntakeOf, IntakeOk;
    NewRunIntake(calls);
  }

  /** At the moment any request surfaces, in any run, it is sound: not seen before, well formed, its body the
      content of its DATA frames in order, of the length it declared, and its fields those of its first block. */
  lemma RequestsSound(calls: seq<Call>, p: Log, r: Request)
    requires IsPrefix(Then(p, Surfaced(r)), Run(NewWorld(), calls).w.log)
    ensures RequestSound(p, r) && r.id in IntakeOf(p).fields && r.headers == IntakeOf(p).fields[r.id]
  {
    RunSafe(calls);
    NewRunIntake(calls);
    hide Run, NewWorld, Safe, RequestSound, FieldsTied, IntakeOf, Requests, IntakeOk;
    EventsSafe(Run(NewWorld(), calls).w.log, p, Surfaced(r));
    PrefixTied(Run(NewWorld(), calls).w.log, p, r);
  }

  lemma RequestEndedGrows(r: Intake, id: u31, body: seq<byte>)
    ensures r.due <= RequestEnded(r, id, body).due
  {
    hide Complies;
  }

  lemma TakenGrows(r: Intake, body: seq<byte>)
    ensures r.due <= BlockTaken(r, body).due
  {
    hide RequestEnded, HpackBlock.DecodeBlock, Rules.ValidTrailers;
    var b := r.block;
    var d := HpackBlock.DecodeBlock(r.table, b.octets);
    RequestEndedGrows(r.(table := d.table), b.id, body);
    RequestEndedGrows(r.(table := d.table, fields := r.fields[b.id := d.fields],
                     selfDependent := if b.selfDependent then r.selfDependent + {b.id}
                                      else r.selfDependent - {b.id}), b.id, body);
  }

  lemma EventGrows(r: Intake, before: Log, e: Event)
    ensures r.due <= IntakeAfter(r, before, e).due
  {
    hide RequestEnded, BlockTaken, TallyOf, Content, ConnReplies.Fragment, DependsOnItself;
    if e.Received? {
      var f := e.f;
      if f.typ == DATA {
        RequestEndedGrows(r, f.id, TallyOf(before, f.id).into + Content(f));
      } else if f.typ == HEADERS {
        TakenGrows(r.(block := BlockStarted(r, f)), TallyOf(before, f.id).into);
      } else if f.typ == CONTINUATION {
        TakenGrows(r.(block := r.block.(octets := r.block.octets + f.payload)), TallyOf(before, r.block.id).into);
      }
    }
  }

  lemma {:induction false} DueStays(log: Log, p: Log)
    requires IsPrefix(p, log)
    ensures IntakeOf(p).due <= IntakeOf(log).due
    decreases log
  {
    hide IntakeAfter;
    if p != log {
      DueStays(log.before, p);
      EventGrows(IntakeOf(log.before), log.before, log.last);
    }
  }

  /** A stream that is open, whose first block is well formed and does not name itself, and whose END_STREAM arrives
      on a DATA frame with the declared number of octets, has surfaced in every run that goes on from there. */
  lemma CompleteSurfaces(calls: seq<Call>, p: Log, f: Frame)
    requires !Run(NewWorld(), calls).close && IsPrefix(Then(p, Received(f)), Run(NewWorld(), calls).w.log)
    requires f.typ == DATA && Bit0(f.flags) && f.id in IntakeOf(p).open
    requires f.id in IntakeOf(p).fields && f.id !in IntakeOf(p).selfDependent
    requires Complies(IntakeOf(p).fields[f.id], TallyOf(p, f.id).into + Content(f))
    ensures Request(f.id, IntakeOf(p).fields[f.id], TallyOf(p, f.id).into + Content(f))
            in Requests(Run(NewWorld(), calls).w.log)
  {
    hide Run, NewWorld, Requests, Complies, TallyOf, Content, BlockTaken;
    RequestsAreDue(calls);
    var log, q := Run(NewWorld(), calls).w.log, Then(p, Received(f));
    var r := Request(f.id, IntakeOf(p).fields[f.id], TallyOf(p, f.id).into + Content(f));
    DueStays(log, q);
    assert IntakeOf(q).due == IntakeOf(p).due + [r];
    assert IntakeOf(log).due[|IntakeOf(p).due|] == r;
  }
}
