// How responses end: END_STREAM at most once, after every body octet, with no DATA or HEADERS of the stream
// behind it, in every run whose application writes each response as headers, bodies, then one ending.
module ConnEnding {
  import opened Bytes
  import opened Frames
  import opened HpackTable
  import opened ConnModel
  import opened ConnShapes
  import opened ConnLog
  import opened ConnInv
  import opened ConnSend
  import opened ConnRecv
  import opened ConnBlocks
  import opened ConnRuns
  import HpackBlock
  import Segmentation
  import P = Probing
  import Rules = RequestRules

  // ----- endings in a log

  /** Whether END_STREAM went out on a stream, and whether the application asked for it. */
  datatype Ending = Ending(sent: bool, asked: bool)

  predicate Carries(f: Frame) {
    f.typ == DATA || f.typ == HEADERS
  }

  function EndingAfter(n: Ending, e: Event, id: nat): Ending {
    match e
    case Sent(f) => if f.id == id && Carries(f) && Bit0(f.flags) then n.(sent := true) else n
    case WroteHeaders(x, end) => if x == id && end then n.(asked := true) else n
    case WroteBody(x, _, end) => if x == id && end then n.(asked := true) else n
    case WroteTrailers(x) => if x == id then n.(asked := true) else n
    case _ => n
  }

  function EndingOf(log: Log, id: nat): Ending {
    match log
    case Nothing => Ending(false, false)
    case Then(before, e) => EndingAfter(EndingOf(before, id), e, id)
  }

  /** No DATA and no HEADERS frame follows an END_STREAM of its stream. */
  ghost predicate EndsOnce(log: Log) {
    match log
    case Nothing => true
    case Then(before, Sent(f)) => EndsOnce(before) && (Carries(f) ==> !EndingOf(before, f.id).sent)
    case Then(before, _) => EndsOnce(before)
  }

  // ----- the discipline and the invariant

  /** One response per stream that was opened, as headers, bodies and one ending. */
  ghost predicate Ordered(w: World, call: Call) {
    match call
    case Headers(id, _, _) => TallyOf(w.log, id).everOpened && !EndingOf(w.log, id).asked
    case Body(id, _, _) => !EndingOf(w.log, id).asked
    case Trailers(id, _) => !EndingOf(w.log, id).asked
    case _ => true
  }

  /** Octets written to stream x were not sent: they are parked, or the stream was reset before they went out. */
  ghost predicate Unsent(w: World, x: nat) {
    if x in w.c.streams then w.c.streams[x].parked != [] else TallyOf(w.log, x).out != TallyOf(w.log, x).bodies
  }

  /** The calls that write END_STREAM at once: final headers and an empty final body. With octets unsent, they cut
      stream x short. */
  ghost predicate Cuts(w: World, call: Call, x: nat) {
    match call
    case Headers(id, _, end) => end && x == id % 0x8000_0000 && Unsent(w, x)
    case Body(id, body, end) => end && body == [] && x == id && id in w.c.streams && Unsent(w, x)
    case _ => false
  }

  /** What the application is held to: the order of a response, and no call that cuts it short. */
  ghost predicate Polite(w: World, call: Call) {
    Ordered(w, call) && forall x: nat :: !Cuts(w, call, x)
  }

  ghost predicate EndOk(c: Conn, id: nat, t: Tally, n: Ending) {
    && (id in c.streams ==> !n.sent && (n.asked <==> c.streams[id].parkedEnd || c.streams[id].trailersPending))
    && (n.sent ==> n.asked && t.out == t.bodies)
    && (Unused(c, id) ==> n == Ending(false, false))
    && (t.everOpened ==> id <= c.lastStream && id % 2 == 1)
    && (n.asked ==> t.everOpened)
  }

  ghost predicate EndsOk(w: World) {
    (forall id: nat :: EndOk(w.c, id, TallyOf(w.log, id), EndingOf(w.log, id))) && EndsOnce(w.log)
  }

  // ----- steps that end nothing

  /** From w to v nothing was written, sent as DATA or HEADERS, or ended, and streams keep what they hold back. */
  ghost predicate QuietLog(a: Log, b: Log) {
    && (forall x: nat :: EndingOf(b, x) == EndingOf(a, x))
    && (forall x: nat :: TallyOf(b, x).out == TallyOf(a, x).out && TallyOf(b, x).bodies == TallyOf(a, x).bodies)
    && (EndsOnce(a) ==> EndsOnce(b))
  }

  ghost predicate SameHolding(a: Stream, b: Stream) {
    a.parkedEnd == b.parkedEnd && a.trailersPending == b.trailersPending
  }

  /** An open stream is one that was open and holds back what it held, or a new one that holds nothing. */
  ghost predicate Continues(c: Conn, d: Conn, x: nat)
    requires x in d.streams
  {
    || (x in c.streams && SameHolding(c.streams[x], d.streams[x]))
    || (Unused(c, x) && !d.streams[x].parkedEnd && !d.streams[x].trailersPending)
  }

  ghost predicate QuietState(w: World, v: World) {
    && (forall x: nat :: x in v.c.streams ==> Continues(w.c, v.c, x))
    && (forall x: nat :: Unused(v.c, x) ==> Unused(w.c, x))
    && w.c.lastStream <= v.c.lastStream
    && (forall x: nat :: TallyOf(w.log, x).everOpened ==> TallyOf(v.log, x).everOpened)
    && (forall x: nat :: TallyOf(v.log, x).everOpened ==>
          TallyOf(w.log, x).everOpened || (x <= v.c.lastStream && x % 2 == 1))
  }

  ghost predicate Quiet(w: World, v: World) {
    QuietLog(w.log, v.log) && QuietState(w, v)
  }

  lemma QuietKeeps(w: World, v: World)
    requires EndsOk(w) == true && Quiet(w, v) == true
    ensures EndsOk(v) == true
  {
    hide TallyOf, EndingOf, EndsOnce, Unused;
    forall x: nat ensures EndOk(v.c, x, TallyOf(v.log, x), EndingOf(v.log, x)) {
      assert EndOk(w.c, x, TallyOf(w.log, x), EndingOf(w.log, x));
    }
  }

  lemma QuietTwice(u: World, v: World, w: World)
    requires Quiet(u, v) == true && Quiet(v, w) == true
    ensures Quiet(u, w) == true
  {
    hide TallyOf, EndingOf, EndsOnce, Unused;
    forall x: nat | x in w.c.streams ensures Continues(u.c, w.c, x) {
      assert Continues(v.c, w.c, x);
      assert x in v.c.streams ==> Continues(u.c, v.c, x);
    }
  }

  // ----- the quiet primitives

  /** Nothing but the log changes, and by an event that ends nothing. */
  predicate QuietEvent(e: Event) {
    match e
    case Received(_) => true
    case Sent(f) => !Carries(f)
    case Released(_) => true
    case Surfaced(_) => true
    case _ => false
  }

  lemma QuietNote(log: Log, e: Event)
    requires QuietEvent(e)
    ensures QuietLog(log, Then(log, e))
    ensures forall x: nat :: TallyOf(Then(log, e), x).everOpened == TallyOf(log, x).everOpened
  {
    hide Content, Increment;
  }

  /** The streams of d are streams of c that hold back what they held, and no id became unused. */
  ghost predicate QuietConn(c: Conn, d: Conn) {
    && (forall x: nat :: x in d.streams ==> x in c.streams && SameHolding(c.streams[x], d.streams[x]))
    && (forall x: nat :: Unused(d, x) ==> Unused(c, x))
    && c.lastStream <= d.lastStream
  }

  lemma QuietStep(w: World, v: World)
    requires QuietLog(w.log, v.log) && QuietConn(w.c, v.c)
    requires forall x: nat :: TallyOf(v.log, x).everOpened == TallyOf(w.log, x).everOpened
    ensures Quiet(w, v) == true
  {
    hide TallyOf, EndingOf, EndsOnce, Unused;
  }

  lemma QuietSelf(log: Log)
    ensures QuietLog(log, log)
  {
    hide TallyOf, EndingOf, EndsOnce;
  }

  lemma QuietSend(w: World, f: Frame)
    requires !Carries(f)
    ensures Quiet(w, Send(w, f)) == true
  {
    QuietNote(w.log, Sent(f));
    hide TallyOf, EndingOf, EndsOnce, Unused;
    QuietStep(w, Send(w, f));
  }

  lemma QuietRelease(w: World, id: nat)
    ensures Quiet(w, Release(w, id)) == true
  {
    QuietNote(w.log, Released(id));
    QuietSelf(w.log);
    hide TallyOf, EndingOf, EndsOnce, P.Remove;
    QuietStep(w, Release(w, id));
  }

  lemma QuietReset(w: World, id: nat, code: ErrorCode)
    ensures Quiet(w, Release(Send(w, RstFrame(id, code)), id)) == true
  {
    QuietSend(w, RstFrame(id, code));
    hide Quiet, Release;
    QuietRelease(Send(w, RstFrame(id, code)), id);
    QuietTwice(w, Send(w, RstFrame(id, code)), Release(Send(w, RstFrame(id, code)), id));
  }

  lemma QuietUpdate(w: World, id: nat, s: Stream)
    requires id in w.c.streams && SameHolding(w.c.streams[id], s)
    ensures Quiet(w, Update(w, id, s)) == true
  {
    QuietSelf(w.log);
    hide TallyOf, EndingOf, EndsOnce;
    QuietStep(w, Update(w, id, s));
  }

  lemma QuietComplete(w: World, id: u31)
    ensures Quiet(w, Complete(w, id)) == true
  {
    QuietSelf(w.log);
    if id in w.c.streams {
      var s := w.c.streams[id];
      var r := Request(id, s.headers, s.body);
      QuietRelease(w, id);
      QuietReset(w, id, ProtocolError);
      QuietNote(w.log, Surfaced(r));
      hide TallyOf, EndingOf, EndsOnce, Release;
      QuietStep(w, Note(Update(w, id, s.(remoteDone := true)), Surfaced(r)));
    } else {
      QuietStep(w, w);
    }
  }

  // ----- frames that end nothing

  lemma QuietReceive(w: World, f: Frame)
    ensures Quiet(w, Note(w, Received(f))) == true
  {
    QuietNote(w.log, Received(f));
    hide TallyOf, EndingOf, EndsOnce;
    QuietStep(w, Note(w, Received(f)));
  }

  lemma QuietAccepted(w: World, f: Frame)
    requires f.id in w.c.streams
    ensures Quiet(w, Accepted(w, f)) == true
  {
    var s := w.c.streams[f.id];
    var w0 := Note(w, Received(f));
    var w1 := Update(w0, f.id, if s.rejected then s else s.(body := s.body + Content(f)));
    QuietReceive(w, f);
    QuietUpdate(w0, f.id, w1.c.streams[f.id]);
    QuietSend(w1, WindowUpdateFrame(0, |f.payload|));
    hide Quiet, Content;
    QuietTwice(w, w0, w1);
    QuietTwice(w, w1, Send(w1, WindowUpdateFrame(0, |f.payload|)));
  }

  lemma QuietData(w: World, f: Frame)
    requires f.typ == DATA && OnData(Note(w, Received(f)), f).code == NoError
    ensures Quiet(w, OnData(Note(w, Received(f)), f).w) == true
  {
    hide Quiet, OnData, Complete, Accepted;
    OnDataForm(w, f);
    var v := Accepted(w, f);
    var s := v.c.streams[f.id];
    QuietAccepted(w, f);
    if Bit0(f.flags) {
      var u := Update(v, f.id, s.(recvWindow := s.recvWindow - |f.payload|));
      QuietUpdate(v, f.id, s.(recvWindow := s.recvWindow - |f.payload|));
      QuietTwice(w, v, u);
      QuietComplete(u, f.id);
      QuietTwice(w, u, Complete(u, f.id));
    } else if f.payload != [] {
      QuietSend(v, WindowUpdateFrame(f.id, |f.payload|));
      QuietTwice(w, v, Send(v, WindowUpdateFrame(f.id, |f.payload|)));
    }
  }

  lemma QuietTaken(w: World, dec: Table)
    ensures Quiet(w, w.(c := w.c.(hdr := w.c.hdr.(expecting := false), dec := dec))) == true
  {
    QuietSelf(w.log);
    hide TallyOf, EndingOf, EndsOnce;
    QuietStep(w, w.(c := w.c.(hdr := w.c.hdr.(expecting := false), dec := dec)));
  }

  lemma OpenedEndings(log: Log, id: nat)
    ensures QuietLog(log, Then(log, Event.Opened(id)))
  {
  }

  /** Opening the announced stream ends nothing. */
  lemma QuietOpen(w: World, dec: Table, s: Stream)
    requires Inv(w) == true && w.c.hdr.expecting && !w.c.hdr.trailers && !s.parkedEnd && !s.trailersPending
    ensures Quiet(w, Open(w.(c := w.c.(hdr := w.c.hdr.(expecting := false), dec := dec)), w.c.hdr.id, s)) == true
  {
    var id := w.c.hdr.id;
    var v := Open(w.(c := w.c.(hdr := w.c.hdr.(expecting := false), dec := dec)), id, s);
    assert id % 2 == 1 && id <= w.c.lastStream;
    OpenedTallies(w.log, id);
    OpenedEndings(w.log, id);
    hide Inv, TallyOf, TotalsOf, Safe, EndingOf, EndsOnce, P.Put;
    assert v.log == Then(w.log, Event.Opened(id));
    forall x: nat | x in v.c.streams ensures Continues(w.c, v.c, x) {
    }
  }

  lemma QuietFinish(w: World)
    requires Inv(w) == true && w.c.hdr.expecting && FinishBlock(w).code == NoError
    ensures Quiet(w, FinishBlock(w).w) == true
  {
    var h := w.c.hdr;
    var d := HpackBlock.DecodeBlock(w.c.dec, h.block);
    var w1 := w.(c := w.c.(hdr := h.(expecting := false), dec := d.table));
    QuietTaken(w, d.table);
    hide HpackBlock.DecodeBlock, Quiet, Inv, Release, Complete, Rules.ValidRequest, Rules.ValidTrailers,
         Rules.DeclaredLength, Open;
    if h.trailers {
      QuietReset(w1, h.id, ProtocolError);
      QuietComplete(w1, h.id);
      QuietTwice(w, w1, FinishBlock(w).w);
    } else if h.refused {
      QuietSend(w1, RstFrame(h.id, RefusedStream));
      QuietTwice(w, w1, FinishBlock(w).w);
    } else {
      var ok := Rules.ValidRequest(d.fields);
      var malformed := h.malformed || !ok;
      var s := FreshStream(w.c.initSendWindow).(
               headers := d.fields,
               rejected := malformed,
               declaredLen := if ok then Rules.DeclaredLength(d.fields) else -1);
      var w2 := Open(w1, h.id, s);
      var w3 := if malformed then Send(w2, RstFrame(h.id, ProtocolError)) else w2;
      QuietOpen(w, d.table, s);
      if malformed {
        QuietSend(w2, RstFrame(h.id, ProtocolError));
        QuietTwice(w, w2, w3);
      }
      QuietComplete(w3, h.id);
      QuietTwice(w, w3, Complete(w3, h.id));
    }
  }

  lemma QuietStart(w: World, h: Assembly, last: u31)
    requires h.expecting && w.c.lastStream <= last && (h.trailers || h.id > w.c.lastStream)
    ensures Quiet(w, w.(c := w.c.(hdr := h, lastStream := last))) == true
  {
    QuietSelf(w.log);
    hide TallyOf, EndingOf, EndsOnce;
    QuietStep(w, w.(c := w.c.(hdr := h, lastStream := last)));
  }

  lemma QuietHeaders(w: World, f: Frame)
    requires Inv(w) == true && f.typ == HEADERS && !w.c.hdr.expecting
    requires OnHeaders(Note(w, Received(f)), f).code == NoError
    ensures Quiet(w, OnHeaders(Note(w, Received(f)), f).w) == true
  {
    hide Inv, Quiet, FinishBlock, StartBlock, SameTallies;
    var w0 := Note(w, Received(f));
    ReceivePlain(w, f);
    NoteCore(w, Received(f));
    StartBlockForm(w0.c, f);
    QuietReceive(w, f);
    match StartBlock(w0.c, f)
    case Bad(code) =>
    case Begin(h, last) =>
      var w1 := w0.(c := w0.c.(hdr := h, lastStream := last));
      AnnouncedInv(w0, h, last);
      QuietStart(w0, h, last);
      QuietTwice(w, w0, w1);
      if Bit2(f.flags) {
        QuietFinish(w1);
        QuietTwice(w, w1, FinishBlock(w1).w);
      }
  }

  lemma QuietLonger(w: World, block: seq<byte>)
    ensures Quiet(w, w.(c := w.c.(hdr := w.c.hdr.(block := block)))) == true
  {
    QuietSelf(w.log);
    hide TallyOf, EndingOf, EndsOnce;
    QuietStep(w, w.(c := w.c.(hdr := w.c.hdr.(block := block))));
  }

  lemma QuietContinuation(w: World, f: Frame)
    requires Inv(w) == true && f.typ == CONTINUATION && OnContinuation(Note(w, Received(f)), f).code == NoError
    ensures Quiet(w, OnContinuation(Note(w, Received(f)), f).w) == true
  {
    hide Inv, Quiet, FinishBlock, SameTallies;
    var w0 := Note(w, Received(f));
    ReceivePlain(w, f);
    NoteCore(w, Received(f));
    QuietReceive(w, f);
    var h := w.c.hdr;
    var w1 := w0.(c := w0.c.(hdr := h.(block := h.block + f.payload)));
    LongerBlockInv(w0, h.block + f.payload);
    QuietLonger(w0, h.block + f.payload);
    QuietTwice(w, w0, w1);
    if Bit2(f.flags) {
      QuietFinish(w1);
      QuietTwice(w, w1, FinishBlock(w1).w);
    }
  }

  lemma QuietOthers(w: World, f: Frame)
    ensures OnPriority(Note(w, Received(f)), f).code == NoError ==> Quiet(w, OnPriority(Note(w, Received(f)), f).w)
    ensures OnReset(Note(w, Received(f)), f).code == NoError ==> Quiet(w, OnReset(Note(w, Received(f)), f).w)
    ensures OnPing(Note(w, Received(f)), f).code == NoError ==> Quiet(w, OnPing(Note(w, Received(f)), f).w)
    ensures OnGoaway(Note(w, Received(f)), f).code == NoError ==> Quiet(w, OnGoaway(Note(w, Received(f)), f).w)
  {
    var w0 := Note(w, Received(f));
    QuietReceive(w, f);
    QuietReset(w0, f.id, ProtocolError);
    QuietRelease(w0, f.id);
    QuietSend(w0, PingAckFrame(f.payload));
    hide Quiet, Release, ReadU32;
    QuietTwice(w, w0, Release(Send(w0, RstFrame(f.id, ProtocolError)), f.id));
    QuietTwice(w, w0, Release(w0, f.id));
    QuietTwice(w, w0, Send(w0, PingAckFrame(f.payload)));
  }

  // ----- emitting DATA

  /** From a to b only stream id's ending changed, and at most to "sent". */
  ghost predicate EndedOn(a: Log, b: Log, id: nat, now: bool) {
    && EndingOf(b, id) == EndingOf(a, id).(sent := EndingOf(a, id).sent || now)
    && (forall x: nat :: x != id ==> EndingOf(b, x) == EndingOf(a, x))
    && (EndsOnce(a) && !EndingOf(a, id).sent ==> EndsOnce(b))
  }

  lemma ChunkEnding(log: Log, id: nat, chunk: seq<byte>, last: bool)
    requires id < 0x8000_0000
    ensures EndedOn(log, Then(log, Sent(DataFrame(id, chunk, last))), id, last)
  {
  }

  lemma EndedNothing(log: Log, id: nat)
    ensures EndedOn(log, log, id, false)
  {
    hide EndingOf, EndsOnce;
  }

  lemma EndedTwice(a: Log, b: Log, c: Log, id: nat, now: bool)
    requires EndedOn(a, b, id, false) && EndedOn(b, c, id, now)
    ensures EndedOn(a, c, id, now)
  {
    hide EndingOf, EndsOnce;
  }

  /** Emitting ends the stream exactly when all of a final body went out. */
  lemma {:induction false} EmitEnding(w: World, id: nat, data: seq<byte>, end: bool)
    requires id in w.c.streams && id < 0x8000_0000
    ensures var e := EmitData(w, id, data, end);
            EndedOn(w.log, e.w.log, id, data != [] && e.rest == [] && end)
    decreases |data|
  {
    EmitUnfold(w, id, data, end);
    hide EmitData, EndedOn;
    if data == [] || Allow(w.c, w.c.streams[id]) <= 0 {
      EndedNothing(w.log, id);
    } else {
      hide ChunkSize;
      var n := ChunkSize(w.c, w.c.streams[id], |data|);
      var last := n == |data| && end;
      SendDataShape(w, id, data[..n], last);
      hide SendData;
      var w1 := SendData(w, id, data[..n], last);
      ChunkEnding(w.log, id, data[..n], last);
      EmitUnfold(w1, id, data[n..], end);
      if n < |data| {
        EmitEnding(w1, id, data[n..], end);
        EndedTwice(w.log, w1.log, EmitData(w1, id, data[n..], end).w.log, id,
                   EmitData(w1, id, data[n..], end).rest == [] && end);
      }
    }
  }

  // ----- header blocks

  lemma {:induction false} PlainEndings(w: World, fs: seq<Frame>)
    requires forall i :: 0 <= i < |fs| ==> fs[i].typ == CONTINUATION
    ensures QuietLog(w.log, SendAll(w, fs).log)
    ensures forall x: nat :: TallyOf(SendAll(w, fs).log, x).everOpened == TallyOf(w.log, x).everOpened
    decreases |fs|
  {
    if fs == [] {
      QuietSelf(w.log);
    } else {
      QuietNote(w.log, Sent(fs[0]));
      hide TallyOf, EndingOf, EndsOnce;
      PlainEndings(Send(w, fs[0]), fs[1..]);
    }
  }

  lemma {:induction false} ContinuationTypes(id: nat, rest: seq<byte>, max: FrameSize)
    ensures forall i :: 0 <= i < |ContinuationFrames(id, rest, max)| ==>
                          ContinuationFrames(id, rest, max)[i].typ == CONTINUATION
    decreases |rest|
  {
    if |rest| > max {
      ContinuationTypes(id, rest[max..], max);
    }
  }

  lemma HeadersEnding(log: Log, id: nat, flags: byte, payload: seq<byte>)
    requires id < 0x8000_0000
    ensures EndedOn(log, Then(log, Sent(Frame(HEADERS, flags, id, payload))), id, Bit0(flags))
    ensures forall x: nat :: TallyOf(Then(log, Sent(Frame(HEADERS, flags, id, payload))), x) == TallyOf(log, x)
  {
  }

  lemma EndedThenQuiet(a: Log, b: Log, c: Log, id: nat, now: bool)
    requires EndedOn(a, b, id, now) && QuietLog(b, c)
    ensures EndedOn(a, c, id, now)
  {
    hide TallyOf, EndingOf, EndsOnce;
  }

  /** A header block ends its stream exactly when it says so. */
  lemma BlockEnding(w: World, id: nat, block: seq<byte>, end: bool)
    requires id < 0x8000_0000
    ensures EndedOn(w.log, SendAll(w, BlockFrames(id, block, end, w.c.peerMaxFrame)).log, id, end)
  {
    var max := w.c.peerMaxFrame;
    var fs := BlockFrames(id, block, end, max);
    if |block| > max {
      ContinuationTypes(id, block[max..], max);
      assert fs[1..] == ContinuationFrames(id, block[max..], max);
    }
    HeadersEnding(w.log, id, fs[0].flags, fs[0].payload);
    assert fs[0] == Frame(HEADERS, fs[0].flags, id, fs[0].payload) && (Bit0(fs[0].flags) <==> end);
    hide TallyOf, EndingOf, EndsOnce, BlockFrames, EndedOn, QuietLog;
    PlainEndings(Send(w, fs[0]), fs[1..]);
    EndedThenQuiet(w.log, Send(w, fs[0]).log, SendAll(w, fs).log, id, end);
  }

  // ----- ending one stream

  ghost predicate EndsBut(w: World, id: nat) {
    && (forall x: nat :: x != id ==> EndOk(w.c, x, TallyOf(w.log, x), EndingOf(w.log, x)))
    && EndsOnce(w.log)
  }

  /** What is left to say of a stream once it is gone. */
  ghost predicate GoneOk(c: Conn, id: nat, t: Tally, n: Ending) {
    && (n.sent ==> n.asked && t.out == t.bodies)
    && !Unused(c, id)
    && (t.everOpened ==> id <= c.lastStream && id % 2 == 1)
    && (n.asked ==> t.everOpened)
  }

  lemma ReleasedEndings(log: Log, id: nat)
    ensures forall x: nat :: EndingOf(Then(log, Released(id)), x) == EndingOf(log, x)
    ensures EndsOnce(log) ==> EndsOnce(Then(log, Released(id)))
  {
  }

  lemma ReleaseEnds(w: World, id: nat)
    requires EndsBut(w, id) == true && GoneOk(w.c, id, TallyOf(w.log, id), EndingOf(w.log, id)) == true
    ensures EndsOk(Release(w, id)) == true
  {
    ReleasedEndings(w.log, id);
    ReleasedTallies(w.log, id);
    hide TallyOf, EndingOf, EndsOnce, TotalsOf, Safe, P.Remove;
    var v := Release(w, id);
    forall x: nat ensures EndOk(v.c, x, TallyOf(v.log, x), EndingOf(v.log, x)) {
      assert x != id ==> EndOk(w.c, x, TallyOf(w.log, x), EndingOf(w.log, x));
    }
  }

  /** Only stream id's part of the log changed. */
  lemma EndsButAfter(w: World, v: World, id: nat)
    requires EndsBut(w, id) == true
    requires v.c == w.c.(connSendWindow := v.c.connSendWindow, streams := v.c.streams)
    requires forall x: nat :: x != id ==>
               && (x in v.c.streams <==> x in w.c.streams)
               && (x in v.c.streams ==> v.c.streams[x] == w.c.streams[x])
    requires forall x: nat :: x != id ==>
               TallyOf(v.log, x) == TallyOf(w.log, x) && EndingOf(v.log, x) == EndingOf(w.log, x)
    requires EndsOnce(v.log)
    ensures EndsBut(v, id) == true
  {
    hide TallyOf, EndingOf, EndsOnce;
    forall x: nat | x != id ensures EndOk(v.c, x, TallyOf(v.log, x), EndingOf(v.log, x)) {
      assert EndOk(w.c, x, TallyOf(w.log, x), EndingOf(w.log, x));
    }
  }

  lemma EndsWhole(w: World, id: nat)
    requires EndsBut(w, id) == true && EndOk(w.c, id, TallyOf(w.log, id), EndingOf(w.log, id)) == true
    ensures EndsOk(w) == true
  {
    hide TallyOf, EndingOf, EndsOnce, EndOk;
  }

  lemma EndOf(w: World, id: nat)
    requires EndsOk(w) == true
    ensures EndOk(w.c, id, TallyOf(w.log, id), EndingOf(w.log, id)) == true && EndsBut(w, id) == true && EndsOnce(w.log)
  {
    hide TallyOf, EndingOf, EndsOnce, EndOk;
  }

  /** A final header block on a stream whose body is complete. */
  lemma FinalBlockEnds(w: World, id: nat, block: seq<byte>)
    requires EndsBut(w, id) == true && id < 0x8000_0000 && w.c.peerMaxFrame == TotalsOf(w.log).maxFrame
    requires GoneOk(w.c, id, TallyOf(w.log, id), EndingOf(w.log, id)) == true
    requires !EndingOf(w.log, id).sent && EndingOf(w.log, id).asked
    requires TallyOf(w.log, id).out == TallyOf(w.log, id).bodies
    ensures EndsOk(WriteBlock(w, id, block, true)) == true
  {
    var fs := BlockFrames(id, block, true, w.c.peerMaxFrame);
    var v := SendAll(w, fs);
    BlockFits(id, block, true, w.c.peerMaxFrame);
    SendAllPlain(w, fs);
    SendAllShape(w, fs);
    BlockEnding(w, id, block, true);
    hide TallyOf, EndingOf, EndsOnce, TotalsOf, Safe, BlockFrames, Release, Unused;
    EndsButAfter(w, v, id);
    ReleaseEnds(v, id);
  }

  // ----- the application's calls

  /** What the two invariants say of one id. */
  lemma IdFacts(w: World, id: nat)
    requires Inv(w) == true && EndsOk(w) == true
    ensures EndsBut(w, id) && EndsOnce(w.log) && EndOk(w.c, id, TallyOf(w.log, id), EndingOf(w.log, id))
    ensures TallyOf(w.log, id).everOpened || id in w.c.streams ==> !Unused(w.c, id) && id < 0x8000_0000
    ensures if id in w.c.streams then ResponseOk(w.c.streams[id], TallyOf(w.log, id)) && TallyOf(w.log, id).everOpened
            else TallyOf(w.log, id).out <= TallyOf(w.log, id).bodies
    ensures ParkedOk(w.c, id) && w.c.peerMaxFrame == TotalsOf(w.log).maxFrame
  {
    EndOf(w, id);
    hide EndsOk, EndsBut, EndsOnce, EndingOf, TallyOf, TotalsOf, Safe, ResponseOk, RequestOk, P.Valid;
    assert IdOk(w.c, id, TallyOf(w.log, id));
    assert ParkedOk(w.c, id);
    if id in w.c.streams {
      NotUnused(w.c, id);
    }
  }

  lemma WroteHeadersEndings(log: Log, id: nat, end: bool)
    ensures var l := Then(log, WroteHeaders(id, end));
            && EndingOf(l, id) == EndingOf(log, id).(asked := EndingOf(log, id).asked || end)
            && (forall x: nat :: x != id ==> EndingOf(l, x) == EndingOf(log, x))
            && (EndsOnce(log) ==> EndsOnce(l))
  {
  }

  lemma HeadersEnds(w: World, id: nat, block: seq<byte>, end: bool)
    requires Inv(w) == true && EndsOk(w) == true && TallyOf(w.log, id).everOpened && !EndingOf(w.log, id).asked
    requires end ==> !Unsent(w, id)
    ensures EndsOk(WriteBlock(Note(w, WroteHeaders(id, end)), id, block, end)) == true
  {
    IdFacts(w, id);
    assert TallyOf(w.log, id).out + [] == TallyOf(w.log, id).out;
    var w0 := Note(w, WroteHeaders(id, end));
    WroteHeadersEndings(w.log, id, end);
    WroteHeadersTallies(w.log, id, end);
    hide Inv, EndsOk, TallyOf, EndingOf, EndsOnce, TotalsOf, Safe, Unused;
    EndsButAfter(w, w0, id);
    if end {
      FinalBlockEnds(w0, id, block);
    } else {
      var v := WriteBlock(w0, id, block, false);
      var fs := BlockFrames(id, block, false, w0.c.peerMaxFrame);
      BlockFits(id, block, false, w0.c.peerMaxFrame);
      SendAllPlain(w0, fs);
      SendAllShape(w0, fs);
      BlockEnding(w0, id, block, false);
      hide BlockFrames;
      EndsButAfter(w0, v, id);
      EndsWhole(v, id);
    }
  }

  lemma WroteBodyEndings(log: Log, id: nat, body: seq<byte>, end: bool)
    ensures var l := Then(log, WroteBody(id, body, end));
            && EndingOf(l, id) == EndingOf(log, id).(asked := EndingOf(log, id).asked || end)
            && (forall x: nat :: x != id ==> EndingOf(l, x) == EndingOf(log, x))
            && (EndsOnce(log) ==> EndsOnce(l))
  {
  }

  lemma EmptyBodyEnds(w: World, id: nat, end: bool)
    requires Inv(w) == true && EndsOk(w) == true && id in w.c.streams && !EndingOf(w.log, id).asked
    requires end ==> w.c.streams[id].parked == []
    ensures EndsOk(WriteBody(w, id, [], end)) == true
  {
    hide Inv, EndsOk, TallyOf, EndingOf, EndsOnce, TotalsOf, Safe, Unused, Release;
    IdFacts(w, id);
    var w0 := Note(w, WroteBody(id, [], end));
    WroteBodyEndings(w.log, id, [], end);
    WroteBodyTallies(w.log, id, [], end);
    assert TallyOf(w.log, id).bodies + [] == TallyOf(w.log, id).bodies;
    ChunkEnding(w0.log, id, [], true);
    EmptyDataTallies(w0, id, true);
    EndsButAfter(w, w0, id);
    if end {
      var v := Send(w0, DataFrame(id, [], true));
      EndsButAfter(w0, v, id);
      ReleaseEnds(v, id);
    } else {
      EndsWhole(w0, id);
    }
  }

  /** The ending of a stream after a body was written to it, k octets of which went out. */
  lemma BodyEnding(w: World, v: World, id: nat, body: seq<byte>, k: nat, end: bool)
    requires EndsBut(w, id) == true && EndsOnce(w.log) && id in w.c.streams && BodyLogged(w, v.log, id, body, k)
    requires !EndingOf(w.log, id).sent
    requires v.c == w.c.(connSendWindow := w.c.connSendWindow - k,
                         streams := w.c.streams[id := WithBody(w.c.streams[id], body, k, end)])
    requires EndedOn(Then(w.log, WroteBody(id, body, end)), v.log, id, k == |body| && end) == true
    ensures EndsBut(v, id) == true
    ensures EndingOf(v.log, id) == Ending(k == |body| && end, EndingOf(w.log, id).asked || end)
  {
    WroteBodyEndings(w.log, id, body, end);
    hide TallyOf, EndingOf, EndsOnce, TotalsOf, Safe, Unused, WithBody;
    EndsButAfter(w, v, id);
  }

  lemma BodyComplete(t: Tally, t1: Tally, body: seq<byte>, parked: seq<byte>)
    requires t.out + parked == t.bodies && parked == []
    requires t1.out == t.out + body[..|body|] && t1.bodies == t.bodies + body
    ensures t1.out == t1.bodies
  {
    assert body[..|body|] == body && t.out + [] == t.out;
  }

  lemma FullBodyEnds(w: World, id: nat, body: seq<byte>, end: bool)
    requires Inv(w) == true && EndsOk(w) == true && id in w.c.streams && !EndingOf(w.log, id).asked && body != []
    ensures EndsOk(WriteBody(w, id, body, end)) == true
  {
    hide Core, Inv, EndsOk, TallyOf, EndingOf, EndsOnce, TotalsOf, Safe, Release, EmitData, WriteBody, EndsBut;
    IdFacts(w, id);
    CoreOf(w);
    var k, v := WriteBodyShape(w, id, body, end);
    EmitEnding(Note(w, WroteBody(id, body, end)), id, body, end);
    hide EndedOn;
    BodyEnding(w, v, id, body, k, end);
    if k == |body| && end {
      BodyComplete(TallyOf(w.log, id), TallyOf(v.log, id), body, w.c.streams[id].parked);
      ReleaseEnds(v, id);
    } else {
      EndsWhole(v, id);
    }
  }

  lemma WroteTrailersEndings(log: Log, id: nat)
    ensures var l := Then(log, WroteTrailers(id));
            && EndingOf(l, id) == EndingOf(log, id).(asked := true)
            && (forall x: nat :: x != id ==> EndingOf(l, x) == EndingOf(log, x))
            && (EndsOnce(log) ==> EndsOnce(l))
  {
  }

  lemma TrailersEnds(w: World, id: nat, block: seq<byte>)
    requires Inv(w) == true && EndsOk(w) == true && id in w.c.streams && !EndingOf(w.log, id).asked
    ensures EndsOk(WriteTrailers(w, id, block)) == true
  {
    hide Inv, EndsOk, TallyOf, EndingOf, EndsOnce, TotalsOf, Safe, WriteBlock;
    IdFacts(w, id);
    var w0 := Note(w, WroteTrailers(id));
    WroteTrailersEndings(w.log, id);
    WroteTrailersTallies(w.log, id);
    var s := w.c.streams[id];
    if s.parked == [] {
      EndsButAfter(w, w0, id);
      assert TallyOf(w.log, id).out + [] == TallyOf(w.log, id).out;
      FinalBlockEnds(w0, id, block);
    } else {
      var v := Update(w0, id, s.(trailers := block, trailersPending := true));
      EndsButAfter(w, v, id);
      EndsWhole(v, id);
    }
  }

  // ----- flushing

  /** A stream some of whose parked octets went out. */
  lemma UnparkedEnds(w: World, v: World, id: nat, k: nat)
    requires EndsBut(v, id) == true && id in w.c.streams && k <= |w.c.streams[id].parked|
    requires id in v.c.streams && v.c.streams[id] == WithoutParked(w.c.streams[id], k)
    requires EndOk(w.c, id, TallyOf(w.log, id), EndingOf(w.log, id)) == true && !Unused(v.c, id) && !Unused(w.c, id)
    requires v.c.lastStream == w.c.lastStream && v.c.peerMaxFrame == TotalsOf(v.log).maxFrame && id < 0x8000_0000
    requires ResponseOk(w.c.streams[id], TallyOf(w.log, id))
    requires TallyOf(v.log, id) == TallyOf(w.log, id).(out := TallyOf(w.log, id).out + w.c.streams[id].parked[..k])
    requires var s := w.c.streams[id];
             EndingOf(v.log, id) == EndingOf(w.log, id).(sent := s.parked != [] && k == |s.parked| && s.parkedEnd)
    ensures EndsOk(AfterUnpark(w, v, id, k)) == true
  {
    hide EndsOk, EndsBut, TallyOf, EndingOf, TotalsOf, Unused, Release, WriteBlock;
    var s := w.c.streams[id];
    if k < |s.parked| {
      EndsWhole(v, id);
    } else {
      assert s.parked[..k] == s.parked;
      if s.parkedEnd {
        ReleaseEnds(v, id);
      } else if s.trailersPending {
        FinalBlockEnds(v, id, s.trailers);
      } else {
        EndsWhole(v, id);
      }
    }
  }

  lemma FlushEnds(w: World, id: nat)
    requires Core(w) == true && EndsOk(w) == true
    requires id in w.c.streams ==> id < 0x8000_0000
    ensures EndsOk(Flush(w, id)) == true
  {
    hide Core, EndsOk, EndsBut, TallyOf, EndingOf, EndsOnce, TotalsOf, Safe, Unused, EmitData, ResponseOk;
    if id in w.c.streams {
      EndOf(w, id);
      FlushFacts(w, id);
      var k, v := FlushForm(w, id);
      var s := w.c.streams[id];
      EmitEnding(w, id, s.parked, s.parkedEnd);
      hide Flush, AfterUnpark;
      EndsButAfter(w, v, id);
      SameUnused(w.c, v.c, id);
      UnparkedEnds(w, v, id, k);
    }
  }

  lemma SameUnused(c: Conn, d: Conn, id: nat)
    requires d.lastStream == c.lastStream && d.hdr == c.hdr
    ensures Unused(d, id) <==> Unused(c, id)
  {
  }

  lemma FlushFacts(w: World, id: nat)
    requires Core(w) == true && id in w.c.streams
    ensures ResponseOk(w.c.streams[id], TallyOf(w.log, id)) && TallyOf(w.log, id).everOpened && !Unused(w.c, id)
    ensures w.c.peerMaxFrame == TotalsOf(w.log).maxFrame && id < 0x8000_0000
  {
    hide TallyOf, TotalsOf, Safe, ResponseOk, RequestOk, P.Valid;
    assert IdOk(w.c, id, TallyOf(w.log, id));
    NotUnused(w.c, id);
  }

  lemma {:induction false} FlushAllEnds(w: World, ids: seq<nat>)
    requires Core(w) == true && EndsOk(w) == true
    ensures EndsOk(FlushAll(w, ids)) == true
    decreases |ids|
  {
    hide EndsOk, Flush;
    if ids != [] {
      if ids[0] in w.c.streams {
        FlushFacts(w, ids[0]);
      }
      hide Core;
      FlushEnds(w, ids[0]);
      FlushCore(w, ids[0]);
      FlushAllEnds(Flush(w, ids[0]), ids[1..]);
    }
  }

  // ----- SETTINGS and WINDOW_UPDATE

  lemma QuietSettings(w: World, f: Frame, ss: seq<Setting>)
    requires f.typ == SETTINGS && ApplySettings(w.c, ss, false).code == NoError && w.c.initSendWindow >= 0
    ensures Quiet(w, Send(World(ApplySettings(w.c, ss, false).c, Then(w.log, Received(f))), SettingsAckFrame())) == true
  {
    ApplySettingsEffect(w.c, ss, false);
    ApplySettingsShape(w.c, ss, false);
    var v := World(ApplySettings(w.c, ss, false).c, Then(w.log, Received(f)));
    QuietNote(w.log, Received(f));
    hide TallyOf, EndingOf, EndsOnce, ApplySettings, SettledInit, SettledMax;
    QuietStep(w, v);
    QuietSend(v, SettingsAckFrame());
    hide Quiet;
    QuietTwice(w, v, Send(v, SettingsAckFrame()));
  }

  lemma SettingsEnds(w: World, f: Frame)
    requires Inv(w) == true && EndsOk(w) == true && f.typ == SETTINGS
    requires OnSettings(Note(w, Received(f)), f).code == NoError
    ensures EndsOk(OnSettings(Note(w, Received(f)), f).w) == true
  {
    QuietReceive(w, f);
    CoreOf(w);
    InitInRange(w);
    hide Inv, Core, EndsOk, Quiet, TallyOf, TotalsOf, Safe, FlushAll, ApplySettings, SettingsOf;
    if Bit0(f.flags) {
      QuietKeeps(w, Note(w, Received(f)));
    } else {
      var ss := SettingsOf(f.payload).value;
      var a := ApplySettings(w.c, ss, false);
      var v := World(a.c, Then(w.log, Received(f)));
      QuietSettings(w, f, ss);
      QuietKeeps(w, Send(v, SettingsAckFrame()));
      SettingsCore(w, f, ss);
      AckedCore(v);
      FlushAllEnds(Send(v, SettingsAckFrame()), P.Ids(a.c.slots));
    }
  }

  lemma QuietCredit(w: World, f: Frame)
    ensures Quiet(w, World(w.c.(connSendWindow := w.c.connSendWindow + Increment(f)), Then(w.log, Received(f)))) == true
    ensures f.id in w.c.streams ==> Quiet(w, Credited(w, f))
  {
    QuietNote(w.log, Received(f));
    hide TallyOf, EndingOf, EndsOnce, Increment;
    QuietStep(w, World(w.c.(connSendWindow := w.c.connSendWindow + Increment(f)), Then(w.log, Received(f))));
    if f.id in w.c.streams {
      QuietStep(w, Credited(w, f));
    }
  }

  lemma CreditEnds(w: World, f: Frame)
    requires Inv(w) == true && EndsOk(w) == true && f.typ == WINDOW_UPDATE
    requires OnWindowUpdate(Note(w, Received(f)), f).code == NoError
    ensures EndsOk(OnWindowUpdate(Note(w, Received(f)), f).w) == true
  {
    var w0 := Note(w, Received(f));
    assert |f.payload| == 4;
    OnWindowUpdateForm(w, f);
    QuietReceive(w, f);
    QuietCredit(w, f);
    hide Inv, Core, EndsOk, Quiet, FlushAll, Flush, Release, OnWindowUpdate, Increment, Credited;
    QuietKeeps(w, w0);
    if f.id == 0 {
      var w1 := World(w.c.(connSendWindow := w.c.connSendWindow + Increment(f)), w0.log);
      ConnCreditCore(w, f);
      QuietKeeps(w, w1);
      FlushAllEnds(w1, P.Ids(w1.c.slots));
    } else if Increment(f) == 0 {
      QuietReset(w0, f.id, ProtocolError);
      QuietKeeps(w0, Release(Send(w0, RstFrame(f.id, ProtocolError)), f.id));
    } else if f.id in w.c.streams {
      var v := Credited(w, f);
      QuietKeeps(w, v);
      if w.c.streams[f.id].sendWindow + Increment(f) > MAX_WINDOW {
        QuietReset(v, f.id, FlowControlError);
        QuietKeeps(v, Release(Send(v, RstFrame(f.id, FlowControlError)), f.id));
      } else {
        CreditedCore(w, f);
        FlushEnds(v, f.id);
      }
    }
  }

  // ----- every frame, every call, every run

  lemma FrameEnds(w: World, f: Frame)
    requires Inv(w) == true && EndsOk(w) == true && f.typ <= CONTINUATION
    requires OnFrame(Note(w, Received(f)), f).code == NoError
    ensures EndsOk(OnFrame(Note(w, Received(f)), f).w) == true
  {
    hide Inv, EndsOk, Quiet, OnData, OnHeaders, OnPriority, OnReset, OnSettings, OnPing, OnGoaway, OnWindowUpdate,
         OnContinuation;
    var r := OnFrame(Note(w, Received(f)), f);
    if f.typ == DATA {
      QuietData(w, f);
      QuietKeeps(w, r.w);
    } else if f.typ == HEADERS {
      QuietHeaders(w, f);
      QuietKeeps(w, r.w);
    } else if f.typ == SETTINGS {
      SettingsEnds(w, f);
    } else if f.typ == WINDOW_UPDATE {
      CreditEnds(w, f);
    } else if f.typ == CONTINUATION {
      QuietContinuation(w, f);
      QuietKeeps(w, r.w);
    } else {
      QuietOthers(w, f);
      QuietKeeps(w, r.w);
    }
  }

  /** Nothing of a response follows its END_STREAM, and everything written to it went out before. */
  ghost predicate LogEnds(log: Log) {
    EndsOnce(log) && forall id: nat :: EndingOf(log, id).sent ==> TallyOf(log, id).out == TallyOf(log, id).bodies
  }

  ghost predicate Ended(w: World, close: bool) {
    if close then LogEnds(w.log) else EndsOk(w)
  }

  lemma ClosingEnds(w: World, f: Frame)
    requires LogEnds(w.log) == true && f.typ == GOAWAY
    ensures LogEnds(Send(w, f).log) == true
  {
    QuietNote(w.log, Sent(f));
    hide TallyOf, EndingOf, EndsOnce;
  }

  lemma LogEndsOf(w: World)
    requires EndsOk(w) == true
    ensures LogEnds(w.log) == true
  {
    hide TallyOf, EndingOf, EndsOnce;
    forall id: nat | EndingOf(w.log, id).sent ensures TallyOf(w.log, id).out == TallyOf(w.log, id).bodies {
      assert EndOk(w.c, id, TallyOf(w.log, id), EndingOf(w.log, id));
    }
  }

  lemma ReceivedEnds(w: World, f: Frame)
    requires EndsOk(w) == true
    ensures EndsOk(Note(w, Received(f))) == true && LogEnds(Note(w, Received(f)).log) == true
  {
    QuietReceive(w, f);
    QuietKeeps(w, Note(w, Received(f)));
    LogEndsOf(Note(w, Received(f)));
  }

  lemma TurnEnds(w: World, buf: seq<byte>)
    requires Inv(w) == true && EndsOk(w) == true
    ensures match Segmentation.Turn(w, buf)
            case None => true
            case Some(t) => Ended(t.w, t.close)
  {
    hide Inv, EndsOk, LogEnds, OnFrame, Join3, Join4;
    LogEndsOf(w);
    match ParseFrameHeader(buf)
    case None =>
    case Some(h) =>
      var total := FRAME_HEADER_LEN + h.length;
      ClosingEnds(w, GoawayFrame(w.c.lastStream, FrameSizeError));
      ClosingEnds(w, GoawayFrame(w.c.lastStream, ProtocolError));
      if h.length <= DEFAULT_MAX_FRAME_SIZE && total <= |buf| {
        var f := Frame(h.typ, h.flags, h.id, buf[FRAME_HEADER_LEN..total]);
        ReceivedEnds(w, f);
        if f.typ <= CONTINUATION {
          var r := OnFrame(Note(w, Received(f)), f);
          if r.code != NoError {
            FrameErrorLog(Note(w, Received(f)), f);
            ClosingEnds(r.w, GoawayFrame(r.w.c.lastStream, r.code));
          } else {
            FrameEnds(w, f);
          }
        }
      }
  }

  lemma {:induction false} ConsumeFramesEnds(w: World, buf: seq<byte>)
    requires Inv(w) == true && EndsOk(w) == true
    ensures Ended(ConsumeFrames(w, buf).w, ConsumeFrames(w, buf).close)
    decreases |buf|
  {
    hide Inv, EndsOk, LogEnds, ConsumeFrames, Segmentation.Turn;
    Segmentation.TurnUnfold(w, buf);
    TurnGood(w, buf);
    TurnEnds(w, buf);
    match Segmentation.Turn(w, buf)
    case None =>
    case Some(t) =>
      if !t.close {
        ConsumeFramesEnds(t.w, buf[t.n..]);
      }
  }

  lemma PrefaceEnds(w: World)
    requires EndsOk(w) == true
    ensures EndsOk(w.(c := w.c.(prefaceSeen := true))) == true
  {
    QuietSelf(w.log);
    hide TallyOf, EndingOf, EndsOnce;
    QuietStep(w, w.(c := w.c.(prefaceSeen := true)));
    QuietKeeps(w, w.(c := w.c.(prefaceSeen := true)));
  }

  lemma ConsumeEnds(w: World, buf: seq<byte>)
    requires Inv(w) == true && EndsOk(w) == true
    ensures Ended(Consume(w, buf).w, Consume(w, buf).close)
  {
    hide Inv, EndsOk, LogEnds, ConsumeFrames;
    LogEndsOf(w);
    ClosingEnds(w, GoawayFrame(0, ProtocolError));
    ConsumeFramesEnds(w, buf);
    PrefaceInv(w);
    PrefaceEnds(w);
    if |buf| >= |PREFACE_TAIL| {
      ConsumeFramesEnds(w.(c := w.c.(prefaceSeen := true)), buf[|PREFACE_TAIL|..]);
    }
  }

  lemma PerformEnds(w: World, call: Call)
    requires Inv(w) == true && EndsOk(w) == true && Polite(w, call)
    ensures Ended(Perform(w, call).w, Perform(w, call).close)
  {
    hide Inv, EndsOk, EndsOnce, LogEnds, Quiet, TallyOf, EndingOf, Consume, WriteBlock, Release;
    match call
    case Preface =>
      QuietSend(w, SettingsFrame(ServerSettings()));
      QuietKeeps(w, Send(w, SettingsFrame(ServerSettings())));
    case Feed(buf) => ConsumeEnds(w, buf);
    case Headers(id, block, end) =>
      IdFacts(w, id);
      assert !Cuts(w, call, id);
      HeadersEnds(w, id, block, end);
    case Body(id, body, end) =>
      if id in w.c.streams {
        assert !Cuts(w, call, id);
        if body == [] {
          EmptyBodyEnds(w, id, end);
        } else {
          FullBodyEnds(w, id, body, end);
        }
      }
    case Trailers(id, block) =>
      if id in w.c.streams {
        TrailersEnds(w, id, block);
      }
    case Abort(id, code) =>
      QuietReset(w, id, code);
      QuietKeeps(w, Release(Send(w, RstFrame(id, code)), id));
  }

  ghost predicate PoliteRun(w: World, calls: seq<Call>)
    decreases |calls|
  {
    calls != [] ==>
      && Polite(w, calls[0])
      && (!Perform(w, calls[0]).close ==> PoliteRun(Perform(w, calls[0]).w, calls[1..]))
  }

  lemma {:induction false} RunFromEnds(w: World, calls: seq<Call>)
    requires Inv(w) == true && EndsOk(w) == true && PoliteRun(w, calls)
    ensures Ended(Run(w, calls).w, Run(w, calls).close)
    decreases |calls|
  {
    hide Inv, EndsOk, LogEnds, Perform, Polite;
    if calls != [] {
      PerformGood(w, calls[0]);
      PerformEnds(w, calls[0]);
      if !Perform(w, calls[0]).close {
        RunFromEnds(Perform(w, calls[0]).w, calls[1..]);
      }
    }
  }

  lemma NewWorldEnds()
    ensures EndsOk(NewWorld()) == true
  {
  }

  /** END_STREAM is sent at most once per stream, after everything the application wrote to it, and nothing of the
      response follows it, whether the run ends open or closed. */
  lemma ResponsesEndOnce(calls: seq<Call>)
    requires PoliteRun(NewWorld(), calls)
    ensures EndsOnce(Run(NewWorld(), calls).w.log)
    ensures forall id: nat ::
              EndingOf(Run(NewWorld(), calls).w.log, id).sent ==>
                && TallyOf(Run(NewWorld(), calls).w.log, id).out == TallyOf(Run(NewWorld(), calls).w.log, id).bodies
                && (!Run(NewWorld(), calls).close ==> id !in Run(NewWorld(), calls).w.c.streams)
  {
    NewRunEnds(calls);
    hide Run, NewWorld, PoliteRun, TallyOf, EndingOf, EndsOnce;
    var w := Run(NewWorld(), calls).w;
    if !Run(NewWorld(), calls).close {
      LogEndsOf(w);
      forall id: nat | EndingOf(w.log, id).sent ensures id !in w.c.streams {
        assert EndOk(w.c, id, TallyOf(w.log, id), EndingOf(w.log, id));
      }
    }
  }

  lemma NewRunEnds(calls: seq<Call>)
    requires PoliteRun(NewWorld(), calls)
    ensures Ended(Run(NewWorld(), calls).w, Run(NewWorld(), calls).close)
  {
    NewWorldInv();
    NewWorldEnds();
    hide Inv, Run, NewWorld, PoliteRun, EndsOk, LogEnds;
    RunFromEnds(NewWorld(), calls);
  }

  /** The same, frame by frame: a DATA or HEADERS frame goes out only while its stream has not ended. */
  lemma {:induction false} NothingAfterEnd(log: Log, p: Log, f: Frame)
    requires EndsOnce(log) && IsPrefix(Then(p, Sent(f)), log) && Carries(f)
    ensures !EndingOf(p, f.id).sent
  {
    if log != Then(p, Sent(f)) {
      NothingAfterEnd(log.before, p, f);
    }
  }
}
