// What becomes of every stream: it is open, or END_STREAM was written on it, or it was reset (http2/conn.v).
module ConnFates {
  import opened Bytes
  import opened Frames
  import opened HpackTable
  import opened ConnModel
  import opened ConnShapes
  import opened ConnLog
  import opened ConnInv
  import opened ConnSend
  import opened ConnRecv
  import opened ConnBlocks
  import opened ConnSteps
  import opened ConnRuns
  import opened ConnHops
  import opened ConnEnding
  import HpackBlock
  import Segmentation
  import P = Probing
  import Rules = RequestRules

  /** RST_STREAM was written or received on a stream. */
  predicate WasReset(log: Log, id: nat) {
    match log
    case Nothing => false
    case Then(before, Sent(f)) => WasReset(before, id) || (f.id == id && f.typ == RST_STREAM)
    case Then(before, Received(f)) => WasReset(before, id) || (f.id == id && f.typ == RST_STREAM)
    case Then(before, _) => WasReset(before, id)
  }

  predicate Over(log: Log, id: nat) {
    EndingOf(log, id).sent || WasReset(log, id)
  }

  /** A stream that was opened and is gone is over, and so is one that is kept only to drain. */
  ghost predicate FateOk(w: World, id: nat) {
    && (TallyOf(w.log, id).everOpened && id !in w.c.streams ==> Over(w.log, id))
    && (id in w.c.streams && w.c.streams[id].rejected ==> Over(w.log, id))
  }

  ghost predicate FatesOk(w: World) {
    forall id: nat :: FateOk(w, id)
  }

  // ----- operations that open nothing

  /** From w to v streams only go, and those that go are over. */
  ghost predicate Onward(w: World, v: World) {
    && (forall x: nat :: Over(w.log, x) ==> Over(v.log, x))
    && (forall x: nat :: TallyOf(v.log, x).everOpened == TallyOf(w.log, x).everOpened)
    && (forall x: nat :: x in v.c.streams ==> x in w.c.streams && v.c.streams[x].rejected == w.c.streams[x].rejected)
    && (forall x: nat :: x in w.c.streams && x !in v.c.streams ==> Over(v.log, x))
  }

  lemma OnwardKeeps(w: World, v: World)
    requires FatesOk(w) == true && Onward(w, v) == true
    ensures FatesOk(v) == true
  {
    hide Over, TallyOf;
    forall x: nat ensures FateOk(v, x) {
      assert FateOk(w, x);
    }
  }

  lemma OnwardTwice(u: World, v: World, w: World)
    requires Onward(u, v) == true && Onward(v, w) == true
    ensures Onward(u, w) == true
  {
    hide Over, TallyOf;
  }

  lemma OnwardNote(w: World, e: Event)
    requires !e.Opened?
    ensures Onward(w, Note(w, e)) == true
  {
    hide Content, Increment;
  }

  lemma OnwardUpdate(w: World, id: nat, s: Stream)
    requires id in w.c.streams && s.rejected == w.c.streams[id].rejected
    ensures Onward(w, Update(w, id, s)) == true
  {
    hide Over, TallyOf;
  }

  lemma OnwardSame(w: World, v: World)
    requires v.log == w.log && v.c.streams == w.c.streams
    ensures Onward(w, v) == true
  {
    hide Over, TallyOf;
  }

  lemma OnwardRelease(w: World, id: nat)
    requires id in w.c.streams ==> Over(w.log, id)
    ensures Onward(w, Release(w, id)) == true
  {
    OnwardNote(w, Released(id));
    hide Over, TallyOf, P.Remove;
    if id in w.c.streams {
      assert Onward(w, Note(w, Released(id)));
    }
  }

  lemma RstOver(log: Log, id: u31, code: ErrorCode)
    ensures Over(Then(log, Sent(RstFrame(id, code))), id)
  {
  }

  lemma OnwardReset(w: World, id: nat, code: ErrorCode)
    requires id in w.c.streams ==> id < 0x8000_0000
    ensures Onward(w, Release(Send(w, RstFrame(id, code)), id)) == true
  {
    hide Over, Onward, Release;
    if id in w.c.streams {
      RstOver(w.log, id, code);
    }
    OnwardNote(w, Sent(RstFrame(id, code)));
    OnwardRelease(Send(w, RstFrame(id, code)), id);
    OnwardTwice(w, Send(w, RstFrame(id, code)), Release(Send(w, RstFrame(id, code)), id));
  }

  lemma OnwardComplete(w: World, id: u31)
    requires FatesOk(w) == true
    ensures Onward(w, Complete(w, id)) == true
  {
    hide Over, Onward, Release;
    OnwardSame(w, w);
    if id in w.c.streams {
      assert FateOk(w, id);
      var s := w.c.streams[id];
      if s.rejected {
        OnwardRelease(w, id);
      } else {
        OnwardReset(w, id, ProtocolError);
        var w1 := Update(w, id, s.(remoteDone := true));
        OnwardUpdate(w, id, s.(remoteDone := true));
        OnwardNote(w1, Surfaced(Request(id, s.headers, s.body)));
        OnwardTwice(w, w1, Note(w1, Surfaced(Request(id, s.headers, s.body))));
      }
    }
  }

  lemma {:induction false} OnwardSendAll(w: World, fs: seq<Frame>)
    ensures Onward(w, SendAll(w, fs)) == true
    decreases |fs|
  {
    hide Over, Onward, TallyOf;
    if fs == [] {
      OnwardSame(w, w);
    } else {
      OnwardNote(w, Sent(fs[0]));
      OnwardSendAll(Send(w, fs[0]), fs[1..]);
      OnwardTwice(w, Send(w, fs[0]), SendAll(w, fs));
    }
  }

  lemma OnwardBlock(w: World, id: nat, block: seq<byte>, end: bool)
    requires id in w.c.streams ==> id < 0x8000_0000
    ensures Onward(w, WriteBlock(w, id, block, end)) == true
  {
    var fs := BlockFrames(id, block, end, w.c.peerMaxFrame);
    var v := SendAll(w, fs);
    if id in w.c.streams {
      BlockEnding(w, id, block, end);
    }
    SendAllShape(w, fs);
    hide EndingOf, TallyOf, EndsOnce, BlockFrames, Onward, Release;
    OnwardSendAll(w, fs);
    if end {
      OnwardRelease(v, id);
      OnwardTwice(w, v, Release(v, id));
    }
  }

  lemma OnwardChunk(w: World, id: nat, chunk: seq<byte>, last: bool)
    requires id in w.c.streams
    ensures Onward(w, SendData(w, id, chunk, last)) == true
  {
    OnwardNote(w, Sent(DataFrame(id, chunk, last)));
    hide Over, TallyOf;
    assert Onward(w, Send(w, DataFrame(id, chunk, last)));
  }

  lemma OnwardKeep(w: World, c: Conn)
    requires KeepsRequests(w.c, c)
    ensures Onward(w, World(c, w.log)) == true
  {
    hide Over, TallyOf;
  }

  lemma DataOver(log: Log, id: u31, payload: seq<byte>)
    ensures Over(Then(log, Sent(DataFrame(id, payload, true))), id)
  {
  }

  lemma OnwardFinal(w: World, id: nat, chunk: seq<byte>)
    requires id in w.c.streams && id < 0x8000_0000
    ensures Onward(w, Release(SendData(w, id, chunk, true), id)) == true
  {
    hide Over, Onward, TallyOf, Release;
    var v := SendData(w, id, chunk, true);
    OnwardChunk(w, id, chunk, true);
    DataOver(w.log, id, chunk);
    OnwardRelease(v, id);
    OnwardTwice(w, v, Release(v, id));
  }

  lemma OnwardStep(w: World, step: Step)
    requires Legal(w, step)
    ensures Onward(w, Do(w, step)) == true
  {
    hide Over, Onward, TallyOf, Release, WriteBlock, SendData, KeepsRequests;
    match step
    case Wrote(e) => OnwardNote(w, e);
    case Cut(id, code) => OnwardReset(w, id, code);
    case Tail(id, block) => OnwardBlock(w, id, block, true);
    case Chunk(id, chunk) => OnwardChunk(w, id, chunk, false);
    case Final(id, chunk) => OnwardFinal(w, id, chunk);
    case Keep(c) => OnwardKeep(w, c);
  }

  lemma {:induction false} OnwardSteps(w: World, steps: seq<Step>, v: World)
    requires FatesOk(w) == true && Leads(w, steps, v) == true
    ensures FatesOk(v) == true
    decreases |steps|
  {
    hide FatesOk, Onward, Legal, Do;
    if steps != [] {
      OnwardStep(w, steps[0]);
      OnwardKeeps(w, Do(w, steps[0]));
      OnwardSteps(Do(w, steps[0]), steps[1..], v);
    }
  }

  // ----- frames

  lemma DataFates(w: World, f: Frame)
    requires FatesOk(w) == true && f.typ == DATA && OnData(Note(w, Received(f)), f).code == NoError
    ensures FatesOk(OnData(Note(w, Received(f)), f).w) == true
  {
    hide FatesOk, Onward, OnData, Complete;
    OnDataForm(w, f);
    var v := Accepted(w, f);
    var s := v.c.streams[f.id];
    AcceptedFates(w, f);
    hide Accepted;
    if Bit0(f.flags) {
      var u := Update(v, f.id, s.(recvWindow := s.recvWindow - |f.payload|));
      OnwardUpdate(v, f.id, s.(recvWindow := s.recvWindow - |f.payload|));
      OnwardKeeps(v, u);
      OnwardComplete(u, f.id);
      OnwardKeeps(u, Complete(u, f.id));
    } else if f.payload != [] {
      OnwardNote(v, Sent(WindowUpdateFrame(f.id, |f.payload|)));
      OnwardKeeps(v, Send(v, WindowUpdateFrame(f.id, |f.payload|)));
    }
  }

  lemma AcceptedFates(w: World, f: Frame)
    requires FatesOk(w) == true && f.id in w.c.streams
    ensures FatesOk(Accepted(w, f)) == true
  {
    hide FatesOk, Onward, Over, TallyOf, Content;
    var s := w.c.streams[f.id];
    var w0 := Note(w, Received(f));
    OnwardNote(w, Received(f));
    OnwardKeeps(w, w0);
    var v := Update(w0, f.id, Accepted(w, f).c.streams[f.id]);
    OnwardUpdate(w0, f.id, Accepted(w, f).c.streams[f.id]);
    OnwardKeeps(w0, v);
    OnwardNote(v, Sent(WindowUpdateFrame(0, |f.payload|)));
    OnwardKeeps(v, Send(v, WindowUpdateFrame(0, |f.payload|)));
  }

  /** A new stream is open; one that is rejected was reset at once. */
  lemma OpenFates(w: World, id: u31, s: Stream)
    requires FatesOk(w) == true
    ensures var v := Open(w, id, s);
            FatesOk(if s.rejected then Send(v, RstFrame(id, ProtocolError)) else v) == true
  {
    var v := Open(w, id, s);
    var u := if s.rejected then Send(v, RstFrame(id, ProtocolError)) else v;
    OpenedRecord(w.log, id);
    OnwardNote(v, Sent(RstFrame(id, ProtocolError)));
    RstOver(v.log, id, ProtocolError);
    hide Over, TallyOf, P.Put;
    forall x: nat ensures FateOk(u, x) {
      assert FateOk(w, x);
    }
  }

  lemma OpenedRecord(log: Log, id: nat)
    ensures forall x: nat :: Over(Then(log, Opened(id)), x) == Over(log, x)
    ensures forall x: nat :: TallyOf(Then(log, Opened(id)), x).everOpened == (TallyOf(log, x).everOpened || x == id)
  {
  }

  lemma FinishFates(w: World)
    requires FatesOk(w) == true && FinishBlock(w).code == NoError
    ensures FatesOk(FinishBlock(w).w) == true
  {
    hide FatesOk, Onward, HpackBlock.DecodeBlock, Complete, Release, Open, Rules.ValidRequest, Rules.ValidTrailers,
         Rules.DeclaredLength;
    var h := w.c.hdr;
    var d := HpackBlock.DecodeBlock(w.c.dec, h.block);
    var w1 := w.(c := w.c.(hdr := h.(expecting := false), dec := d.table));
    OnwardSame(w, w1);
    OnwardKeeps(w, w1);
    if h.trailers {
      OnwardReset(w1, h.id, ProtocolError);
      OnwardComplete(w1, h.id);
      OnwardKeeps(w1, FinishBlock(w).w);
    } else if h.refused {
      OnwardNote(w1, Sent(RstFrame(h.id, RefusedStream)));
      OnwardKeeps(w1, FinishBlock(w).w);
    } else {
      var ok := Rules.ValidRequest(d.fields);
      var malformed := h.malformed || !ok;
      var s := FreshStream(w.c.initSendWindow).(
               headers := d.fields,
               rejected := malformed,
               declaredLen := if ok then Rules.DeclaredLength(d.fields) else -1);
      OpenFates(w1, h.id, s);
      var w2 := Open(w1, h.id, s);
      var w3 := if malformed then Send(w2, RstFrame(h.id, ProtocolError)) else w2;
      OnwardComplete(w3, h.id);
      OnwardKeeps(w3, Complete(w3, h.id));
    }
  }

  lemma BlockFates(w: World, f: Frame)
    requires FatesOk(w) == true
    ensures OnHeaders(w, f).code == NoError ==> FatesOk(OnHeaders(w, f).w) == true
    ensures OnContinuation(w, f).code == NoError ==> FatesOk(OnContinuation(w, f).w) == true
  {
    hide FatesOk, Onward, FinishBlock, StartBlock;
    match StartBlock(w.c, f) {
      case Bad(_) =>
      case Begin(h, last) =>
        var w1 := w.(c := w.c.(hdr := h, lastStream := last));
        OnwardSame(w, w1);
        OnwardKeeps(w, w1);
        if FinishBlock(w1).code == NoError {
          FinishFates(w1);
        }
    }
    var h := w.c.hdr;
    var w2 := w.(c := w.c.(hdr := h.(block := h.block + f.payload)));
    OnwardSame(w, w2);
    OnwardKeeps(w, w2);
    if FinishBlock(w2).code == NoError {
      FinishFates(w2);
    }
  }

  lemma SettingsFates(w: World, f: Frame)
    requires Inv(w) == true && FatesOk(w) == true && f.typ == SETTINGS
    requires OnSettings(Note(w, Received(f)), f).code == NoError
    ensures FatesOk(OnSettings(Note(w, Received(f)), f).w) == true
  {
    var w0 := Note(w, Received(f));
    OnwardNote(w, Received(f));
    OnwardKeeps(w, w0);
    if !Bit0(f.flags) {
      hide Inv, FatesOk, Onward, Leads, KeepsRequests, OnSettings, SettingsOf, ApplySettings;
      var steps := SettingsSteps(w, f);
      var v := Configured(w, f);
      OnwardKeep(w0, v.c);
      OnwardKeeps(w0, v);
      OnwardNote(v, Sent(SettingsAckFrame()));
      OnwardKeeps(v, Send(v, SettingsAckFrame()));
      OnwardSteps(Send(v, SettingsAckFrame()), steps, OnSettings(w0, f).w);
    }
  }

  lemma ControlFates(w: World, f: Frame)
    requires FatesOk(w) == true
    ensures FatesOk(OnPing(w, f).w) == true && FatesOk(OnGoaway(w, f).w) == true
  {
    hide FatesOk, Onward;
    OnwardNote(w, Sent(PingAckFrame(f.payload)));
    OnwardKeeps(w, Send(w, PingAckFrame(f.payload)));
  }

  lemma ResetFates(w: World, f: Frame)
    requires FatesOk(w) == true && f.typ == RST_STREAM
    ensures FatesOk(OnReset(Note(w, Received(f)), f).w) == true
  {
    hide FatesOk, Onward, Release;
    var w0 := Note(w, Received(f));
    OnwardNote(w, Received(f));
    OnwardKeeps(w, w0);
    assert WasReset(w0.log, f.id);
    OnwardRelease(w0, f.id);
    OnwardKeeps(w0, Release(w0, f.id));
  }

  lemma FrameFates(w: World, f: Frame)
    requires Inv(w) == true && FatesOk(w) == true && f.typ <= CONTINUATION
    requires OnFrame(Note(w, Received(f)), f).code == NoError
    ensures FatesOk(OnFrame(Note(w, Received(f)), f).w) == true
  {
    hide Inv, FatesOk, Onward, Leads, OnData, OnHeaders, OnPriority, OnReset, OnSettings, OnPing, OnGoaway,
         OnWindowUpdate, OnContinuation;
    var w0 := Note(w, Received(f));
    if f.typ == DATA {
      DataFates(w, f);
    } else if f.typ == SETTINGS {
      SettingsFates(w, f);
    } else if f.typ == RST_STREAM {
      ResetFates(w, f);
    } else {
      OnwardNote(w, Received(f));
      OnwardKeeps(w, w0);
      if f.typ == WINDOW_UPDATE {
        var steps := CreditSteps(w, f);
        OnwardSteps(w0, steps, OnFrame(w0, f).w);
      } else if f.typ == PRIORITY {
        var steps := PrioritySteps(w0, f);
        OnwardSteps(w0, steps, OnFrame(w0, f).w);
      } else {
        BlockFates(w0, f);
        ControlFates(w0, f);
      }
    }
  }

  // ----- runs

  lemma CallFates(w: World, call: Call)
    requires Inv(w) == true && FatesOk(w) == true && !call.Feed?
    ensures FatesOk(Perform(w, call).w) == true
  {
    hide Inv, FatesOk, Onward, Leads, Consume, WriteBlock, WriteBody, WriteTrailers, Release, SettingsFrame;
    match call
    case Preface =>
      OnwardNote(w, Sent(SettingsFrame(ServerSettings())));
      OnwardKeeps(w, Perform(w, call).w);
    case Headers(id, block, end) =>
      var w0 := Note(w, WroteHeaders(id, end));
      Ids31(w);
      OnwardNote(w, WroteHeaders(id, end));
      OnwardKeeps(w, w0);
      OnwardBlock(w0, id, block, end);
      OnwardKeeps(w0, WriteBlock(w0, id, block, end));
    case _ =>
      Ids31(w);
      var steps := CallSteps(w, call);
      OnwardSteps(w, steps, Perform(w, call).w);
  }

  lemma HopFates(w: World, hop: Hop)
    requires Inv(w) == true && FatesOk(w) == true && Fits(w, hop)
    ensures FatesOk(Take(w, hop)) == true
  {
    hide Inv, FatesOk, Onward, OnFrame, Perform;
    match hop
    case Accept(f) => FrameFates(w, f);
    case Skip(f) =>
      OnwardNote(w, Received(f));
      OnwardKeeps(w, Note(w, Received(f)));
    case Greet =>
      OnwardSame(w, Take(w, hop));
      OnwardKeeps(w, Take(w, hop));
    case Make(call) => CallFates(w, call);
  }

  lemma {:induction false} PathFates(w: World, hops: seq<Hop>, v: World)
    requires Inv(w) == true && FatesOk(w) == true && Path(w, hops, v)
    ensures FatesOk(v) == true
    decreases |hops|
  {
    hide Inv, FatesOk, Fits, Take;
    if hops != [] {
      HopInv(w, hops[0]);
      HopFates(w, hops[0]);
      PathFates(Take(w, hops[0]), hops[1..], v);
    }
  }

  lemma NewWorldFates()
    ensures FatesOk(NewWorld()) == true
  {
  }

  // ----- the theorems

  /** In every run that is still open, a stream that was opened is open, or END_STREAM was written on it, or it was
      reset by either side: none disappears silently. */
  lemma NoneLost(calls: seq<Call>, id: nat)
    requires !Run(NewWorld(), calls).close && TallyOf(Run(NewWorld(), calls).w.log, id).everOpened
    ensures var w := Run(NewWorld(), calls).w;
            id in w.c.streams || EndingOf(w.log, id).sent || WasReset(w.log, id)
  {
    NewWorldInv();
    NewWorldFates();
    hide Inv, FatesOk, Run, NewWorld, Path;
    var hops, v := RunHops(NewWorld(), calls);
    PathFates(NewWorld(), hops, v);
    FateOf(Run(NewWorld(), calls).w, id);
  }

  lemma FateOf(w: World, id: nat)
    requires FatesOk(w) == true
    ensures FateOk(w, id)
  {
    hide Over, TallyOf;
  }

  /** A response whose end was asked for ends: END_STREAM was written, after every octet, or octets ahead of it are
      parked behind a closed window, or the stream was reset. */
  lemma ResponsesEnd(calls: seq<Call>, id: nat)
    requires PoliteRun(NewWorld(), calls) && !Run(NewWorld(), calls).close
    requires EndingOf(Run(NewWorld(), calls).w.log, id).asked
    ensures var w := Run(NewWorld(), calls).w;
            var t := TallyOf(w.log, id);
            || (EndingOf(w.log, id).sent && t.out == t.bodies)
            || (id in w.c.streams && w.c.streams[id].parked != []
                && Min(w.c.connSendWindow, w.c.streams[id].sendWindow) <= 0)
            || WasReset(w.log, id)
  {
    hide Run, NewWorld, PoliteRun, TallyOf, EndingOf, EndsOnce, EndsOk;
    ResponsesEndOnce(calls);
    NewRunEnds(calls);
    var w := Run(NewWorld(), calls).w;
    EndOf(w, id);
    NoneLost(calls, id);
    if id in w.c.streams {
      NothingStranded(calls, id);
    }
  }
}
