// What the response side of a connection does, step by step: bodies, trailers, aborts, and everything a SETTINGS,
// WINDOW_UPDATE or PRIORITY frame sets off, are lists of a few kinds of step (http2/conn.v). A property that every kind
// of step keeps is kept by all of them.
module ConnSteps {
  import opened Bytes
  import opened Frames
  import opened ConnModel
  import opened ConnShapes
  import opened ConnLog
  import opened ConnInv
  import opened ConnSend
  import opened ConnBlocks
  import HpackBlock
  import P = Probing
  import Rules = RequestRules

  /** The application's call is noted; a stream is reset; trailers or DATA go out on an open stream, the last frame
      ending it; windows and held-back endings are kept up. */
  datatype Step =
    | Wrote(e: Event)
    | Cut(id: nat, code: ErrorCode)
    | Tail(id: nat, block: seq<byte>)
    | Chunk(id: nat, chunk: seq<byte>)
    | Final(id: nat, chunk: seq<byte>)
    | Keep(c: Conn)

  predicate SameRequest(s: Stream, t: Stream) {
    && t.headers == s.headers && t.body == s.body && t.declaredLen == s.declaredLen
    && t.remoteDone == s.remoteDone && t.rejected == s.rejected
  }

  /** Only the windows, the peer's settings and the response side of open streams differ. */
  ghost predicate KeepsRequests(c: Conn, d: Conn) {
    && d.streams.Keys == c.streams.Keys
    && d.dec == c.dec && d.hdr == c.hdr && d.lastStream == c.lastStream && d.prefaceSeen == c.prefaceSeen
    && (forall x: nat :: x in c.streams ==> SameRequest(c.streams[x], d.streams[x]))
  }

  ghost predicate Legal(w: World, step: Step) {
    match step
    case Wrote(WroteBody(id, _, _)) => id in w.c.streams
    case Wrote(WroteTrailers(id)) => id in w.c.streams
    case Wrote(_) => false
    case Cut(id, _) => id in w.c.streams ==> id < 0x8000_0000
    case Tail(id, _) => id in w.c.streams && id < 0x8000_0000
    case Chunk(id, _) => id in w.c.streams && id < 0x8000_0000
    case Final(id, _) => id in w.c.streams && id < 0x8000_0000
    case Keep(c) => KeepsRequests(w.c, c)
  }

  ghost function Do(w: World, step: Step): World
    requires Legal(w, step)
  {
    match step
    case Wrote(e) => Note(w, e)
    case Cut(id, code) => Release(Send(w, RstFrame(id, code)), id)
    case Tail(id, block) => WriteBlock(w, id, block, true)
    case Chunk(id, chunk) => SendData(w, id, chunk, false)
    case Final(id, chunk) => Release(SendData(w, id, chunk, true), id)
    case Keep(c) => World(c, w.log)
  }

  ghost predicate AllLegal(w: World, steps: seq<Step>)
    decreases |steps|
  {
    steps == [] || (Legal(w, steps[0]) && AllLegal(Do(w, steps[0]), steps[1..]))
  }

  ghost function DoAll(w: World, steps: seq<Step>): World
    requires AllLegal(w, steps) == true
    decreases |steps|
  {
    if steps == [] then w else DoAll(Do(w, steps[0]), steps[1..])
  }

  /** The steps lead from w to v. */
  ghost predicate Leads(w: World, steps: seq<Step>, v: World) {
    AllLegal(w, steps) == true && DoAll(w, steps) == v
  }

  /** Resets name the stream they reset: no id with the reserved bit set. */
  predicate Unmasked(steps: seq<Step>) {
    forall i :: 0 <= i < |steps| && steps[i].Cut? ==> steps[i].id < 0x8000_0000
  }

  lemma NoSteps(w: World)
    ensures Leads(w, [], w) == true
  {
  }

  lemma OneStep(w: World, step: Step)
    requires Legal(w, step)
    ensures Leads(w, [step], Do(w, step)) == true
  {
    hide Legal, Do;
    NoSteps(Do(w, step));
    assert [step][1..] == [];
  }

  lemma {:induction false} StepsTwice(u: World, a: seq<Step>, v: World, b: seq<Step>, w: World)
    requires Leads(u, a, v) == true && Leads(v, b, w) == true
    ensures Leads(u, a + b, w) == true
    decreases |a|
  {
    hide Legal, Do;
    if a == [] {
      assert a + b == b;
    } else {
      StepsTwice(Do(u, a[0]), a[1..], v, b, w);
      assert (a + b)[1..] == a[1..] + b;
    }
  }

  // ----- DATA

  lemma ReleaseUpdated(w: World, id: nat, s: Stream)
    requires id in w.c.streams
    ensures Release(Update(w, id, s), id) == Release(w, id)
  {
    hide P.Remove;
    assert w.c.streams[id := s] - {id} == w.c.streams - {id};
  }

  /** The frames of a body that go out now; the stream is released when the last of a final body has gone. */
  lemma {:induction false} EmitSteps(w: World, id: nat, data: seq<byte>, end: bool) returns (steps: seq<Step>)
    requires id in w.c.streams && id < 0x8000_0000
    ensures var e := EmitData(w, id, data, end);
            Leads(w, steps, if data != [] && e.rest == [] && end then Release(e.w, id) else e.w) == true
    ensures Unmasked(steps)
    decreases |data|
  {
    hide EmitData, Leads, Release;
    EmitUnfold(w, id, data, end);
    if data == [] || Allow(w.c, w.c.streams[id]) <= 0 {
      NoSteps(w);
      return [];
    }
    hide ChunkSize;
    var n := ChunkSize(w.c, w.c.streams[id], |data|);
    if n == |data| && end {
      OneStep(w, Final(id, data[..n]));
      EmitUnfold(SendData(w, id, data[..n], true), id, data[n..], end);
      return [Final(id, data[..n])];
    }
    var w1 := SendData(w, id, data[..n], false);
    OneStep(w, Chunk(id, data[..n]));
    var more := EmitSteps(w1, id, data[n..], end);
    EmitUnfold(w1, id, data[n..], end);
    steps := [Chunk(id, data[..n])] + more;
    var e := EmitData(w1, id, data[n..], end);
    StepsTwice(w, [Chunk(id, data[..n])], w1, more,
               if data[n..] != [] && e.rest == [] && end then Release(e.w, id) else e.w);
  }

  lemma EmptyFinal(w: World, id: nat)
    requires id in w.c.streams
    ensures SendData(w, id, [], true) == Send(w, DataFrame(id, [], true))
  {
    assert w.c.streams[id := w.c.streams[id]] == w.c.streams;
  }

  lemma UpdateKeeps(w: World, id: nat, s: Stream)
    requires id in w.c.streams && SameRequest(w.c.streams[id], s)
    ensures Leads(w, [Keep(Update(w, id, s).c)], Update(w, id, s)) == true
  {
    hide Leads;
    OneStep(w, Keep(Update(w, id, s).c));
  }

  lemma EmitRequest(w: World, id: nat, data: seq<byte>, end: bool)
    requires id in w.c.streams
    ensures var e := EmitData(w, id, data, end);
            && e.w.c.streams.Keys == w.c.streams.Keys
            && SameRequest(w.c.streams[id], e.w.c.streams[id])
  {
    hide EmitData;
    EmitShape(w, id, data, end);
  }

  // ----- calls

  lemma BodySteps(w: World, id: nat, body: seq<byte>, end: bool) returns (steps: seq<Step>)
    requires id in w.c.streams ==> id < 0x8000_0000
    ensures Leads(w, steps, WriteBody(w, id, body, end)) == true && Unmasked(steps)
  {
    hide Leads, EmitData, Release;
    if id !in w.c.streams {
      NoSteps(w);
      return [];
    }
    var e0 := WroteBody(id, body, end);
    var w0 := Note(w, e0);
    OneStep(w, Wrote(e0));
    if body == [] && end {
      EmptyFinal(w0, id);
      OneStep(w0, Final(id, []));
      steps := [Wrote(e0)] + [Final(id, [])];
      StepsTwice(w, [Wrote(e0)], w0, [Final(id, [])], WriteBody(w, id, body, end));
    } else if body == [] {
      steps := [Wrote(e0)];
    } else {
      var e := EmitData(w0, id, body, end);
      EmitRequest(w0, id, body, end);
      var sent := EmitSteps(w0, id, body, end);
      var v := if e.rest == [] && end then Release(e.w, id) else e.w;
      StepsTwice(w, [Wrote(e0)], w0, sent, v);
      steps := [Wrote(e0)] + sent;
      if e.rest != [] {
        var s := e.w.c.streams[id];
        UpdateKeeps(e.w, id, s.(parked := s.parked + e.rest, parkedEnd := end));
        var kept := [Keep(Update(e.w, id, s.(parked := s.parked + e.rest, parkedEnd := end)).c)];
        StepsTwice(w, steps, e.w, kept, WriteBody(w, id, body, end));
        steps := steps + kept;
      }
    }
  }

  lemma TrailersSteps(w: World, id: nat, block: seq<byte>) returns (steps: seq<Step>)
    requires id in w.c.streams ==> id < 0x8000_0000
    ensures Leads(w, steps, WriteTrailers(w, id, block)) == true && Unmasked(steps)
  {
    hide Leads, WriteBlock;
    if id !in w.c.streams {
      NoSteps(w);
      return [];
    }
    var e := WroteTrailers(id);
    var w0, s := Note(w, e), w.c.streams[id];
    OneStep(w, Wrote(e));
    if s.parked != [] {
      var t := s.(trailers := block, trailersPending := true);
      UpdateKeeps(w0, id, t);
      steps := [Wrote(e)] + [Keep(Update(w0, id, t).c)];
      StepsTwice(w, [Wrote(e)], w0, [Keep(Update(w0, id, t).c)], Update(w0, id, t));
    } else {
      OneStep(w0, Tail(id, block));
      steps := [Wrote(e)] + [Tail(id, block)];
      StepsTwice(w, [Wrote(e)], w0, [Tail(id, block)], WriteBlock(w0, id, block, true));
    }
  }

  /** The calls on open streams, and aborts. */
  lemma CallSteps(w: World, call: Call) returns (steps: seq<Step>)
    requires forall id: nat :: id in w.c.streams ==> id < 0x8000_0000
    requires call.Body? || call.Trailers? || call.Abort?
    ensures Leads(w, steps, Perform(w, call).w) == true
    ensures (call.Abort? ==> call.id < 0x8000_0000) ==> Unmasked(steps)
  {
    hide Leads, WriteBlock, WriteBody, WriteTrailers, Release, Consume;
    match call
    case Body(id, body, end) => steps := BodySteps(w, id, body, end);
    case Trailers(id, block) => steps := TrailersSteps(w, id, block);
    case Abort(id, code) =>
      OneStep(w, Cut(id, code));
      steps := [Cut(id, code)];
  }

  // ----- flushing

  lemma OpenFacts(w: World, id: nat)
    requires Core(w) == true && id in w.c.streams
    ensures id < 0x8000_0000
    ensures var s := w.c.streams[id]; s.parked == [] ==> !s.parkedEnd && !s.trailersPending
  {
    hide TallyOf, TotalsOf, Safe, RequestOk, P.Valid;
    assert IdOk(w.c, id, TallyOf(w.log, id));
  }

  lemma Ids31(w: World)
    requires Inv(w) == true
    ensures forall id: nat :: id in w.c.streams ==> id < 0x8000_0000
  {
    hide TallyOf, TotalsOf, Safe, IdsOk, AllParkedOk, P.Valid;
  }

  lemma NothingParked(w: World, id: nat)
    requires id in w.c.streams
    requires var s := w.c.streams[id]; s.parked == [] && !s.parkedEnd && !s.trailersPending
    ensures Flush(w, id) == w
  {
    hide WriteBlock, Release;
    var s := w.c.streams[id];
    assert w.c.streams[id := s.(parked := [])] == w.c.streams;
  }

  lemma FlushSteps(w: World, id: nat) returns (steps: seq<Step>)
    requires Core(w) == true
    ensures Leads(w, steps, Flush(w, id)) == true && Unmasked(steps)
  {
    hide Leads, Core, EmitData, Release, WriteBlock, AfterFlush;
    if id !in w.c.streams {
      NoSteps(w);
      return [];
    }
    OpenFacts(w, id);
    var s := w.c.streams[id];
    if s.parked == [] {
      NothingParked(w, id);
      NoSteps(w);
      return [];
    }
    var e := EmitData(w, id, s.parked, s.parkedEnd);
    EmitRequest(w, id, s.parked, s.parkedEnd);
    FlushHolds(w, id);
    var t := e.w.c.streams[id].(parked := e.rest);
    steps := EmitSteps(w, id, s.parked, s.parkedEnd);
    if !(e.rest == [] && s.parkedEnd) {
      var more := AfterSteps(e.w, id, e.rest);
      StepsTwice(w, steps, e.w, more, Flush(w, id));
      steps := steps + more;
    } else {
      ReleaseUpdated(e.w, id, t);
      EndsFlush(Update(e.w, id, t), id);
    }
  }

  lemma EndsFlush(w: World, id: nat)
    requires id in w.c.streams && w.c.streams[id].parked == [] && w.c.streams[id].parkedEnd
    ensures AfterFlush(w, id) == Release(w, id)
  {
  }

  lemma FlushHolds(w: World, id: nat)
    requires id in w.c.streams
    ensures var s := w.c.streams[id];
            var e := EmitData(w, id, s.parked, s.parkedEnd);
            && id in e.w.c.streams && e.w.c.streams[id].parkedEnd == s.parkedEnd
            && Flush(w, id) == AfterFlush(Update(e.w, id, e.w.c.streams[id].(parked := e.rest)), id)
  {
    hide EmitData, AfterFlush;
    EmitShape(w, id, w.c.streams[id].parked, w.c.streams[id].parkedEnd);
  }

  /** What follows the DATA of a flush that does not end the stream: the rest stays parked, or the trailers go out. */
  lemma AfterSteps(w: World, id: nat, rest: seq<byte>) returns (steps: seq<Step>)
    requires id in w.c.streams && id < 0x8000_0000 && (rest == [] ==> !w.c.streams[id].parkedEnd)
    ensures Leads(w, steps, AfterFlush(Update(w, id, w.c.streams[id].(parked := rest)), id)) == true && Unmasked(steps)
  {
    hide Leads, WriteBlock, Release;
    var s := w.c.streams[id];
    if rest == [] && s.trailersPending {
      var t := s.(parked := rest, trailersPending := false);
      var v := Update(w, id, t);
      assert Update(Update(w, id, s.(parked := rest)), id, t) == v;
      UpdateKeeps(w, id, t);
      OneStep(v, Tail(id, s.trailers));
      steps := [Keep(v.c)] + [Tail(id, s.trailers)];
      StepsTwice(w, [Keep(v.c)], v, [Tail(id, s.trailers)], WriteBlock(v, id, s.trailers, true));
    } else {
      UpdateKeeps(w, id, s.(parked := rest));
      steps := [Keep(Update(w, id, s.(parked := rest)).c)];
    }
  }

  lemma {:induction false} FlushAllSteps(w: World, ids: seq<nat>) returns (steps: seq<Step>)
    requires Core(w) == true
    ensures Leads(w, steps, FlushAll(w, ids)) == true && Unmasked(steps)
    decreases |ids|
  {
    hide Leads, Core, Flush;
    if ids == [] {
      NoSteps(w);
      return [];
    }
    var first := FlushSteps(w, ids[0]);
    FlushCore(w, ids[0]);
    var more := FlushAllSteps(Flush(w, ids[0]), ids[1..]);
    StepsTwice(w, first, Flush(w, ids[0]), more, FlushAll(w, ids));
    steps := first + more;
  }

  // ----- frames

  lemma CreditSize(w: World, f: Frame)
    requires OnWindowUpdate(Note(w, Received(f)), f).code == NoError
    ensures |f.payload| == 4
  {
  }

  lemma CreditSteps(w: World, f: Frame) returns (steps: seq<Step>)
    requires Inv(w) == true && f.typ == WINDOW_UPDATE && OnWindowUpdate(Note(w, Received(f)), f).code == NoError
    ensures Leads(Note(w, Received(f)), steps, OnWindowUpdate(Note(w, Received(f)), f).w) == true && Unmasked(steps)
  {
    hide Inv, Core, Leads, FlushAll, Flush, Release, OnWindowUpdate, Increment, P.Ids;
    CreditSize(w, f);
    OnWindowUpdateForm(w, f);
    var w0 := Note(w, Received(f));
    NoSteps(w0);
    if f.id == 0 {
      var w1 := World(w.c.(connSendWindow := w.c.connSendWindow + Increment(f)), w0.log);
      OneStep(w0, Keep(w1.c));
      ConnCreditCore(w, f);
      var more := FlushAllSteps(w1, P.Ids(w1.c.slots));
      StepsTwice(w0, [Keep(w1.c)], w1, more, FlushAll(w1, P.Ids(w1.c.slots)));
      steps := [Keep(w1.c)] + more;
    } else if Increment(f) == 0 {
      OneStep(w0, Cut(f.id, ProtocolError));
      steps := [Cut(f.id, ProtocolError)];
    } else if f.id !in w.c.streams {
      steps := [];
    } else {
      steps := CreditedSteps(w, f);
    }
  }

  lemma CreditedSteps(w: World, f: Frame) returns (steps: seq<Step>)
    requires Inv(w) == true && f.typ == WINDOW_UPDATE && f.id != 0 && f.id in w.c.streams
    ensures Leads(Note(w, Received(f)), steps,
                  if w.c.streams[f.id].sendWindow + Increment(f) > MAX_WINDOW then
                    Release(Send(Credited(w, f), RstFrame(f.id, FlowControlError)), f.id)
                  else Flush(Credited(w, f), f.id)) == true && Unmasked(steps)
  {
    hide Inv, Core, Leads, Flush, Release, Increment;
    var w0, v := Note(w, Received(f)), Credited(w, f);
    UpdateKeeps(w0, f.id, v.c.streams[f.id]);
    var more: seq<Step>;
    if w.c.streams[f.id].sendWindow + Increment(f) > MAX_WINDOW {
      OneStep(v, Cut(f.id, FlowControlError));
      more := [Cut(f.id, FlowControlError)];
    } else {
      CreditedCore(w, f);
      more := FlushSteps(v, f.id);
    }
    steps := [Keep(v.c)] + more;
    StepsTwice(w0, [Keep(v.c)], v, more,
               if w.c.streams[f.id].sendWindow + Increment(f) > MAX_WINDOW then
                 Release(Send(v, RstFrame(f.id, FlowControlError)), f.id)
               else Flush(v, f.id));
  }

  lemma PrioritySteps(w: World, f: Frame) returns (steps: seq<Step>)
    ensures Leads(w, steps, OnPriority(w, f).w) == true && Unmasked(steps)
  {
    hide Leads, Release, ReadU32;
    NoSteps(w);
    OneStep(w, Cut(f.id, ProtocolError));
    steps := if OnPriority(w, f).w == w then [] else [Cut(f.id, ProtocolError)];
  }

  lemma SettingsKeep(c: Conn, ss: seq<Setting>)
    requires c.initSendWindow >= 0 && ApplySettings(c, ss, false).code == NoError
    ensures KeepsRequests(c, ApplySettings(c, ss, false).c)
  {
    hide ApplySettings, SettledInit, SettledMax;
    ApplySettingsEffect(c, ss, false);
    ApplySettingsShape(c, ss, false);
  }

  /** The state a SETTINGS frame leaves before it is acknowledged. */
  ghost function Configured(w: World, f: Frame): World
    requires SettingsOf(f.payload).Some?
  {
    World(ApplySettings(w.c, SettingsOf(f.payload).value, false).c, Then(w.log, Received(f)))
  }

  /** Settings take effect, the acknowledgement goes out, and what they let through follows it. */
  lemma SettingsSteps(w: World, f: Frame) returns (steps: seq<Step>)
    requires Inv(w) == true && f.typ == SETTINGS && !Bit0(f.flags)
    requires OnSettings(Note(w, Received(f)), f).code == NoError
    ensures SettingsOf(f.payload).Some? && KeepsRequests(w.c, Configured(w, f).c)
    ensures Leads(Send(Configured(w, f), SettingsAckFrame()), steps, OnSettings(Note(w, Received(f)), f).w) == true
    ensures Unmasked(steps)
  {
    hide Inv, Core, Leads, KeepsRequests, TallyOf, TotalsOf, Safe, FlushAll, ApplySettings, SettingsOf, P.Ids;
    CoreOf(w);
    InitInRange(w);
    var ss := SettingsOf(f.payload).value;
    var v := World(ApplySettings(w.c, ss, false).c, Then(w.log, Received(f)));
    SettingsKeep(w.c, ss);
    SettingsCore(w, f, ss);
    AckedCore(v);
    var u := Send(v, SettingsAckFrame());
    NoSteps(u);
    steps := FlushAllSteps(u, P.Ids(u.c.slots));
    if !ApplySettings(w.c, ss, false).changed {
      steps := [];
    }
  }

  // ----- every frame

  /** A frame of the connection's own business, no part of a response. */
  predicate Control(f: Frame) {
    f.typ != DATA && f.typ != HEADERS && f.typ != CONTINUATION
  }

  /** From a to b nothing of a response was sent. */
  ghost predicate Controls(a: Log, b: Log)
    decreases b
  {
    b == a || (b.Then? && (b.last.Sent? ==> Control(b.last.f)) && Controls(a, b.before))
  }

  lemma {:induction false} ControlsTwice(a: Log, b: Log, c: Log)
    requires Controls(a, b) && Controls(b, c)
    ensures Controls(a, c)
    decreases c
  {
    if c != b {
      ControlsTwice(a, b, c.before);
    }
  }

  lemma ControlsRelease(w: World, id: nat)
    ensures Controls(w.log, Release(w, id).log)
  {
    hide P.Remove;
  }

  lemma ControlsReset(w: World, id: nat, code: ErrorCode)
    ensures Controls(w.log, Release(Send(w, RstFrame(id, code)), id).log)
  {
    hide Release;
    var v := Send(w, RstFrame(id, code));
    assert Controls(w.log, w.log) && Controls(w.log, v.log);
    ControlsRelease(v, id);
    ControlsTwice(w.log, v.log, Release(v, id).log);
  }

  lemma ControlsComplete(w: World, id: u31)
    ensures Controls(w.log, Complete(w, id).log)
  {
    hide Release;
    assert Controls(w.log, w.log);
    ControlsRelease(w, id);
    ControlsReset(w, id, ProtocolError);
  }

  lemma ControlsData(w: World, f: Frame)
    requires OnData(w, f).code == NoError
    ensures Controls(w.log, OnData(w, f).w.log)
  {
    hide Complete, Unpad;
    var s, u := w.c.streams[f.id], Unpad(f.flags, f.payload).value;
    var fin, flow := Bit0(f.flags), |f.payload|;
    var w1 := Update(w, f.id, s.(body := if s.rejected then s.body else s.body + f.payload[u.0..u.1],
                                 recvWindow := if fin then s.recvWindow - flow else s.recvWindow));
    assert Controls(w.log, w1.log);
    var w2 := if flow > 0 then Send(w1, WindowUpdateFrame(0, flow)) else w1;
    assert Controls(w.log, w2.log);
    ControlsComplete(w2, f.id);
    ControlsTwice(w.log, w2.log, Complete(w2, f.id).log);
  }

  lemma ControlsFinish(w: World)
    requires FinishBlock(w).code == NoError
    ensures Controls(w.log, FinishBlock(w).w.log)
  {
    hide HpackBlock.DecodeBlock, Complete, Release, Rules.ValidRequest, Rules.ValidTrailers, Rules.DeclaredLength,
         P.Put;
    var h := w.c.hdr;
    var d := HpackBlock.DecodeBlock(w.c.dec, h.block);
    var w1 := w.(c := w.c.(hdr := h.(expecting := false), dec := d.table));
    assert Controls(w.log, w.log);
    if h.trailers {
      ControlsReset(w1, h.id, ProtocolError);
      ControlsComplete(w1, h.id);
    } else if !h.refused {
      var ok := Rules.ValidRequest(d.fields);
      var malformed := h.malformed || !ok;
      var s := FreshStream(w.c.initSendWindow).(
               headers := d.fields,
               rejected := malformed,
               declaredLen := if ok then Rules.DeclaredLength(d.fields) else -1);
      var w2 := Open(w1, h.id, s);
      var w3 := if malformed then Send(w2, RstFrame(h.id, ProtocolError)) else w2;
      assert Controls(w.log, w2.log) && Controls(w.log, w3.log);
      ControlsComplete(w3, h.id);
      ControlsTwice(w.log, w3.log, Complete(w3, h.id).log);
    }
  }

  lemma ControlsBlocks(w: World, f: Frame)
    ensures OnHeaders(w, f).code == NoError ==> Controls(w.log, OnHeaders(w, f).w.log)
    ensures OnContinuation(w, f).code == NoError ==> Controls(w.log, OnContinuation(w, f).w.log)
  {
    hide FinishBlock, StartBlock;
    assert Controls(w.log, w.log);
    match StartBlock(w.c, f) {
      case Bad(_) =>
      case Begin(h, last) =>
        var w1 := w.(c := w.c.(hdr := h, lastStream := last));
        if FinishBlock(w1).code == NoError {
          ControlsFinish(w1);
        }
    }
    var w2 := w.(c := w.c.(hdr := w.c.hdr.(block := w.c.hdr.block + f.payload)));
    if FinishBlock(w2).code == NoError {
      ControlsFinish(w2);
    }
  }

  /** The frames whose effect on responses is a list of steps. */
  predicate Stepped(f: Frame) {
    f.typ == WINDOW_UPDATE || f.typ == PRIORITY || (f.typ == SETTINGS && !Bit0(f.flags))
  }

  lemma ControlsFrame(w: World, f: Frame)
    requires f.typ <= CONTINUATION && !Stepped(f) && OnFrame(Note(w, Received(f)), f).code == NoError
    ensures Controls(w.log, OnFrame(Note(w, Received(f)), f).w.log)
  {
    hide OnData, OnHeaders, OnContinuation, Release, SettingsOf, ApplySettings;
    var w0 := Note(w, Received(f));
    assert Controls(w.log, w.log) && Controls(w.log, w0.log) && Controls(w0.log, w0.log);
    ControlsBlocks(w0, f);
    ControlsRelease(w0, f.id);
    if f.typ == DATA {
      ControlsData(w0, f);
    }
    ControlsTwice(w.log, w0.log, OnFrame(w0, f).w.log);
  }

  /** Every frame accepted sends nothing of a response at first, and then what its steps send. */
  lemma FrameSteps(w: World, f: Frame) returns (u: World, steps: seq<Step>)
    requires Inv(w) == true && f.typ <= CONTINUATION && OnFrame(Note(w, Received(f)), f).code == NoError
    ensures Controls(w.log, u.log) && Leads(u, steps, OnFrame(Note(w, Received(f)), f).w) == true && Unmasked(steps)
    ensures if Stepped(f) then
              && KeepsRequests(w.c, u.c)
              && u.log == if f.typ == SETTINGS then Then(Then(w.log, Received(f)), Sent(SettingsAckFrame()))
                          else Then(w.log, Received(f))
            else u == OnFrame(Note(w, Received(f)), f).w
  {
    hide Inv, Leads, OnData, OnHeaders, OnPriority, OnReset, OnSettings, OnPing, OnGoaway, OnWindowUpdate,
         OnContinuation, ApplySettings;
    var w0 := Note(w, Received(f));
    assert Controls(w.log, w.log) && Controls(w.log, w0.log);
    if f.typ == WINDOW_UPDATE {
      u := w0;
      steps := CreditSteps(w, f);
    } else if f.typ == PRIORITY {
      u := w0;
      steps := PrioritySteps(w0, f);
    } else if f.typ == SETTINGS && !Bit0(f.flags) {
      steps := SettingsSteps(w, f);
      u := Send(Configured(w, f), SettingsAckFrame());
    } else {
      ControlsFrame(w, f);
      u, steps := OnFrame(w0, f).w, [];
      NoSteps(u);
    }
  }
}
