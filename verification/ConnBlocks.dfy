// Header blocks, SETTINGS and WINDOW_UPDATE keep the invariant; then so does every frame.
module ConnBlocks {
  import opened Bytes
  import opened Frames
  import opened HpackTable
  import opened ConnModel
  import opened ConnShapes
  import opened ConnLog
  import opened ConnInv
  import opened ConnSend
  import opened ConnRecv
  import HpackBlock
  import P = Probing
  import Rules = RequestRules

  // ----- opening a stream

  lemma OpenedTallies(log: Log, id: nat)
    ensures var l := Then(log, Event.Opened(id));
            && TallyOf(l, id) == TallyOf(log, id).(everOpened := true)
            && (forall x: nat :: x != id ==> TallyOf(l, x) == TallyOf(log, x))
            && TotalsOf(l) == TotalsOf(log).(open := TotalsOf(log).open + 1,
                                             peak := Max(TotalsOf(log).peak, TotalsOf(log).open + 1))
            && (Safe(log) ==> Safe(l))
  {
  }

  lemma OpenTable(c: Conn, id: nat, d: Conn, s: Stream)
    requires TableOk(c) && !c.hdr.expecting && id !in c.streams && |c.streams| < MAX_CONCURRENT_STREAMS
    requires id % 2 == 1 && id <= c.lastStream
    requires d == c.(slots := P.Put(c.slots, id), streams := c.streams[id := s], free := d.free)
    ensures TableOk(d) && HeaderOk(d) && |d.streams| == |c.streams| + 1
  {
    hide P.Valid, P.Put, P.Holds, P.HasRoom;
    TableRoom(c);
    P.PutCorrect(c.slots, id);
    assert d.streams.Keys == c.streams.Keys + {id};
    assert |d.streams| == |d.streams.Keys| && |c.streams| == |c.streams.Keys|;
  }

  lemma OpenTotals(c: Conn, t: Totals, d: Conn)
    requires TotalsOk(c, t) && |c.streams| < MAX_CONCURRENT_STREAMS
    requires |d.streams| == |c.streams| + 1 && d.free == if c.free > 0 then c.free - 1 else 0
    requires d == c.(slots := d.slots, streams := d.streams, free := d.free)
    ensures TotalsOk(d, t.(open := t.open + 1, peak := Max(t.peak, t.open + 1)))
  {
  }

  lemma OpenIds(w: World, v: World, id: nat, s: Stream)
    requires IdsOk(w) && v.c.streams == w.c.streams[id := s] && id !in w.c.streams && !Unused(w.c, id)
    requires v.c.initSendWindow == w.c.initSendWindow && v.c.lastStream == w.c.lastStream && v.c.hdr == w.c.hdr
    requires forall x: nat :: x != id ==> TallyOf(v.log, x) == TallyOf(w.log, x)
    requires StreamOk(w.c.initSendWindow, s, TallyOf(v.log, id)) && ResponseOk(s, TallyOf(v.log, id))
    ensures IdsOk(v)
  {
    hide TallyOf, StreamOk, ResponseOk;
    forall x: nat ensures IdOk(v.c, x, TallyOf(v.log, x)) {
      assert IdOk(w.c, x, TallyOf(w.log, x));
    }
  }

  /** A request's headers open its stream. */
  lemma OpenInv(w: World, id: nat, fields: seq<Field>, malformed: bool)
    requires Inv(w) == true && !w.c.hdr.expecting && id !in w.c.streams && |w.c.streams| < MAX_CONCURRENT_STREAMS
    requires id % 2 == 1 && id == w.c.lastStream && TallyOf(w.log, id) == NO_TALLY
    requires !malformed ==> Rules.ValidRequest(fields)
    ensures Inv(Open(w, id, FreshStream(w.c.initSendWindow).(
                            headers := fields,
                            rejected := malformed,
                            declaredLen := if Rules.ValidRequest(fields) then Rules.DeclaredLength(fields) else -1)))
  {
    var s := FreshStream(w.c.initSendWindow).(
             headers := fields,
             rejected := malformed,
             declaredLen := if Rules.ValidRequest(fields) then Rules.DeclaredLength(fields) else -1);
    hide TallyOf, TotalsOf, Safe, TableOk, HeaderOk, IdsOk, TotalsOk, P.Put, Rules.ValidRequest, Rules.DeclaredLength;
    var v := Open(w, id, s);
    OpenedTallies(w.log, id);
    OpenTable(w.c, id, v.c, s);
    OpenTotals(w.c, TotalsOf(w.log), v.c);
    assert TallyOf(v.log, id).out + s.parked == [];
    OpenIds(w, v, id, s);
    forall x: nat ensures ParkedOk(v.c, x) {
      assert ParkedOk(w.c, x);
    }
  }

  // ----- the end of a header block

  /** The block is taken off the assembly and decoded; nothing else changes. */
  lemma TakenInv(w: World, dec: Table)
    requires Inv(w) == true && w.c.hdr.expecting
    ensures var v := w.(c := w.c.(hdr := w.c.hdr.(expecting := false), dec := dec));
            && Inv(v)
            && (!w.c.hdr.trailers ==> TallyOf(v.log, w.c.hdr.id) == NO_TALLY && w.c.hdr.id == v.c.lastStream
                                      && w.c.hdr.id !in v.c.streams && w.c.hdr.id % 2 == 1
                                      && (!w.c.hdr.refused ==> |v.c.streams| < MAX_CONCURRENT_STREAMS))
            && (w.c.hdr.trailers && w.c.hdr.id in v.c.streams ==> !v.c.streams[w.c.hdr.id].remoteDone)
  {
    hide TallyOf, TotalsOf, Safe, StreamOk, ResponseOk, P.Valid, P.Holds;
    var v := w.(c := w.c.(hdr := w.c.hdr.(expecting := false), dec := dec));
    assert IdOk(w.c, w.c.hdr.id, TallyOf(w.log, w.c.hdr.id));
    forall x: nat ensures IdOk(v.c, x, TallyOf(v.log, x)) {
      assert IdOk(w.c, x, TallyOf(w.log, x));
    }
    forall x: nat ensures ParkedOk(v.c, x) {
      assert ParkedOk(w.c, x);
    }
  }

  lemma RequestBlockInv(w: World, h: Assembly, fields: seq<Field>)
    requires Inv(w) == true && !w.c.hdr.expecting && TallyOf(w.log, h.id) == NO_TALLY && h.id == w.c.lastStream
    requires h.id !in w.c.streams && h.id % 2 == 1 && |w.c.streams| < MAX_CONCURRENT_STREAMS
    ensures var ok := Rules.ValidRequest(fields);
            var malformed := h.malformed || !ok;
            var w2 := Open(w, h.id, FreshStream(w.c.initSendWindow).(
                                    headers := fields,
                                    rejected := malformed,
                                    declaredLen := if ok then Rules.DeclaredLength(fields) else -1));
            var w3 := if malformed then Send(w2, RstFrame(h.id, ProtocolError)) else w2;
            Inv(if h.endStream then Complete(w3, h.id) else w3)
  {
    var ok := Rules.ValidRequest(fields);
    var malformed := h.malformed || !ok;
    var s := FreshStream(w.c.initSendWindow).(
             headers := fields, rejected := malformed, declaredLen := if ok then Rules.DeclaredLength(fields) else -1);
    var w2 := Open(w, h.id, s);
    var w3 := if malformed then Send(w2, RstFrame(h.id, ProtocolError)) else w2;
    hide Inv, TallyOf, Complete, P.Put, Rules.ValidRequest, Rules.DeclaredLength;
    OpenInv(w, h.id, fields, malformed);
    if malformed {
      SendPlainInv(w2, RstFrame(h.id, ProtocolError));
    }
    assert w3.c.streams[h.id] == s && !w3.c.hdr.expecting;
    CompleteSimply(w3, h.id);
  }

  lemma FinishBlockInv(w: World)
    requires Inv(w) == true && w.c.hdr.expecting
    ensures Handled(FinishBlock(w))
    ensures FinishBlock(w).code != NoError ==> FinishBlock(w).w.log == w.log
  {
    hide Inv, Safe, HpackBlock.DecodeBlock, TallyOf, Release, Complete, Open, Rules.ValidRequest, Rules.ValidTrailers,
         Rules.DeclaredLength;
    SafeOf(w);
    var h := w.c.hdr;
    var d := HpackBlock.DecodeBlock(w.c.dec, h.block);
    var w1 := w.(c := w.c.(hdr := h.(expecting := false), dec := d.table));
    TakenInv(w, d.table);
    if d.ok {
      if h.trailers {
        ResetInv(w1, h.id, ProtocolError);
        CompleteSimply(w1, h.id);
      } else if h.refused {
        SendPlainInv(w1, RstFrame(h.id, RefusedStream));
      } else {
        RequestBlockInv(w1, h, d.fields);
      }
    }
  }

  // ----- HEADERS and CONTINUATION

  /** A HEADERS frame starts an assembly: trailers of an open stream, or the announcement of a new one. */
  lemma AnnouncedInv(w: World, h: Assembly, last: u31)
    requires Inv(w) == true && !w.c.hdr.expecting && h.expecting && h.id % 2 == 1
    requires if h.trailers then last == w.c.lastStream && h.id in w.c.streams && !w.c.streams[h.id].remoteDone
             else last == h.id && h.id > w.c.lastStream && (!h.refused ==> |w.c.streams| < MAX_CONCURRENT_STREAMS)
    ensures Inv(w.(c := w.c.(hdr := h, lastStream := last))) == true
  {
    hide TallyOf, TotalsOf, Safe, StreamOk, ResponseOk, P.Valid, P.Holds;
    var v := w.(c := w.c.(hdr := h, lastStream := last));
    forall x: nat ensures IdOk(v.c, x, TallyOf(v.log, x)) {
      assert IdOk(w.c, x, TallyOf(w.log, x));
    }
    forall x: nat ensures ParkedOk(v.c, x) {
      assert ParkedOk(w.c, x);
    }
  }

  lemma SafeOf(w: World)
    requires Inv(w) == true
    ensures Safe(w.log)
  {
  }

  lemma StartBlockForm(c: Conn, f: Frame)
    ensures match StartBlock(c, f)
            case Bad(code) => code != NoError
            case Begin(h, last) =>
              && h.expecting && h.id % 2 == 1
              && if h.trailers then last == c.lastStream && h.id in c.streams && !c.streams[h.id].remoteDone
                 else last == h.id && h.id > c.lastStream && (!h.refused ==> |c.streams| < MAX_CONCURRENT_STREAMS)
  {
    hide ReadU32, Unpad;
  }

  lemma OnHeadersInv(w: World, f: Frame)
    requires Inv(w) == true && f.typ == HEADERS && !w.c.hdr.expecting
    ensures Handled(OnHeaders(Note(w, Received(f)), f))
  {
    hide Inv, FinishBlock, StartBlock, SameTallies, Safe;
    var w0 := Note(w, Received(f));
    ReceivePlain(w, f);
    NoteCore(w, Received(f));
    SafeOf(w0);
    StartBlockForm(w0.c, f);
    match StartBlock(w0.c, f)
    case Bad(code) =>
    case Begin(h, last) =>
      AnnouncedInv(w0, h, last);
      FinishBlockInv(w0.(c := w0.c.(hdr := h, lastStream := last)));
  }

  lemma LongerBlockInv(w: World, block: seq<byte>)
    requires Inv(w) == true
    ensures Inv(w.(c := w.c.(hdr := w.c.hdr.(block := block)))) == true
  {
    hide TallyOf, TotalsOf, Safe, StreamOk, ResponseOk, P.Valid, P.Holds;
    var v := w.(c := w.c.(hdr := w.c.hdr.(block := block)));
    forall x: nat ensures IdOk(v.c, x, TallyOf(v.log, x)) {
      assert IdOk(w.c, x, TallyOf(w.log, x));
    }
    forall x: nat ensures ParkedOk(v.c, x) {
      assert ParkedOk(w.c, x);
    }
  }

  lemma OnContinuationInv(w: World, f: Frame)
    requires Inv(w) == true && f.typ == CONTINUATION
    ensures Handled(OnContinuation(Note(w, Received(f)), f))
  {
    hide Inv, FinishBlock, SameTallies, Safe;
    var w0 := Note(w, Received(f));
    ReceivePlain(w, f);
    NoteCore(w, Received(f));
    SafeOf(w0);
    var h := w.c.hdr;
    if h.expecting {
      var w1 := w0.(c := w0.c.(hdr := h.(block := h.block + f.payload)));
      LongerBlockInv(w0, h.block + f.payload);
      FinishBlockInv(w1);
    }
  }

  // ----- SETTINGS

  lemma SettingsTallies(log: Log, f: Frame)
    requires f.typ == SETTINGS
    ensures var l := Then(log, Received(f));
            && (forall x: nat :: TallyOf(l, x) == TallyOf(log, x))
            && TotalsOf(l) == TotalsOf(log).(init := SettledInit(TotalsOf(log).init, Announced(f)),
                                             maxFrame := SettledMax(TotalsOf(log).maxFrame, Announced(f)))
            && (Safe(log) ==> Safe(l))
  {
    hide Announced, SettledInit, SettledMax;
  }

  lemma AdjustedIds(w: World, v: World, delta: int)
    requires IdsOk(w) && v.c.streams == AdjustWindows(w.c.streams, delta)
    requires v.c.initSendWindow == w.c.initSendWindow + delta && v.c.lastStream == w.c.lastStream && v.c.hdr == w.c.hdr
    requires forall x: nat :: TallyOf(v.log, x) == TallyOf(w.log, x)
    ensures IdsOk(v)
  {
    hide TallyOf, Rules.ValidRequest, Rules.DeclaredLength;
    forall x: nat ensures IdOk(v.c, x, TallyOf(v.log, x)) {
      assert IdOk(w.c, x, TallyOf(w.log, x));
    }
  }

  lemma AdjustedTable(c: Conn, d: Conn, delta: int)
    requires TableOk(c) && HeaderOk(c) && d.streams == AdjustWindows(c.streams, delta)
    requires d.slots == c.slots && d.lastStream == c.lastStream && d.hdr == c.hdr
    ensures TableOk(d) && HeaderOk(d) && |d.streams| == |c.streams|
  {
    hide P.Valid, P.Holds;
    assert d.streams.Keys == c.streams.Keys;
    assert |d.streams| == |d.streams.Keys| && |c.streams| == |c.streams.Keys|;
  }

  lemma SettingsTotals(c: Conn, t: Totals, d: Conn, ss: seq<Setting>)
    requires TotalsOk(c, t) && |d.streams| == |c.streams|
    requires d == c.(initSendWindow := d.initSendWindow, peerMaxFrame := d.peerMaxFrame, streams := d.streams)
    requires d.initSendWindow == SettledInit(c.initSendWindow, ss) <= MAX_WINDOW
    requires d.peerMaxFrame == SettledMax(c.peerMaxFrame, ss)
    ensures TotalsOk(d, t.(init := SettledInit(t.init, ss), maxFrame := SettledMax(t.maxFrame, ss)))
  {
  }

  lemma CoreInit(w: World)
    requires Core(w) == true
    ensures 0 <= w.c.initSendWindow <= MAX_WINDOW
  {
    hide TallyOf, TotalsOf, Safe, TableOk, HeaderOk, IdsOk;
  }

  /** Legal settings take effect on the state exactly as they do on the log. */
  lemma SettingsCore(w: World, f: Frame, ss: seq<Setting>)
    requires Core(w) == true && f.typ == SETTINGS && Announced(f) == ss && ApplySettings(w.c, ss, false).code == NoError
    ensures Core(World(ApplySettings(w.c, ss, false).c, Then(w.log, Received(f)))) == true
  {
    hide TallyOf, TotalsOf, Safe, TableOk, HeaderOk, IdsOk, TotalsOk, ApplySettings, Announced, SettledInit,
         SettledMax, AdjustWindows;
    SettingsTallies(w.log, f);
    CoreInit(w);
    ApplySettingsEffect(w.c, ss, false);
    ApplySettingsShape(w.c, ss, false);
    var a := ApplySettings(w.c, ss, false);
    var delta := a.c.initSendWindow - w.c.initSendWindow;
    var v := World(a.c, Then(w.log, Received(f)));
    AdjustedTable(w.c, a.c, delta);
    AdjustedIds(w, v, delta);
    SettingsTotals(w.c, TotalsOf(w.log), a.c, ss);
  }

  lemma InitIsNat(w: World)
    requires Inv(w) == true
    ensures w.c.initSendWindow >= 0
  {
    hide TallyOf, TotalsOf, Safe, IdsOk, AllParkedOk, TableOk, HeaderOk;
  }

  lemma SettingsParked(w: World, ss: seq<Setting>)
    requires Inv(w) == true && ApplySettings(w.c, ss, false).code == NoError && !ApplySettings(w.c, ss, false).changed
    ensures AllParkedOk(ApplySettings(w.c, ss, false).c)
  {
    InitIsNat(w);
    hide Core;
    ApplySettingsEffect(w.c, ss, false);
    ApplySettingsShape(w.c, ss, false);
    AdjustZero(w.c.streams);
    hide ApplySettings, SettledInit, SettledMax, AdjustWindows;
    forall x: nat ensures ParkedOk(ApplySettings(w.c, ss, false).c, x) {
      assert ParkedOk(w.c, x);
    }
  }

  lemma AckedCore(w: World)
    requires Core(w) == true
    ensures Core(Send(w, SettingsAckFrame())) == true
  {
    SendPlain(w, SettingsAckFrame());
    SameCore(w, Send(w, SettingsAckFrame()).log);
  }

  lemma AckTallies(log: Log, f: Frame)
    requires f.typ == SETTINGS && Announced(f) == []
    ensures SameTallies(log, Then(log, Received(f)))
  {
    SettingsTallies(log, f);
    hide TallyOf, TotalsOf, Safe, Announced;
    assert TotalsOf(log).(init := TotalsOf(log).init, maxFrame := TotalsOf(log).maxFrame) == TotalsOf(log);
  }

  lemma OnSettingsInv(w: World, f: Frame)
    requires Inv(w) == true && f.typ == SETTINGS
    ensures Handled(OnSettings(Note(w, Received(f)), f))
  {
    var w0 := Note(w, Received(f));
    NotedSafe(w, f);
    hide Inv, TallyOf, TotalsOf, Safe, FlushAll, ApplySettings, SettingsOf;
    if f.id == 0 && Bit0(f.flags) {
      AckTallies(w.log, f);
      NoteCore(w, Received(f));
    } else if f.id == 0 && SettingsOf(f.payload).Some? {
      var ss := SettingsOf(f.payload).value;
      var a := ApplySettings(w.c, ss, false);
      if a.code == NoError {
        CoreOf(w);
        hide Core;
        SettingsCore(w, f, ss);
        var w1 := Send(World(a.c, w0.log), SettingsAckFrame());
        if !a.changed {
          SettingsParked(w, ss);
        }
        AckedCore(World(a.c, w0.log));
        FlushEverything(w1);
        CoreIsInv(w1);
      }
    }
  }

  lemma CoreOf(w: World)
    requires Inv(w) == true
    ensures Core(w) == true
  {
  }

  lemma CoreIsInv(w: World)
    requires Core(w) == true
    ensures AllParkedOk(w.c) ==> Inv(w)
  {
  }

  // ----- WINDOW_UPDATE

  lemma CreditTallies(log: Log, f: Frame)
    requires f.typ == WINDOW_UPDATE
    ensures var l := Then(log, Received(f));
            && TallyOf(l, f.id) == TallyOf(log, f.id).(credit := TallyOf(log, f.id).credit + Increment(f))
            && (forall x: nat :: x != f.id ==> TallyOf(l, x) == TallyOf(log, x))
            && TotalsOf(l) == (if f.id == 0 then TotalsOf(log).(credit := TotalsOf(log).credit + Increment(f))
                               else TotalsOf(log))
            && (Safe(log) ==> Safe(l))
  {
    hide Increment;
    assert Announced(f) == [];
  }

  /** Credit on a stream that is not open, or no credit, changes nothing the invariant speaks of. */
  lemma IdleCreditInv(w: World, f: Frame)
    requires Inv(w) == true && f.typ == WINDOW_UPDATE && f.id != 0 && !Unused(w.c, f.id)
    requires f.id !in w.c.streams || Increment(f) == 0
    ensures Inv(Note(w, Received(f))) == true
  {
    CreditTallies(w.log, f);
    hide TallyOf, TotalsOf, Safe, StreamOk, ResponseOk, TableOk, HeaderOk, TotalsOk, Increment, AllParkedOk;
    var v := Note(w, Received(f));
    forall x: nat ensures IdOk(v.c, x, TallyOf(v.log, x)) {
      assert IdOk(w.c, x, TallyOf(w.log, x));
      if x == f.id && x in w.c.streams {
        var t := TallyOf(w.log, x);
        assert t.(credit := t.credit + 0) == t;
      }
    }
  }

  lemma ConnCreditCore(w: World, f: Frame)
    requires Inv(w) == true && f.typ == WINDOW_UPDATE && f.id == 0 && w.c.connSendWindow + Increment(f) <= MAX_WINDOW
    ensures Core(World(w.c.(connSendWindow := w.c.connSendWindow + Increment(f)), Then(w.log, Received(f)))) == true
  {
    CreditTallies(w.log, f);
    hide TallyOf, TotalsOf, Safe, StreamOk, ResponseOk, Increment, P.Valid, AllParkedOk;
    var v := World(w.c.(connSendWindow := w.c.connSendWindow + Increment(f)), Then(w.log, Received(f)));
    forall x: nat ensures IdOk(v.c, x, TallyOf(v.log, x)) {
      assert IdOk(w.c, x, TallyOf(w.log, x));
    }
  }

  /** The state once a stream is credited, before its window is checked. */
  function Credited(w: World, f: Frame): World
    requires f.id in w.c.streams
  {
    var s := w.c.streams[f.id];
    Update(Note(w, Received(f)), f.id, s.(sendWindow := s.sendWindow + Increment(f)))
  }

  lemma CreditedTable(w: World, f: Frame)
    requires Inv(w) == true && f.typ == WINDOW_UPDATE && f.id != 0 && f.id in w.c.streams
    ensures TableOk(Credited(w, f).c) && HeaderOk(Credited(w, f).c)
    ensures TotalsOk(Credited(w, f).c, TotalsOf(Credited(w, f).log)) && Safe(Credited(w, f).log)
  {
    CreditTallies(w.log, f);
    hide TallyOf, TotalsOf, Safe, IdsOk, P.Valid, P.Holds, Increment;
    var v := Credited(w, f);
    assert v.c.streams.Keys == w.c.streams.Keys;
    assert |v.c.streams| == |v.c.streams.Keys| && |w.c.streams| == |w.c.streams.Keys|;
  }

  lemma CreditedBut(w: World, f: Frame)
    requires Inv(w) == true && f.typ == WINDOW_UPDATE && f.id != 0 && f.id in w.c.streams
    ensures CoreBut(Credited(w, f), f.id)
    ensures forall x: nat :: x != f.id ==> ParkedOk(Credited(w, f).c, x)
  {
    CreditedTable(w, f);
    CreditTallies(w.log, f);
    StreamOf(w, f.id);
    hide TallyOf, TotalsOf, Safe, TableOk, HeaderOk, TotalsOk, StreamOk, Increment;
    var v := Credited(w, f);
    forall x: nat | x != f.id ensures IdOk(v.c, x, TallyOf(v.log, x)) && ParkedOk(v.c, x) {
      assert IdOk(w.c, x, TallyOf(w.log, x)) && ParkedOk(w.c, x);
    }
  }

  lemma CreditedCore(w: World, f: Frame)
    requires Inv(w) == true && f.typ == WINDOW_UPDATE && f.id != 0 && f.id in w.c.streams
    requires w.c.streams[f.id].sendWindow + Increment(f) <= MAX_WINDOW
    ensures Core(Credited(w, f)) == true
  {
    CreditedTable(w, f);
    CreditTallies(w.log, f);
    StreamOf(w, f.id);
    CoreOf(w);
    InitInRange(w);
    hide Core, Inv, TallyOf, TotalsOf, Safe, TotalsOk, TableOk, HeaderOk, Increment, Rules.ValidRequest,
         Rules.DeclaredLength;
    var s1 := Credited(w, f).c.streams[f.id];
    assert StreamOk(w.c.initSendWindow, s1, TallyOf(Credited(w, f).log, f.id));
    OneChangedCore(w, Credited(w, f), f.id, s1);
  }

  lemma InitInRange(w: World)
    requires Inv(w) == true
    ensures 0 <= w.c.initSendWindow <= MAX_WINDOW
  {
  }

  lemma ReleaseParked(w: World, id: nat)
    requires id in w.c.streams && forall x: nat :: x != id ==> ParkedOk(w.c, x)
    ensures AllParkedOk(Release(w, id).c)
  {
    hide P.Remove;
    forall x: nat ensures ParkedOk(Release(w, id).c, x) {
      assert x != id ==> ParkedOk(w.c, x);
    }
  }

  lemma CreditOverflowInv(w: World, f: Frame)
    requires Inv(w) == true && f.typ == WINDOW_UPDATE && f.id != 0 && f.id in w.c.streams
    ensures Inv(Release(Send(Credited(w, f), RstFrame(f.id, FlowControlError)), f.id)) == true
  {
    CreditedBut(w, f);
    var v := Send(Credited(w, f), RstFrame(f.id, FlowControlError));
    SendPlainBut(Credited(w, f), RstFrame(f.id, FlowControlError), f.id);
    assert v.c == Credited(w, f).c;
    hide Core, CoreBut, Credited, Release, ParkedOk, AllParkedOk;
    ReleaseBroken(v, f.id);
    ReleaseParked(v, f.id);
  }

  lemma CreditFlushInv(w: World, f: Frame)
    requires Inv(w) == true && f.typ == WINDOW_UPDATE && f.id != 0 && f.id in w.c.streams
    requires w.c.streams[f.id].sendWindow + Increment(f) <= MAX_WINDOW
    ensures Inv(Flush(Credited(w, f), f.id)) == true
  {
    CreditedBut(w, f);
    CreditedCore(w, f);
    hide Core, CoreBut, Flush, Credited, ParkedOk;
    FlushCore(Credited(w, f), f.id);
  }

  lemma SendPlainBut(w: World, f: Frame, id: nat)
    requires CoreBut(w, id) && Plain(f) && |f.payload| <= DEFAULT_MAX_FRAME_SIZE
    ensures CoreBut(Send(w, f), id)
  {
    SendPlain(w, f);
    hide TallyOf, TotalsOf, Safe, IdOk, ResponseOk, TableOk, HeaderOk, TotalsOk;
  }

  lemma OnWindowUpdateForm(w: World, f: Frame)
    requires f.typ == WINDOW_UPDATE && |f.payload| == 4
    ensures var w0 := Note(w, Received(f));
            var r := OnWindowUpdate(w0, f);
            var w1 := World(w.c.(connSendWindow := w.c.connSendWindow + Increment(f)), w0.log);
            if f.id == 0 then
              r == if Increment(f) == 0 then Fail(w0, ProtocolError)
                   else if w1.c.connSendWindow > MAX_WINDOW then Fail(w1, FlowControlError)
                   else Ok(FlushAll(w1, P.Ids(w1.c.slots)))
            else if f.id > w.c.lastStream then r == Fail(w0, ProtocolError)
            else if Increment(f) == 0 then r == Ok(Release(Send(w0, RstFrame(f.id, ProtocolError)), f.id))
            else if f.id !in w.c.streams then r == Ok(w0)
            else if w.c.streams[f.id].sendWindow + Increment(f) > MAX_WINDOW then
              r == Ok(Release(Send(Credited(w, f), RstFrame(f.id, FlowControlError)), f.id))
            else r == Ok(Flush(Credited(w, f), f.id))
  {
    hide FlushAll, Flush, Release, ReadU32;
  }

  lemma OnWindowUpdateInv(w: World, f: Frame)
    requires Inv(w) == true && f.typ == WINDOW_UPDATE && !w.c.hdr.expecting
    ensures Handled(OnWindowUpdate(Note(w, Received(f)), f))
  {
    var w0 := Note(w, Received(f));
    NotedSafe(w, f);
    if |f.payload| == 4 {
      OnWindowUpdateForm(w, f);
      hide Inv, Core, Safe, FlushAll, Flush, Release, OnWindowUpdate, Increment, Credited;
      if f.id == 0 {
        if Increment(f) != 0 && w.c.connSendWindow + Increment(f) <= MAX_WINDOW {
          ConnCreditCore(w, f);
          FlushEverything(World(w.c.(connSendWindow := w.c.connSendWindow + Increment(f)), w0.log));
        }
      } else if f.id > w.c.lastStream {
      } else if Increment(f) == 0 {
        IdleCreditInv(w, f);
        ResetInv(w0, f.id, ProtocolError);
      } else if f.id !in w.c.streams {
        IdleCreditInv(w, f);
      } else if w.c.streams[f.id].sendWindow + Increment(f) > MAX_WINDOW {
        CreditOverflowInv(w, f);
      } else {
        CreditFlushInv(w, f);
      }
    }
  }

  // ----- every frame

  lemma OtherFramesInv(w: World, f: Frame)
    requires Inv(w) == true
    requires f.typ == PRIORITY || f.typ == RST_STREAM || f.typ == PING || f.typ == GOAWAY || f.typ == PUSH_PROMISE
    ensures Inv(Note(w, Received(f))) == true
    ensures Handled(OnPriority(Note(w, Received(f)), f)) && Handled(OnReset(Note(w, Received(f)), f))
    ensures Handled(OnPing(Note(w, Received(f)), f)) && Handled(OnGoaway(Note(w, Received(f)), f))
  {
    hide Inv, Safe, Release, ReadU32, SameTallies;
    var w0 := Note(w, Received(f));
    ReceivePlain(w, f);
    NoteCore(w, Received(f));
    SafeOf(w0);
    ResetInv(w0, f.id, ProtocolError);
    ReleaseInv(w0, f.id);
    if |f.payload| == 8 {
      SendPlainInv(w0, PingAckFrame(f.payload));
    }
  }

  /** Every frame the connection accepts keeps the invariant; one that closes it leaves a safe log. */
  lemma FrameInv(w: World, f: Frame)
    requires Inv(w) == true && f.typ <= CONTINUATION && |f.payload| <= DEFAULT_MAX_FRAME_SIZE
    ensures Handled(OnFrame(Note(w, Received(f)), f))
  {
    hide Inv, Safe, OnData, OnHeaders, OnPriority, OnReset, OnSettings, OnPing, OnGoaway, OnWindowUpdate,
         OnContinuation;
    NotedSafe(w, f);
    if w.c.hdr.expecting && f.typ != CONTINUATION {
    } else if f.typ == DATA {
      OnDataInv(w, f);
    } else if f.typ == HEADERS {
      OnHeadersInv(w, f);
    } else if f.typ == SETTINGS {
      OnSettingsInv(w, f);
    } else if f.typ == WINDOW_UPDATE {
      OnWindowUpdateInv(w, f);
    } else if f.typ == CONTINUATION {
      OnContinuationInv(w, f);
    } else {
      OtherFramesInv(w, f);
    }
  }
}
