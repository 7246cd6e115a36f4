// The invariant of a connection over all runs, and that the shared steps keep it.
module ConnInv {
  import opened Bytes
  import opened Frames
  import opened HpackTable
  import opened ConnModel
  import opened ConnShapes
  import opened ConnLog
  import P = Probing
  import Rules = RequestRules

  // ----- the invariant

  /** The id of a request whose header block is still arriving: announced, not open. */
  ghost predicate Announcing(c: Conn, id: nat) {
    c.hdr.expecting && !c.hdr.trailers && id == c.hdr.id
  }

  /** Ids a stream may still be opened for. */
  ghost predicate Unused(c: Conn, id: nat) {
    id > c.lastStream || Announcing(c, id)
  }

  ghost predicate RequestOk(s: Stream, t: Tally) {
    && s.body == t.into
    && Rules.ValidRequest(s.headers)
    && s.declaredLen == Rules.DeclaredLength(s.headers)
  }

  /** The send window is the initial window plus credit less DATA sent, and stays in range; a stream that still
      receives has its full receive window; an accepted request is sound. */
  ghost predicate StreamOk(init: int, s: Stream, t: Tally) {
    && t.everOpened
    && s.sendWindow == init + t.credit - |t.out|
    && -MAX_WINDOW <= s.sendWindow - init <= MAX_WINDOW
    && (!s.remoteDone ==> s.recvWindow == DEFAULT_WINDOW_SIZE)
    && (!s.rejected ==> RequestOk(s, t))
    && (t.surfaced ==> s.remoteDone)
    && (s.remoteDone ==> !s.rejected)
  }

  /** What was sent and what is parked is what was written; an ending waits only behind parked octets. */
  ghost predicate ResponseOk(s: Stream, t: Tally) {
    && t.out + s.parked == t.bodies
    && (s.trailersPending ==> s.parked != [])
    && (s.parkedEnd ==> s.parked != [])
  }

  ghost predicate TableOk(c: Conn) {
    && P.Valid(c.slots)
    && (forall x: nat :: P.Holds(c.slots, x) <==> x in c.streams)
    && |c.streams| <= MAX_CONCURRENT_STREAMS
    && (forall id :: id in c.streams ==> id % 2 == 1 && id <= c.lastStream)
  }

  ghost predicate HeaderOk(c: Conn) {
    c.hdr.expecting ==>
      && c.hdr.id % 2 == 1 && c.hdr.id <= c.lastStream
      && if c.hdr.trailers then c.hdr.id in c.streams ==> !c.streams[c.hdr.id].remoteDone
         else c.hdr.id == c.lastStream && c.hdr.id !in c.streams
              && (!c.hdr.refused ==> |c.streams| < MAX_CONCURRENT_STREAMS)
  }

  ghost predicate TotalsOk(c: Conn, t: Totals) {
    && c.connSendWindow == DEFAULT_WINDOW_SIZE + t.credit - t.out
    && 0 <= c.connSendWindow <= MAX_WINDOW
    && c.initSendWindow == t.init && c.initSendWindow <= MAX_WINDOW
    && c.peerMaxFrame == t.maxFrame
    && c.connRecvWindow == DEFAULT_WINDOW_SIZE && t.creditOut == t.into
    && |c.streams| == t.open && |c.streams| + c.free == t.peak <= MAX_CONCURRENT_STREAMS
  }

  const NO_TALLY := Tally(0, [], [], [], false, false)

  /** An open stream is in order, one that is gone sent a prefix of what was written to it, and an id still
      unused has no history. */
  ghost predicate IdOk(c: Conn, id: nat, t: Tally) {
    && (if id in c.streams then StreamOk(c.initSendWindow, c.streams[id], t) && ResponseOk(c.streams[id], t)
        else t.out <= t.bodies)
    && (Unused(c, id) ==> t == NO_TALLY)
  }

  ghost predicate IdsOk(w: World) {
    forall id: nat :: IdOk(w.c, id, TallyOf(w.log, id))
  }

  ghost predicate Core(w: World) {
    TableOk(w.c) && HeaderOk(w.c) && TotalsOk(w.c, TotalsOf(w.log)) && IdsOk(w) && Safe(w.log)
  }

  /** Octets are parked only behind a closed window. */
  ghost predicate ParkedOk(c: Conn, id: nat) {
    id in c.streams && c.streams[id].parked != [] ==> Allow(c, c.streams[id]) <= 0
  }

  ghost predicate AllParkedOk(c: Conn) {
    forall id: nat :: ParkedOk(c, id)
  }

  ghost predicate Inv(w: World) {
    Core(w) && AllParkedOk(w.c)
  }

  lemma NewWorldInv()
    ensures Inv(NewWorld()) == true
  {
    var s := NewConn().slots;
    assert forall x: nat :: !P.Holds(s, x);
  }

  // ----- events that count for nothing

  /** The second log adds up to the same as the first, and is as safe. */
  ghost predicate SameTallies(a: Log, b: Log) {
    && (forall id: nat :: TallyOf(b, id) == TallyOf(a, id))
    && TotalsOf(b) == TotalsOf(a)
    && (Safe(a) ==> Safe(b))
  }

  lemma SameCore(w: World, log: Log)
    requires SameTallies(w.log, log) && Core(w) == true
    ensures Core(World(w.c, log)) == true
  {
    hide TallyOf, TotalsOf, Safe, IdOk, TableOk, HeaderOk, TotalsOk;
  }

  predicate Plain(f: Frame) {
    f.typ != DATA && !(f.typ == WINDOW_UPDATE && f.id == 0)
  }

  lemma SendPlain(w: World, f: Frame)
    requires Plain(f) && |f.payload| <= TotalsOf(w.log).maxFrame
    ensures SameTallies(w.log, Send(w, f).log)
  {
  }

  lemma ReceivePlain(w: World, f: Frame)
    requires f.typ != DATA && f.typ != WINDOW_UPDATE && f.typ != SETTINGS
    ensures SameTallies(w.log, Note(w, Received(f)).log)
  {
    hide SettingsOf;
  }

  lemma {:induction false} SendAllPlain(w: World, fs: seq<Frame>)
    requires forall i :: 0 <= i < |fs| ==> Plain(fs[i]) && |fs[i].payload| <= TotalsOf(w.log).maxFrame
    ensures SameTallies(w.log, SendAll(w, fs).log)
    decreases |fs|
  {
    if fs != [] {
      SendPlain(w, fs[0]);
      var w1 := Send(w, fs[0]);
      hide TallyOf, TotalsOf, Safe, Send;
      SendAllPlain(w1, fs[1..]);
    }
  }

  lemma {:induction false} ContinuationsFit(id: nat, rest: seq<byte>, max: FrameSize)
    ensures forall i :: 0 <= i < |ContinuationFrames(id, rest, max)| ==>
                          && Plain(ContinuationFrames(id, rest, max)[i])
                          && |ContinuationFrames(id, rest, max)[i].payload| <= max
    decreases |rest|
  {
    if |rest| > max {
      ContinuationsFit(id, rest[max..], max);
    }
  }

  lemma BlockFits(id: nat, block: seq<byte>, end: bool, max: FrameSize)
    ensures forall i :: 0 <= i < |BlockFrames(id, block, end, max)| ==>
                          && Plain(BlockFrames(id, block, end, max)[i])
                          && |BlockFrames(id, block, end, max)[i].payload| <= max
  {
    if |block| > max {
      ContinuationsFit(id, block[max..], max);
    }
  }

  // ----- releasing a stream

  lemma TableRoom(c: Conn)
    requires TableOk(c)
    ensures P.HasRoom(c.slots)
  {
    P.RoomByCount(c.slots, c.streams.Keys);
    assert |c.streams.Keys| == |c.streams|;
  }

  lemma ReleaseTable(c: Conn, id: nat, d: Conn)
    requires TableOk(c) && HeaderOk(c) && id in c.streams
    requires d == c.(slots := P.Remove(c.slots, id), streams := c.streams - {id}, free := c.free + 1)
    ensures TableOk(d) && HeaderOk(d) && |d.streams| == |c.streams| - 1
  {
    hide P.Valid, P.Remove, P.Holds, P.HasRoom;
    TableRoom(c);
    P.RemoveCorrect(c.slots, id);
    assert d.streams.Keys == c.streams.Keys - {id};
    assert |d.streams| == |d.streams.Keys| && |c.streams| == |c.streams.Keys|;
    assert |c.streams.Keys| == |d.streams.Keys| + 1 by {
      assert c.streams.Keys == d.streams.Keys + {id};
    }
  }

  lemma ReleasedTallies(log: Log, id: nat)
    ensures forall x: nat :: TallyOf(Then(log, Released(id)), x) == TallyOf(log, x)
    ensures TotalsOf(Then(log, Released(id))) == TotalsOf(log).(open := TotalsOf(log).open - 1)
    ensures Safe(log) ==> Safe(Then(log, Released(id)))
  {
  }

  lemma ResponsePrefix(s: Stream, t: Tally)
    requires ResponseOk(s, t)
    ensures t.out <= t.bodies
  {
  }

  /** All ids are in order but id, of which only the response side need be. */
  ghost predicate IdsOkBut(w: World, id: nat) {
    forall x: nat :: if x == id then x in w.c.streams ==> ResponseOk(w.c.streams[x], TallyOf(w.log, x))
                     else IdOk(w.c, x, TallyOf(w.log, x))
  }

  ghost predicate CoreBut(w: World, id: nat) {
    && TableOk(w.c) && HeaderOk(w.c) && TotalsOk(w.c, TotalsOf(w.log)) && IdsOkBut(w, id) && Safe(w.log)
    && id in w.c.streams
  }

  lemma CoreIsCoreBut(w: World, id: nat)
    requires Core(w) == true && id in w.c.streams
    ensures CoreBut(w, id)
  {
    hide TallyOf, TotalsOf, Safe, StreamOk, ResponseOk, TableOk, HeaderOk, TotalsOk;
    forall x: nat
      ensures if x == id then ResponseOk(w.c.streams[x], TallyOf(w.log, x)) else IdOk(w.c, x, TallyOf(w.log, x))
    {
      assert IdOk(w.c, x, TallyOf(w.log, x));
    }
  }

  lemma NotUnused(c: Conn, id: nat)
    requires TableOk(c) && HeaderOk(c) && id in c.streams
    ensures !Unused(c, id)
  {
    hide P.Valid;
  }

  lemma ReleaseIds(w: World, id: nat, v: World)
    requires IdsOkBut(w, id) && id in w.c.streams && v.c.streams == w.c.streams - {id} && !Unused(w.c, id)
    requires v.c.initSendWindow == w.c.initSendWindow && v.c.lastStream == w.c.lastStream && v.c.hdr == w.c.hdr
    requires forall x: nat :: TallyOf(v.log, x) == TallyOf(w.log, x)
    ensures IdsOk(v)
  {
    hide TallyOf, StreamOk, ResponseOk;
    forall x: nat ensures IdOk(v.c, x, TallyOf(v.log, x)) {
      if x == id {
        ResponsePrefix(w.c.streams[id], TallyOf(w.log, id));
      } else {
        assert IdOk(w.c, x, TallyOf(w.log, x));
      }
    }
  }

  lemma ReleaseTotals(c: Conn, t: Totals, d: Conn)
    requires TotalsOk(c, t) && |d.streams| == |c.streams| - 1 && d.free == c.free + 1
    requires d == c.(slots := d.slots, streams := d.streams, free := d.free)
    ensures TotalsOk(d, t.(open := t.open - 1))
  {
  }

  lemma ReleaseBroken(w: World, id: nat)
    requires CoreBut(w, id)
    ensures Core(Release(w, id)) == true
  {
    NotUnused(w.c, id);
    hide TallyOf, TotalsOf, Safe, TableOk, HeaderOk, IdsOk, IdsOkBut, TotalsOk, Unused, P.Remove;
    var d := w.c.(slots := P.Remove(w.c.slots, id), streams := w.c.streams - {id}, free := w.c.free + 1);
    var v := World(d, Then(w.log, Released(id)));
    assert Release(w, id) == v;
    hide Release;
    ReleaseTable(w.c, id, d);
    ReleasedTallies(w.log, id);
    ReleaseIds(w, id, v);
    ReleaseTotals(w.c, TotalsOf(w.log), d);
  }

  lemma ReleaseCore(w: World, id: nat)
    requires Core(w) == true
    ensures Core(Release(w, id)) == true
  {
    if id in w.c.streams {
      CoreIsCoreBut(w, id);
      hide Core, CoreBut, Release;
      ReleaseBroken(w, id);
    }
  }

  lemma ReleaseInv(w: World, id: nat)
    requires Inv(w) == true
    ensures Inv(Release(w, id)) == true
  {
    ReleaseCore(w, id);
    hide Core;
    forall x: nat ensures ParkedOk(Release(w, id).c, x) {
      assert ParkedOk(w.c, x);
    }
  }

  lemma SendPlainInv(w: World, f: Frame)
    requires Inv(w) == true && Plain(f) && |f.payload| <= DEFAULT_MAX_FRAME_SIZE
    ensures Inv(Send(w, f)) == true
  {
    SendPlain(w, f);
    SameCore(w, Send(w, f).log);
  }

  lemma WriteBlockCore(w: World, id: nat, block: seq<byte>, end: bool)
    requires Core(w) == true
    ensures Core(WriteBlock(w, id, block, end)) == true
  {
    var fs := BlockFrames(id, block, end, w.c.peerMaxFrame);
    BlockFits(id, block, end, w.c.peerMaxFrame);
    SendAllPlain(w, fs);
    SendAllShape(w, fs);
    SameCore(w, SendAll(w, fs).log);
    hide Core, BlockFrames, Release;
    assert SendAll(w, fs) == World(w.c, SendAll(w, fs).log);
    if end {
      ReleaseCore(SendAll(w, fs), id);
    }
  }

  lemma WriteBlockInv(w: World, id: nat, block: seq<byte>, end: bool)
    requires Inv(w) == true
    ensures Inv(WriteBlock(w, id, block, end)) == true
  {
    WriteBlockCore(w, id, block, end);
    WriteBlockShape(w, id, block, end);
    hide Core, WriteBlock;
    forall x: nat ensures ParkedOk(WriteBlock(w, id, block, end).c, x) {
      assert ParkedOk(w.c, x);
    }
  }
}
