// What each operation of the connection leaves alone. The invariants and the class proofs start from here.
module ConnShapes {
  import opened Bytes
  import opened Frames
  import opened ConnModel
  import HpackBlock
  import P = Probing
  import Rules = RequestRules

  lemma {:induction false} SendAllShape(w: World, fs: seq<Frame>)
    ensures SendAll(w, fs).c == w.c
    decreases |fs|
  {
    if fs != [] {
      SendAllShape(Send(w, fs[0]), fs[1..]);
    }
  }

  /** The state after k octets of data went out on a stream. */
  function Charged(c: Conn, id: nat, k: nat): (r: Conn)
    requires id in c.streams
    ensures r.streams.Keys == c.streams.Keys
  {
    var s := c.streams[id];
    c.(connSendWindow := c.connSendWindow - k, streams := c.streams[id := s.(sendWindow := s.sendWindow - k)])
  }

  lemma ChargeNothing(c: Conn, id: nat)
    requires id in c.streams
    ensures Charged(c, id, 0) == c
  {
    assert c.streams[id := c.streams[id]] == c.streams;
  }

  lemma ChargeTwice(c: Conn, id: nat, a: nat, b: nat)
    requires id in c.streams
    ensures Charged(Charged(c, id, a), id, b) == Charged(c, id, a + b)
  {
    var s := c.streams[id];
    var x, y := s.(sendWindow := s.sendWindow - a), s.(sendWindow := s.sendWindow - (a + b));
    assert c.streams[id := x][id := y] == c.streams[id := y];
  }

  lemma SendDataShape(w: World, id: nat, chunk: seq<byte>, last: bool)
    requires id in w.c.streams
    ensures SendData(w, id, chunk, last) ==
            World(Charged(w.c, id, |chunk|), Then(w.log, Sent(DataFrame(id, chunk, last))))
  {
  }

  /** What the windows let through shrinks by what was sent. */
  lemma ChargedAllow(c: Conn, id: nat, k: nat)
    requires id in c.streams
    ensures Allow(Charged(c, id, k), Charged(c, id, k).streams[id]) == Allow(c, c.streams[id]) - k
    ensures Charged(c, id, k).connSendWindow == c.connSendWindow - k
    ensures Charged(c, id, k).peerMaxFrame == c.peerMaxFrame
  {
  }

  lemma EmitUnfold(w: World, id: nat, data: seq<byte>, end: bool)
    requires id in w.c.streams
    ensures data == [] || Allow(w.c, w.c.streams[id]) <= 0 ==> EmitData(w, id, data, end) == Emitted(w, data)
    ensures data != [] && Allow(w.c, w.c.streams[id]) > 0 ==>
              var n := ChunkSize(w.c, w.c.streams[id], |data|);
              var w1 := SendData(w, id, data[..n], n == |data| && end);
              id in w1.c.streams && EmitData(w, id, data, end) == EmitData(w1, id, data[n..], end)
  {
  }

  /** e is data sent up to some k, charged to both windows and to nothing else, and stopped only by a closed window. */
  ghost predicate EmittedPrefix(w: World, id: nat, data: seq<byte>, e: Emitted) {
    var k := |data| - |e.rest|;
    && id in w.c.streams
    && 0 <= k && e.rest == data[k..]
    && e.w.c == Charged(w.c, id, k)
    && (e.rest != [] ==> Allow(e.w.c, e.w.c.streams[id]) <= 0)
    && (k > 0 ==> Allow(e.w.c, e.w.c.streams[id]) >= 0)
  }

  lemma EmittedPrefixStep(w: World, id: nat, data: seq<byte>, n: nat, w1: World, e: Emitted)
    requires id in w.c.streams && n <= |data| && n <= Allow(w.c, w.c.streams[id])
    requires w1.c == Charged(w.c, id, n) && EmittedPrefix(w1, id, data[n..], e)
    ensures EmittedPrefix(w, id, data, e)
  {
    hide Charged, Allow;
    var k := |data[n..]| - |e.rest|;
    ChargeTwice(w.c, id, n, k);
    assert e.rest == data[n..][k..] == data[n + k..];
    if k == 0 {
      ChargeNothing(w1.c, id);
      ChargedAllow(w.c, id, n);
    }
  }

  lemma {:induction false} EmitShape(w: World, id: nat, data: seq<byte>, end: bool)
    requires id in w.c.streams
    ensures EmittedPrefix(w, id, data, EmitData(w, id, data, end))
    decreases |data|
  {
    EmitUnfold(w, id, data, end);
    if data == [] || Allow(w.c, w.c.streams[id]) <= 0 {
      hide EmitData;
      ChargeNothing(w.c, id);
      assert data[0..] == data;
    } else {
      hide SendData, Charged, ChunkSize, EmitData, EmittedPrefix;
      var n := ChunkSize(w.c, w.c.streams[id], |data|);
      var last := n == |data| && end;
      SendDataShape(w, id, data[..n], last);
      var w1 := SendData(w, id, data[..n], last);
      EmitShape(w1, id, data[n..], end);
      EmittedPrefixStep(w, id, data, n, w1, EmitData(w1, id, data[n..], end));
    }
  }

  lemma WriteBlockShape(w: World, id: nat, block: seq<byte>, end: bool)
    ensures var r := WriteBlock(w, id, block, end);
            r.c == if end then Release(w, id).c else w.c
  {
    SendAllShape(w, BlockFrames(id, block, end, w.c.peerMaxFrame));
  }

  /** The fields no operation on streams touches. */
  ghost predicate SameSession(a: Conn, b: Conn) {
    && a.dec == b.dec && a.prefaceSeen == b.prefaceSeen && a.lastStream == b.lastStream && a.hdr == b.hdr
    && a.peerMaxFrame == b.peerMaxFrame && a.initSendWindow == b.initSendWindow && a.connRecvWindow == b.connRecvWindow
  }

  /** The state once k parked octets of a stream went out: what flushing leaves before it ends the stream. */
  function Unparked(c: Conn, id: nat, k: nat): (r: Conn)
    requires id in c.streams && k <= |c.streams[id].parked|
    ensures r.streams.Keys == c.streams.Keys
  {
    var s := c.streams[id];
    c.(connSendWindow := c.connSendWindow - k,
       streams := c.streams[id := s.(sendWindow := s.sendWindow - k, parked := s.parked[k..])])
  }

  lemma UnparkedIsCharged(c: Conn, id: nat, k: nat)
    requires id in c.streams && k <= |c.streams[id].parked|
    ensures var d := Charged(c, id, k);
            var u := Unparked(c, id, k);
            && u == d.(streams := d.streams[id := d.streams[id].(parked := c.streams[id].parked[k..])])
            && Allow(u, u.streams[id]) == Allow(d, d.streams[id])
  {
    var x := c.streams[id].(sendWindow := c.streams[id].sendWindow - k);
    var y := x.(parked := c.streams[id].parked[k..]);
    assert c.streams[id := x][id := y] == c.streams[id := y];
  }

  lemma FlushShape(w: World, id: nat) returns (k: nat)
    requires id in w.c.streams
    ensures k <= |w.c.streams[id].parked|
    ensures var s := w.c.streams[id];
            var u := Unparked(w.c, id, k);
            var e := EmitData(w, id, s.parked, s.parkedEnd);
            && e.rest == s.parked[k..] && e.w.c == Charged(w.c, id, k)
            && (k > 0 ==> Allow(u, u.streams[id]) >= 0)
            && (k < |s.parked| ==> Allow(u, u.streams[id]) <= 0)
            && Flush(w, id) == AfterFlush(World(u, e.w.log), id)
  {
    hide AfterFlush, EmitData, Charged, Unparked, Allow;
    var s := w.c.streams[id];
    EmitShape(w, id, s.parked, s.parkedEnd);
    var e := EmitData(w, id, s.parked, s.parkedEnd);
    k := |s.parked| - |e.rest|;
    UnparkedIsCharged(w.c, id, k);
  }

  lemma FlushSession(w: World, id: nat)
    ensures SameSession(w.c, Flush(w, id).c)
  {
    if id in w.c.streams {
      var k := FlushShape(w, id);
      var s := w.c.streams[id];
      var u := World(Unparked(w.c, id, k), EmitData(w, id, s.parked, s.parkedEnd).w.log);
      hide Flush, EmitData, WriteBlock;
      WriteBlockShape(Update(u, id, u.c.streams[id].(trailersPending := false)), id, s.trailers, true);
    }
  }

  lemma {:induction false} FlushAllSession(w: World, ids: seq<nat>)
    ensures SameSession(w.c, FlushAll(w, ids).c)
    decreases |ids|
  {
    hide Flush;
    if ids != [] {
      FlushSession(w, ids[0]);
      FlushAllSession(Flush(w, ids[0]), ids[1..]);
    }
  }

  lemma {:induction false} ApplySettingsShape(c: Conn, ss: seq<Setting>, changed: bool)
    ensures var a := ApplySettings(c, ss, changed).c;
            && a.streams.Keys == c.streams.Keys && a.slots == c.slots && a.free == c.free
            && a == c.(initSendWindow := a.initSendWindow, peerMaxFrame := a.peerMaxFrame, streams := a.streams)
    decreases |ss|
  {
    if ss != [] {
      var st := ss[0];
      if st.id == SETTING_INITIAL_WINDOW_SIZE && st.val <= MAX_WINDOW {
        var delta := st.val - c.initSendWindow;
        var c1 := c.(initSendWindow := st.val, streams := AdjustWindows(c.streams, delta));
        assert c1.streams.Keys == c.streams.Keys;
        ApplySettingsShape(c1, ss[1..], true);
      } else if st.id == SETTING_MAX_FRAME_SIZE && DEFAULT_MAX_FRAME_SIZE <= st.val <= LARGEST_MAX_FRAME_SIZE {
        ApplySettingsShape(c.(peerMaxFrame := st.val), ss[1..], changed);
      } else {
        ApplySettingsShape(c, ss[1..], changed);
      }
    }
  }

  lemma SettingsKeepPreface(w: World, f: Frame)
    ensures OnSettings(w, f).w.c.prefaceSeen == w.c.prefaceSeen
  {
    hide FlushAll, ApplySettings, SettingsOf, P.Ids;
    match SettingsOf(f.payload)
    case None =>
    case Some(ss) =>
      ApplySettingsShape(w.c, ss, false);
      var w1 := Send(w.(c := ApplySettings(w.c, ss, false).c), SettingsAckFrame());
      FlushAllSession(w1, P.Ids(w1.c.slots));
  }

  lemma CreditKeepsPreface(w: World, f: Frame)
    ensures OnWindowUpdate(w, f).w.c.prefaceSeen == w.c.prefaceSeen
  {
    hide FlushAll, Flush, ReadU32, P.Ids, P.Remove;
    if |f.payload| == 4 {
      var inc := ReadU32(f.payload, 0) % 0x8000_0000;
      var w1 := w.(c := w.c.(connSendWindow := w.c.connSendWindow + inc));
      FlushAllSession(w1, P.Ids(w1.c.slots));
      if f.id in w.c.streams {
        var s := w.c.streams[f.id];
        FlushSession(Update(w, f.id, s.(sendWindow := s.sendWindow + inc)), f.id);
      }
    }
  }

  lemma BlockKeepsPreface(w: World)
    ensures FinishBlock(w).w.c.prefaceSeen == w.c.prefaceSeen
  {
    hide HpackBlock.DecodeBlock, P.Put, P.Remove, Rules.ValidRequest, Rules.ValidTrailers, Rules.DeclaredLength;
  }

  lemma HeadersKeepPreface(w: World, f: Frame)
    ensures OnHeaders(w, f).w.c.prefaceSeen == w.c.prefaceSeen
    ensures OnContinuation(w, f).w.c.prefaceSeen == w.c.prefaceSeen
  {
    hide FinishBlock, StartBlock;
    forall v: World { BlockKeepsPreface(v); }
  }

  lemma FrameKeepsPreface(w: World, f: Frame)
    requires f.typ <= CONTINUATION
    ensures OnFrame(w, f).w.c.prefaceSeen == w.c.prefaceSeen
  {
    hide OnSettings, OnWindowUpdate, OnHeaders, OnContinuation, ReadU32, P.Remove;
    SettingsKeepPreface(w, f);
    CreditKeepsPreface(w, f);
    HeadersKeepPreface(w, f);
  }

  lemma FinishErrorLog(w: World)
    ensures FinishBlock(w).code != NoError ==> FinishBlock(w).w.log == w.log
  {
    hide HpackBlock.DecodeBlock, Complete, Release, Open, Rules.ValidRequest, Rules.ValidTrailers, Rules.DeclaredLength;
  }

  lemma BlockErrorLog(w: World, f: Frame)
    ensures OnHeaders(w, f).code != NoError ==> OnHeaders(w, f).w.log == w.log
    ensures OnContinuation(w, f).code != NoError ==> OnContinuation(w, f).w.log == w.log
  {
    hide FinishBlock, StartBlock;
    forall v: World { FinishErrorLog(v); }
  }

  /** A frame that closes the connection sends nothing first. */
  lemma FrameErrorLog(w: World, f: Frame)
    requires f.typ <= CONTINUATION && OnFrame(w, f).code != NoError
    ensures OnFrame(w, f).w.log == w.log
  {
    BlockErrorLog(w, f);
    hide OnHeaders, OnContinuation, Complete, Release, Flush, FlushAll, ApplySettings, SettingsOf, ReadU32, Unpad;
  }
}
