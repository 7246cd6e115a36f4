// Sending under flow control keeps the invariant: DATA frames, parked octets and what follows them.
module ConnSend {
  import opened Bytes
  import opened Frames
  import opened ConnModel
  import opened ConnShapes
  import opened ConnLog
  import opened ConnInv
  import P = Probing
  import Rules = RequestRules

  // ----- the log of an emission

  /** From a to b, exactly `sent` went out as DATA of stream id. */
  ghost predicate SentOn(a: Log, b: Log, id: nat, sent: seq<byte>) {
    && TallyOf(b, id) == TallyOf(a, id).(out := TallyOf(a, id).out + sent)
    && (forall x: nat :: x != id ==> TallyOf(b, x) == TallyOf(a, x))
    && TotalsOf(b) == TotalsOf(a).(out := TotalsOf(a).out + |sent|)
    && (Safe(a) ==> Safe(b))
  }

  /** The windows the log defines are the ones the state holds. */
  ghost predicate WindowsMatch(w: World, id: nat) {
    && id in w.c.streams && id < 0x8000_0000
    && w.c.connSendWindow == DEFAULT_WINDOW_SIZE + TotalsOf(w.log).credit - TotalsOf(w.log).out
    && w.c.streams[id].sendWindow == TotalsOf(w.log).init + TallyOf(w.log, id).credit - |TallyOf(w.log, id).out|
    && w.c.peerMaxFrame == TotalsOf(w.log).maxFrame
  }

  lemma SentNothing(log: Log, id: nat)
    ensures SentOn(log, log, id, [])
  {
    hide TallyOf, TotalsOf, Safe;
  }

  lemma SentTwice(a: Log, b: Log, c: Log, id: nat, x: seq<byte>, y: seq<byte>)
    requires SentOn(a, b, id, x) && SentOn(b, c, id, y)
    ensures SentOn(a, c, id, x + y)
  {
    hide TallyOf, TotalsOf, Safe;
    assert TallyOf(a, id).out + x + y == TallyOf(a, id).out + (x + y);
  }

  /** A chunk within the windows and the frame size is safe to send. */
  lemma ChunkSent(w: World, id: nat, chunk: seq<byte>, last: bool)
    requires WindowsMatch(w, id) && |chunk| <= Allow(w.c, w.c.streams[id]) && |chunk| <= w.c.peerMaxFrame
    ensures SentOn(w.log, SendData(w, id, chunk, last).log, id, chunk)
    ensures WindowsMatch(SendData(w, id, chunk, last), id)
  {
    SendDataShape(w, id, chunk, last);
    ChargedAllow(w.c, id, |chunk|);
  }

  /** What left data went out, and nothing else did. */
  ghost predicate LeftOn(a: Log, b: Log, id: nat, data: seq<byte>, rest: seq<byte>) {
    |rest| <= |data| && SentOn(a, b, id, data[..|data| - |rest|])
  }

  lemma LeftStep(a: Log, b: Log, c: Log, id: nat, data: seq<byte>, n: nat, rest: seq<byte>)
    requires n <= |data| && SentOn(a, b, id, data[..n]) && LeftOn(b, c, id, data[n..], rest)
    ensures LeftOn(a, c, id, data, rest)
  {
    hide SentOn;
    var k := |data[n..]| - |rest|;
    SentTwice(a, b, c, id, data[..n], data[n..][..k]);
    assert data[..n] + data[n..][..k] == data[..n + k];
  }

  lemma {:induction false} EmitLog(w: World, id: nat, data: seq<byte>, end: bool)
    requires id in w.c.streams && WindowsMatch(w, id)
    ensures LeftOn(w.log, EmitData(w, id, data, end).w.log, id, data, EmitData(w, id, data, end).rest)
    decreases |data|
  {
    EmitUnfold(w, id, data, end);
    hide SentOn, WindowsMatch, EmitData, SendData;
    if data == [] || Allow(w.c, w.c.streams[id]) <= 0 {
      SentNothing(w.log, id);
      assert data[..0] == [];
    } else {
      hide LeftOn, ChunkSize;
      var n := ChunkSize(w.c, w.c.streams[id], |data|);
      var last := n == |data| && end;
      var w1 := SendData(w, id, data[..n], last);
      ChunkSent(w, id, data[..n], last);
      EmitLog(w1, id, data[n..], end);
      LeftStep(w.log, w1.log, EmitData(w1, id, data[n..], end).w.log, id, data, n,
               EmitData(w1, id, data[n..], end).rest);
    }
  }

  lemma CoreWindows(w: World, id: nat)
    requires Core(w) == true && id in w.c.streams
    ensures WindowsMatch(w, id)
  {
    hide TallyOf, TotalsOf, Safe, ResponseOk, RequestOk, P.Valid;
    assert IdOk(w.c, id, TallyOf(w.log, id));
  }

  // ----- changing one stream

  /** v is w with one stream replaced and the send window moved. */
  ghost predicate OneChanged(w: World, v: World, id: nat, s: Stream) {
    && id in w.c.streams
    && v.c == w.c.(connSendWindow := v.c.connSendWindow, streams := w.c.streams[id := s])
    && (forall x: nat :: x != id ==> TallyOf(v.log, x) == TallyOf(w.log, x))
  }

  lemma OneChangedTable(w: World, v: World, id: nat, s: Stream)
    requires OneChanged(w, v, id, s) && TableOk(w.c) && HeaderOk(w.c)
    requires s.remoteDone ==> w.c.streams[id].remoteDone || !w.c.hdr.expecting
    ensures TableOk(v.c) && HeaderOk(v.c) && |v.c.streams| == |w.c.streams|
  {
    hide TallyOf, P.Valid, P.Holds;
    assert v.c.streams.Keys == w.c.streams.Keys;
    assert |v.c.streams| == |v.c.streams.Keys| && |w.c.streams| == |w.c.streams.Keys|;
  }

  lemma OneChangedCore(w: World, v: World, id: nat, s: Stream)
    requires Core(w) == true && OneChanged(w, v, id, s)
    requires s.remoteDone ==> w.c.streams[id].remoteDone || !w.c.hdr.expecting
    requires TotalsOk(v.c, TotalsOf(v.log)) && Safe(v.log)
    requires StreamOk(w.c.initSendWindow, s, TallyOf(v.log, id)) && ResponseOk(s, TallyOf(v.log, id))
    ensures Core(v) == true
  {
    OneChangedTable(w, v, id, s);
    hide TallyOf, TotalsOf, TotalsOk, Safe, StreamOk, ResponseOk, HeaderOk, P.Valid, P.Holds;
    forall x: nat ensures IdOk(v.c, x, TallyOf(v.log, x)) {
      assert IdOk(w.c, x, TallyOf(w.log, x));
      if x == id {
        NotUnused(w.c, id);
      }
    }
    hide IdOk, TableOk;
  }

  // ----- after k octets went out

  /** Sending k octets the windows allowed leaves the windows in range and in step with the log. */
  lemma ChargedOk(w: World, log: Log, id: nat, sent: seq<byte>, s: Stream)
    requires Core(w) == true && id in w.c.streams
    requires TotalsOf(log) == TotalsOf(w.log).(out := TotalsOf(w.log).out + |sent|)
    requires TallyOf(log, id).out == TallyOf(w.log, id).out + sent
    requires TallyOf(log, id) == TallyOf(w.log, id).(out := TallyOf(log, id).out, bodies := TallyOf(log, id).bodies)
    requires |sent| > 0 ==> Allow(w.c, w.c.streams[id]) >= |sent|
    requires s == w.c.streams[id].(sendWindow := w.c.streams[id].sendWindow - |sent|, parked := s.parked,
                                   parkedEnd := s.parkedEnd, trailersPending := s.trailersPending)
    ensures StreamOk(w.c.initSendWindow, s, TallyOf(log, id))
    ensures TotalsOk(w.c.(connSendWindow := w.c.connSendWindow - |sent|, streams := w.c.streams[id := s]),
                     TotalsOf(log))
  {
    hide TallyOf, TotalsOf, Safe, ResponseOk, Rules.ValidRequest, Rules.DeclaredLength, P.Valid;
    assert IdOk(w.c, id, TallyOf(w.log, id));
    assert w.c.streams[id := s].Keys == w.c.streams.Keys;
    assert |w.c.streams[id := s]| == |w.c.streams|;
  }

  /** A smaller connection window keeps every other stream's parked octets behind a closed window. */
  lemma OthersStayParked(w: World, v: World, id: nat, s: Stream)
    requires AllParkedOk(w.c) && OneChanged(w, v, id, s) && v.c.connSendWindow <= w.c.connSendWindow
    requires s.parked != [] ==> Allow(v.c, s) <= 0
    ensures AllParkedOk(v.c)
  {
    hide TallyOf;
    forall x: nat ensures ParkedOk(v.c, x) {
      assert ParkedOk(w.c, x);
    }
  }

  lemma WroteBodyTallies(log: Log, id: nat, body: seq<byte>, end: bool)
    ensures var l := Then(log, WroteBody(id, body, end));
            && TallyOf(l, id) == TallyOf(log, id).(bodies := TallyOf(log, id).bodies + body)
            && (forall x: nat :: x != id ==> TallyOf(l, x) == TallyOf(log, x))
            && TotalsOf(l) == TotalsOf(log)
            && (Safe(log) ==> Safe(l))
  {
  }

  lemma Concatenates(out: seq<byte>, parked: seq<byte>, bodies: seq<byte>, body: seq<byte>, k: nat)
    requires out + parked == bodies && k <= |body| && (k > 0 ==> parked == [])
    ensures (out + body[..k]) + (parked + body[k..]) == bodies + body
  {
    assert body[..k] + body[k..] == body;
  }

  /** From w to log: the application wrote body on stream id and its first k octets went out. */
  ghost predicate BodyLogged(w: World, log: Log, id: nat, body: seq<byte>, k: nat) {
    && k <= |body|
    && TallyOf(log, id) ==
       TallyOf(w.log, id).(out := TallyOf(w.log, id).out + body[..k], bodies := TallyOf(w.log, id).bodies + body)
    && (forall x: nat :: x != id ==> TallyOf(log, x) == TallyOf(w.log, x))
    && TotalsOf(log) == TotalsOf(w.log).(out := TotalsOf(w.log).out + k)
    && (Safe(w.log) ==> Safe(log))
  }

  lemma BodyEmittedLog(w: World, id: nat, body: seq<byte>, end: bool)
    requires Core(w) == true && id in w.c.streams
    ensures var e := EmitData(Note(w, WroteBody(id, body, end)), id, body, end);
            |e.rest| <= |body| && BodyLogged(w, e.w.log, id, body, |body| - |e.rest|)
  {
    var w0 := Note(w, WroteBody(id, body, end));
    CoreWindows(w, id);
    hide Core, EmitData, TallyOf, TotalsOf, Safe;
    WroteBodyTallies(w.log, id, body, end);
    assert WindowsMatch(w0, id);
    hide WindowsMatch;
    EmitLog(w0, id, body, end);
  }

  lemma BodyEmitted(w: World, id: nat, body: seq<byte>, end: bool) returns (k: nat)
    requires Core(w) == true && id in w.c.streams
    ensures var e := EmitData(Note(w, WroteBody(id, body, end)), id, body, end);
            && k <= |body| && e.rest == body[k..] && e.w.c == Charged(w.c, id, k)
            && BodyLogged(w, e.w.log, id, body, k)
            && (k > 0 ==> Allow(w.c, w.c.streams[id]) >= k)
            && (k < |body| ==> Allow(w.c, w.c.streams[id]) - k <= 0)
  {
    hide Core, EmitData, Charged, Allow, BodyLogged;
    EmitShape(Note(w, WroteBody(id, body, end)), id, body, end);
    BodyEmittedLog(w, id, body, end);
    k := |body| - |EmitData(Note(w, WroteBody(id, body, end)), id, body, end).rest|;
    ChargedAllow(w.c, id, k);
  }

  /** The stream after a body was written and its unsent rest parked. */
  function WithBody(s: Stream, body: seq<byte>, k: nat, end: bool): Stream
    requires k <= |body|
  {
    s.(sendWindow := s.sendWindow - k,
       parked := s.parked + body[k..],
       parkedEnd := if k < |body| then end else s.parkedEnd)
  }

  lemma BodyResponseOk(s: Stream, t: Tally, t1: Tally, body: seq<byte>, k: nat, end: bool)
    requires ResponseOk(s, t) && body != [] && k <= |body| && (k > 0 ==> s.parked == [])
    requires t1.out == t.out + body[..k] && t1.bodies == t.bodies + body
    ensures ResponseOk(WithBody(s, body, k, end), t1)
  {
    Concatenates(t.out, s.parked, t.bodies, body, k);
  }

  lemma BodyParked(w: World, log: Log, id: nat, body: seq<byte>, k: nat, end: bool)
    requires Inv(w) == true && id in w.c.streams && body != [] && BodyLogged(w, log, id, body, k)
    requires k > 0 ==> Allow(w.c, w.c.streams[id]) >= k
    requires k < |body| ==> Allow(w.c, w.c.streams[id]) - k <= 0
    ensures Inv(World(w.c.(connSendWindow := w.c.connSendWindow - k,
                           streams := w.c.streams[id := WithBody(w.c.streams[id], body, k, end)]), log))
  {
    hide TallyOf, TotalsOf, Safe, TableOk, HeaderOk, StreamOk, TotalsOk;
    var s := w.c.streams[id];
    var s1 := WithBody(s, body, k, end);
    var v := World(w.c.(connSendWindow := w.c.connSendWindow - k, streams := w.c.streams[id := s1]), log);
    assert ParkedOk(w.c, id);
    assert IdOk(w.c, id, TallyOf(w.log, id));
    BodyResponseOk(s, TallyOf(w.log, id), TallyOf(log, id), body, k, end);
    hide Core, AllParkedOk, ResponseOk;
    ChargedOk(w, log, id, body[..k], s1);
    OneChangedCore(w, v, id, s1);
    OthersStayParked(w, v, id, s1);
  }

  lemma EmptyDataTallies(w: World, id: nat, last: bool)
    ensures SameTallies(w.log, Send(w, DataFrame(id, [], last)).log)
  {
    assert forall x: seq<byte> :: x + [] == x;
  }

  lemma EmptyBodyInv(w: World, id: nat, end: bool)
    requires Inv(w) == true && id in w.c.streams
    ensures Inv(WriteBody(w, id, [], end)) == true
  {
    var w0 := Note(w, WroteBody(id, [], end));
    WroteBodyTallies(w.log, id, [], end);
    assert TallyOf(w.log, id).bodies + [] == TallyOf(w.log, id).bodies;
    hide TallyOf, TotalsOf, Safe, Core, Release;
    SameCore(w, w0.log);
    EmptyDataTallies(w0, id, true);
    SameCore(w0, Send(w0, DataFrame(id, [], true)).log);
    hide SameTallies;
    ReleaseInv(Send(w0, DataFrame(id, [], true)), id);
  }

  lemma WithBodyCharged(c: Conn, id: nat, body: seq<byte>, k: nat, end: bool)
    requires id in c.streams && k <= |body|
    ensures var d := Charged(c, id, k);
            var s := d.streams[id];
            var v := c.(connSendWindow := c.connSendWindow - k,
                        streams := c.streams[id := WithBody(c.streams[id], body, k, end)]);
            && (k < |body| ==>
                  v == d.(streams := d.streams[id := s.(parked := s.parked + body[k..], parkedEnd := end)]))
            && (k == |body| ==> v == d)
  {
    var s := c.streams[id];
    var x := s.(sendWindow := s.sendWindow - k);
    var y := WithBody(s, body, k, end);
    if k == |body| {
      assert s.parked + body[k..] == s.parked;
    } else {
      assert c.streams[id := x][id := y] == c.streams[id := y];
    }
  }

  /** A written body leaves the stream with its rest parked, or, all sent and ended, gone. */
  lemma WriteBodyShape(w: World, id: nat, body: seq<byte>, end: bool) returns (k: nat, v: World)
    requires Core(w) == true && id in w.c.streams && body != []
    ensures k <= |body| && BodyLogged(w, v.log, id, body, k)
    ensures k > 0 ==> Allow(w.c, w.c.streams[id]) >= k
    ensures k < |body| ==> Allow(w.c, w.c.streams[id]) - k <= 0
    ensures v.c == w.c.(connSendWindow := w.c.connSendWindow - k,
                        streams := w.c.streams[id := WithBody(w.c.streams[id], body, k, end)])
    ensures var e := EmitData(Note(w, WroteBody(id, body, end)), id, body, end);
            v.log == e.w.log && e.rest == body[k..]
    ensures WriteBody(w, id, body, end) == if k == |body| && end then Release(v, id) else v
  {
    k := BodyEmitted(w, id, body, end);
    var e := EmitData(Note(w, WroteBody(id, body, end)), id, body, end);
    WithBodyCharged(w.c, id, body, k, end);
    hide EmitData, Core, Release, Allow, BodyLogged, Charged, WithBody;
    v := World(w.c.(connSendWindow := w.c.connSendWindow - k,
                    streams := w.c.streams[id := WithBody(w.c.streams[id], body, k, end)]), e.w.log);
  }

  lemma WriteBodyInv(w: World, id: nat, body: seq<byte>, end: bool)
    requires Inv(w) == true
    ensures Inv(WriteBody(w, id, body, end)) == true
  {
    if id in w.c.streams {
      if body == [] {
        EmptyBodyInv(w, id, end);
      } else {
        var k, v := WriteBodyShape(w, id, body, end);
        BodyParked(w, v.log, id, body, k, end);
        hide Inv, WriteBody, Release, BodyLogged;
        if k == |body| && end {
          ReleaseInv(v, id);
        }
      }
    }
  }

  // ----- flushing

  /** The stream once k parked octets went out; an ending no longer waits when nothing does. */
  function WithoutParked(s: Stream, k: nat): Stream
    requires k <= |s.parked|
  {
    var left := k < |s.parked|;
    s.(sendWindow := s.sendWindow - k, parked := s.parked[k..],
       parkedEnd := left && s.parkedEnd, trailersPending := left && s.trailersPending)
  }

  function AfterUnpark(w: World, v: World, id: nat, k: nat): World
    requires id in w.c.streams && k <= |w.c.streams[id].parked|
  {
    var s := w.c.streams[id];
    if k < |s.parked| then v
    else if s.parkedEnd then Release(v, id)
    else if s.trailersPending then WriteBlock(v, id, s.trailers, true)
    else v
  }

  lemma AfterFlushForm(w: World, log: Log, id: nat, k: nat)
    requires id in w.c.streams && k <= |w.c.streams[id].parked|
    ensures var v := World(w.c.(connSendWindow := w.c.connSendWindow - k,
                                streams := w.c.streams[id := WithoutParked(w.c.streams[id], k)]), log);
            AfterFlush(World(Unparked(w.c, id, k), log), id) == AfterUnpark(w, v, id, k)
  {
    hide WriteBlock, P.Remove;
    var c, s := w.c, w.c.streams[id];
    var x := s.(sendWindow := s.sendWindow - k, parked := s.parked[k..]);
    var y := WithoutParked(s, k);
    assert c.streams[id := x] - {id} == c.streams[id := y] - {id};
    assert c.streams[id := x][id := x.(trailersPending := false)] == c.streams[id := x.(trailersPending := false)];
  }

  lemma FlushLog(w: World, id: nat, k: nat)
    requires Core(w) == true && id in w.c.streams && k <= |w.c.streams[id].parked|
    requires var s := w.c.streams[id]; EmitData(w, id, s.parked, s.parkedEnd).rest == s.parked[k..]
    ensures var s := w.c.streams[id]; SentOn(w.log, EmitData(w, id, s.parked, s.parkedEnd).w.log, id, s.parked[..k])
  {
    CoreWindows(w, id);
    hide Core, EmitData, SentOn, WindowsMatch;
    EmitLog(w, id, w.c.streams[id].parked, w.c.streams[id].parkedEnd);
  }

  lemma UnparkResponseOk(s: Stream, t: Tally, t1: Tally, k: nat)
    requires ResponseOk(s, t) && k <= |s.parked|
    requires t1.out == t.out + s.parked[..k] && t1.bodies == t.bodies
    ensures ResponseOk(WithoutParked(s, k), t1)
  {
    assert s.parked[..k] + s.parked[k..] == s.parked;
    assert (t.out + s.parked[..k]) + s.parked[k..] == t.out + (s.parked[..k] + s.parked[k..]);
  }

  lemma UnparkCore(w: World, log: Log, id: nat, k: nat)
    requires Core(w) == true && id in w.c.streams && k <= |w.c.streams[id].parked|
    requires SentOn(w.log, log, id, w.c.streams[id].parked[..k])
    requires k > 0 ==> Allow(w.c, w.c.streams[id]) >= k
    ensures Core(World(w.c.(connSendWindow := w.c.connSendWindow - k,
                            streams := w.c.streams[id := WithoutParked(w.c.streams[id], k)]), log))
  {
    hide TallyOf, TotalsOf, Safe, TableOk, HeaderOk, StreamOk, TotalsOk;
    var s := w.c.streams[id];
    var s1 := WithoutParked(s, k);
    var v := World(w.c.(connSendWindow := w.c.connSendWindow - k, streams := w.c.streams[id := s1]), log);
    assert IdOk(w.c, id, TallyOf(w.log, id));
    UnparkResponseOk(s, TallyOf(w.log, id), TallyOf(log, id), k);
    hide Core, ResponseOk;
    ChargedOk(w, log, id, s.parked[..k], s1);
    OneChangedCore(w, v, id, s1);
  }

  /** Flushing one stream: k parked octets go out, the rest stays behind a closed window. */
  lemma FlushForm(w: World, id: nat) returns (k: nat, v: World)
    requires Core(w) == true && id in w.c.streams
    ensures k <= |w.c.streams[id].parked|
    ensures k > 0 ==> Allow(w.c, w.c.streams[id]) >= k
    ensures k < |w.c.streams[id].parked| ==> Allow(w.c, w.c.streams[id]) - k <= 0
    ensures v.c == w.c.(connSendWindow := w.c.connSendWindow - k,
                        streams := w.c.streams[id := WithoutParked(w.c.streams[id], k)])
    ensures SentOn(w.log, v.log, id, w.c.streams[id].parked[..k])
    ensures var e := EmitData(w, id, w.c.streams[id].parked, w.c.streams[id].parkedEnd);
            v.log == e.w.log && e.rest == w.c.streams[id].parked[k..]
    ensures Flush(w, id) == AfterUnpark(w, v, id, k)
  {
    k := FlushShape(w, id);
    var s := w.c.streams[id];
    var log := EmitData(w, id, s.parked, s.parkedEnd).w.log;
    FlushLog(w, id, k);
    AfterFlushForm(w, log, id, k);
    ChargedAllow(w.c, id, k);
    UnparkedIsCharged(w.c, id, k);
    hide Core, Flush, EmitData, SentOn, AfterFlush, AfterUnpark, WithoutParked, Unparked, Charged, Allow;
    v := World(w.c.(connSendWindow := w.c.connSendWindow - k,
                    streams := w.c.streams[id := WithoutParked(s, k)]), log);
  }

  lemma AfterUnparkCore(w: World, v: World, id: nat, k: nat)
    requires Core(v) == true && id in w.c.streams && k <= |w.c.streams[id].parked|
    ensures Core(AfterUnpark(w, v, id, k)) == true
    ensures var a := AfterUnpark(w, v, id, k).c;
            && a.connSendWindow == v.c.connSendWindow
            && (forall x: nat :: x in a.streams ==> x in v.c.streams && a.streams[x] == v.c.streams[x])
            && (k == |w.c.streams[id].parked| && (w.c.streams[id].parkedEnd || w.c.streams[id].trailersPending) ==>
                  id !in a.streams)
  {
    hide Core, WriteBlock, P.Remove;
    ReleaseCore(v, id);
    WriteBlockCore(v, id, w.c.streams[id].trailers, true);
    WriteBlockShape(v, id, w.c.streams[id].trailers, true);
  }

  /** With k octets gone and the connection window smaller by k, whoever was behind a closed window still is. */
  lemma UnparkParked(c: Conn, id: nat, k: nat, d: Conn, x: nat)
    requires id in c.streams && k <= |c.streams[id].parked| && d.connSendWindow == c.connSendWindow - k
    requires x in d.streams ==>
               x in c.streams && d.streams[x] == if x == id then WithoutParked(c.streams[id], k) else c.streams[x]
    requires k < |c.streams[id].parked| ==> Allow(c, c.streams[id]) - k <= 0
    requires ParkedOk(c, x) || x == id
    ensures ParkedOk(d, x)
  {
  }

  lemma FlushCore(w: World, id: nat)
    requires Core(w) == true
    ensures Core(Flush(w, id)) == true && ParkedOk(Flush(w, id).c, id)
    ensures forall x: nat :: ParkedOk(w.c, x) ==> ParkedOk(Flush(w, id).c, x)
  {
    hide Core;
    if id in w.c.streams {
      var k, v := FlushForm(w, id);
      UnparkCore(w, v.log, id, k);
      AfterUnparkCore(w, v, id, k);
      hide Flush, AfterUnpark, SentOn, WithoutParked, ParkedOk, Allow;
      forall x: nat | ParkedOk(w.c, x) || x == id
        ensures ParkedOk(Flush(w, id).c, x)
      {
        UnparkParked(w.c, id, k, Flush(w, id).c, x);
      }
    }
  }

  lemma {:induction false} FlushAllCore(w: World, ids: seq<nat>)
    requires Core(w) == true
    ensures Core(FlushAll(w, ids)) == true
    ensures forall x: nat :: ParkedOk(w.c, x) || x in ids ==> ParkedOk(FlushAll(w, ids).c, x)
    decreases |ids|
  {
    hide Core, Flush, ParkedOk;
    if ids != [] {
      FlushCore(w, ids[0]);
      FlushAllCore(Flush(w, ids[0]), ids[1..]);
      assert forall x: nat :: x in ids ==> x == ids[0] || x in ids[1..];
    }
  }

  /** A walk over all open streams leaves no octets parked behind an open window. */
  lemma FlushEverything(w: World)
    requires Core(w) == true
    ensures Inv(FlushAll(w, P.Ids(w.c.slots))) == true
  {
    hide FlushAll;
    var v := FlushAll(w, P.Ids(w.c.slots));
    P.IdsExact(w.c.slots);
    FlushAllCore(w, P.Ids(w.c.slots));
    forall x: nat ensures ParkedOk(v.c, x) {
      assert x in P.Ids(w.c.slots) <==> P.Holds(w.c.slots, x);
    }
    hide Core;
  }
}
