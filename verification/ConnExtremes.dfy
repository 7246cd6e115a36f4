// Runs at the edges of what the code promises, each from a new connection: a send window at twice its limit, a full
// table and a refused stream, headers on a stream that is closed, and an id with the reserved bit set (http2/conn.v).
module ConnExtremes {
  import opened Bytes
  import opened Frames
  import opened ConnModel
  import opened ConnLog
  import opened ConnInv
  import opened ConnBlocks
  import opened ConnRuns
  import opened ConnSteps
  import opened ConnIntake
  import opened ConnSpent
  import opened ConnAddress
  import opened ConnPeer
  import opened ConnLimits
  import opened ConnExample
  import opened HpackEncoder
  import HpackBlock
  import P = Probing
  import Rules = RequestRules

  // ----- a window past its limit

  predicate Unburdened(s: Stream) {
    s.parked == [] && !s.parkedEnd && !s.trailersPending
  }

  /** A connection between frames, with stream 1 open and nothing parked on it. */
  predicate Quiet1(w: World, window: int, init: int) {
    && w.c.prefaceSeen && !w.c.hdr.expecting && w.c.lastStream == 1 && w.c.streams.Keys == {1}
    && Unburdened(w.c.streams[1]) && w.c.streams[1].sendWindow == window && w.c.initSendWindow == init
  }

  lemma {:induction false} FlushNothing(w: World, ids: seq<nat>)
    requires forall id: nat :: id in w.c.streams ==> Unburdened(w.c.streams[id])
    ensures FlushAll(w, ids) == w
    decreases |ids|
  {
    hide Flush;
    if ids != [] {
      var id := ids[0];
      if id in w.c.streams {
        NothingParked(w, id);
      } else {
        NotOpen(w, id);
      }
      FlushNothing(w, ids[1..]);
    }
  }

  lemma NotOpen(w: World, id: nat)
    requires id !in w.c.streams
    ensures Flush(w, id) == w
  {
  }

  function InitialFrame(v: u32): Frame {
    SettingsFrame([Setting(SETTING_INITIAL_WINDOW_SIZE, v)])
  }

  lemma OneSetting(c: Conn, v: u32)
    requires v <= MAX_WINDOW
    ensures ApplySettings(c, [Setting(SETTING_INITIAL_WINDOW_SIZE, v)], false) ==
            Applied(WithInitial(c, v), NoError, true)
  {
    hide AdjustWindows;
    var st := Setting(SETTING_INITIAL_WINDOW_SIZE, v);
    assert [st][1..] == [];
  }

  lemma InitialQuiet(w: World, window: int, init: int, v: nat, log: Log)
    requires Quiet1(w, window, init)
    ensures Quiet1(World(WithInitial(w.c, v), log), window + (v - init), v)
  {
  }

  lemma InitialAccepted(w: World, window: int, init: int, v: u32)
    requires Quiet1(w, window, init) && v <= MAX_WINDOW
    ensures var r := OnFrame(Note(w, Received(InitialFrame(v))), InitialFrame(v));
            r.code == NoError && Quiet1(r.w, window + (v - init), v)
  {
    hide WithInitial, ApplySettings, SettingsOf, SettingsBytes, FlushAll, P.Ids, OnData, OnHeaders, OnPriority, OnReset,
         OnPing, OnGoaway, OnWindowUpdate, OnContinuation;
    var ss := [Setting(SETTING_INITIAL_WINDOW_SIZE, v)];
    SettingsRoundTrip(ss);
    var f := InitialFrame(v);
    var w0 := Note(w, Received(f));
    OneSetting(w.c, v);
    var u := Send(World(WithInitial(w.c, v), w0.log), SettingsAckFrame());
    InitialQuiet(w, window, init, v, u.log);
    FlushNothing(u, P.Ids(u.c.slots));
  }

  lemma InitialFed(w: World, window: int, init: int, v: u32)
    requires Quiet1(w, window, init) && v <= MAX_WINDOW
    ensures var p := Perform(w, Feed(Encode(InitialFrame(v))));
            !p.close && Quiet1(p.w, window + (v - init), v)
  {
    hide OnFrame, Perform, SettingsBytes, Encode;
    InitialAccepted(w, window, init, v);
    FrameFed(w, InitialFrame(v));
  }

  lemma CreditAccepted(w: World, window: int, init: int, inc: nat)
    requires Quiet1(w, window, init) && 0 < inc && window + inc <= MAX_WINDOW && inc < 0x8000_0000
    ensures var r := OnFrame(Note(w, Received(WindowUpdateFrame(1, inc))), WindowUpdateFrame(1, inc));
            r.code == NoError && Quiet1(r.w, window + inc, init)
  {
    hide Flush, ReadU32, U32Bytes, OnData, OnHeaders, OnPriority, OnReset, OnSettings, OnPing, OnGoaway, OnContinuation;
    var f := WindowUpdateFrame(1, inc);
    var w0 := Note(w, Received(f));
    U32RoundTrip([], inc, []);
    assert [] + U32Bytes(inc) + [] == U32Bytes(inc);
    var s := w.c.streams[1];
    var w1 := Update(w0, 1, s.(sendWindow := s.sendWindow + inc));
    NothingParked(w1, 1);
  }

  lemma CreditFed(w: World, window: int, init: int, inc: nat)
    requires Quiet1(w, window, init) && 0 < inc && window + inc <= MAX_WINDOW && inc < 0x8000_0000
    ensures var p := Perform(w, Feed(Encode(WindowUpdateFrame(1, inc))));
            !p.close && Quiet1(p.w, window + inc, init)
  {
    hide OnFrame, Perform, U32Bytes, Encode;
    CreditAccepted(w, window, init, inc);
    FrameFed(w, WindowUpdateFrame(1, inc));
  }

  lemma GetQuiet()
    ensures var p := Perform(NewWorld(), Feed(GetBytes()));
            !p.close && Quiet1(p.w, DEFAULT_WINDOW_SIZE, DEFAULT_WINDOW_SIZE)
  {
    hide Perform, GetBytes, GetFields, NewWorld;
    GetConsumed();
  }

  /** A request, an initial window of zero, all the credit there is, and the largest initial window. */
  function OvershootCalls(): seq<Call> {
    [Feed(GetBytes()), Feed(Encode(InitialFrame(0))), Feed(Encode(WindowUpdateFrame(1, MAX_WINDOW))),
     Feed(Encode(InitialFrame(MAX_WINDOW)))]
  }

  lemma FourCalls(a: Call, b: Call, c: Call, d: Call)
    requires !Perform(NewWorld(), a).close
    requires var w1 := Perform(NewWorld(), a).w; !Perform(w1, b).close
    requires var w2 := Perform(Perform(NewWorld(), a).w, b).w; !Perform(w2, c).close
    ensures Run(NewWorld(), [a, b, c]) == Perform(Perform(Perform(NewWorld(), a).w, b).w, c)
    ensures Run(NewWorld(), [a, b, c, d]) == Perform(Perform(Perform(Perform(NewWorld(), a).w, b).w, c).w, d)
  {
    hide Perform, NewWorld, Run;
    assert [] + [a] == [a] && [a] + [b] == [a, b] && [a, b] + [c] == [a, b, c] && [a, b, c] + [d] == [a, b, c, d];
    RunNothing(NewWorld());
    RunSnoc(NewWorld(), [], a);
    RunSnoc(NewWorld(), [a], b);
    RunSnoc(NewWorld(), [a, b], c);
    RunSnoc(NewWorld(), [a, b, c], d);
  }

  /** The bound on stream windows is attained: the code answers none of these frames with an error, and the window ends
      at twice the limit of section 6.9.1, where section 6.9.2 has the last frame refused. */
  lemma RunOvershoots()
    ensures var p := Run(NewWorld(), OvershootCalls());
            !p.close && 1 in p.w.c.streams && p.w.c.streams[1].sendWindow == 2 * MAX_WINDOW
    ensures var w := Run(NewWorld(), OvershootCalls()[..3]).w;
            StrictSettings(w.c, [Setting(SETTING_INITIAL_WINDOW_SIZE, MAX_WINDOW)], false).code == FlowControlError
  {
    hide Perform, NewWorld, Run, GetBytes, Encode, StrictSettings;
    var calls := OvershootCalls();
    GetQuiet();
    var w1 := Perform(NewWorld(), calls[0]).w;
    InitialFed(w1, DEFAULT_WINDOW_SIZE, DEFAULT_WINDOW_SIZE, 0);
    var w2 := Perform(w1, calls[1]).w;
    CreditFed(w2, 0, 0, MAX_WINDOW);
    var w3 := Perform(w2, calls[2]).w;
    InitialFed(w3, MAX_WINDOW, 0, MAX_WINDOW);
    FourCalls(calls[0], calls[1], calls[2], calls[3]);
    assert calls[..3] == [calls[0], calls[1], calls[2]];
    StrictRefuses(w3);
  }

  lemma StrictRefuses(w: World)
    requires Quiet1(w, MAX_WINDOW, 0)
    ensures StrictSettings(w.c, [Setting(SETTING_INITIAL_WINDOW_SIZE, MAX_WINDOW)], false).code == FlowControlError
  {
    var d := WithInitial(w.c, MAX_WINDOW);
    assert 1 in d.streams && d.streams[1].sendWindow > MAX_WINDOW;
  }

  // ----- a full table

  /** Feeding n requests, on streams 1, 3 and so on. */
  function GetCalls(n: nat): seq<Call>
    requires 0 < n <= MAX_CONCURRENT_STREAMS
  {
    if n == 1 then [Feed(GetBytes())] else GetCalls(n - 1) + [Feed(Encode(GetFrame(2 * n - 1)))]
  }

  predicate Crowded(w: World, n: nat) {
    && w.c.prefaceSeen && !w.c.hdr.expecting && w.c.lastStream == 2 * n - 1 && |w.c.streams| == n
    && forall id: nat :: id in w.c.streams ==> id <= w.c.lastStream
  }

  lemma OneMore(c: Conn, d: Conn, id: nat, s: Stream)
    requires id !in c.streams && d.streams == c.streams[id := s] && d.lastStream == id
    requires forall x: nat :: x in c.streams ==> x <= id
    ensures |d.streams| == |c.streams| + 1 && forall x: nat :: x in d.streams ==> x <= d.lastStream
  {
    assert d.streams.Keys == c.streams.Keys + {id};
    assert |d.streams| == |d.streams.Keys| && |c.streams| == |c.streams.Keys|;
  }

  lemma GetFed(w: World, n: nat)
    requires 0 < n < MAX_CONCURRENT_STREAMS && Crowded(w, n)
    ensures var p := Perform(w, Feed(Encode(GetFrame(2 * n + 1))));
            !p.close && Crowded(p.w, n + 1)
  {
    hide OnFrame, Perform, Encode, GetFrame, GetStream, GetFields;
    var id: u31 := 2 * n + 1;
    GetSize(id);
    GetAccepted(w, id);
    FrameFed(w, GetFrame(id));
    OneMore(w.c, OnFrame(Note(w, Received(GetFrame(id))), GetFrame(id)).w.c, id, GetStream(w.c.initSendWindow));
  }

  lemma {:induction false} RunCrowds(n: nat)
    requires 0 < n <= MAX_CONCURRENT_STREAMS
    ensures var p := Run(NewWorld(), GetCalls(n)); !p.close && Crowded(p.w, n)
  {
    hide Perform, NewWorld, Run, GetBytes, Encode, GetFrame, GetStream, GetFields;
    if n == 1 {
      GetConsumed();
      RunNothing(NewWorld());
      RunSnoc(NewWorld(), [], Feed(GetBytes()));
      assert [] + [Feed(GetBytes())] == [Feed(GetBytes())];
    } else {
      RunCrowds(n - 1);
      GetFed(Run(NewWorld(), GetCalls(n - 1)).w, n - 1);
      RunSnoc(NewWorld(), GetCalls(n - 1), Feed(Encode(GetFrame(2 * n - 1))));
    }
  }

  lemma RefusalFinishes(w: World, id: u31)
    requires w.c.hdr == GetAssembly(id, true)
    ensures var r := FinishBlock(w);
            && r.code == NoError && r.w.c.prefaceSeen == w.c.prefaceSeen
            && !r.w.c.hdr.expecting && r.w.c.lastStream == w.c.lastStream
  {
    hide ItemsBytes, GetFields, HpackBlock.DecodeBlock, Rules.ValidRequest, Rules.ValidTrailers, Rules.DeclaredLength,
         Open, Complete;
    GetDecodes(w.c.dec);
  }

  /** A request beyond the limit is refused, and the connection goes on. */
  lemma GetRefused(w: World, id: u31)
    requires !w.c.hdr.expecting && id % 2 == 1 && id > w.c.lastStream && id !in w.c.streams
    requires |w.c.streams| >= MAX_CONCURRENT_STREAMS
    ensures var r := OnFrame(Note(w, Received(GetFrame(id))), GetFrame(id));
            && r.code == NoError && r.w.c.prefaceSeen == w.c.prefaceSeen
            && !r.w.c.hdr.expecting && r.w.c.lastStream == id
  {
    hide ItemsBytes, FinishBlock, StartBlock, OnData, OnPriority, OnReset, OnSettings, OnPing, OnGoaway, OnWindowUpdate,
         OnContinuation;
    GetStarts(w.c, id);
    RefusalFinishes(Note(w, Received(GetFrame(id))).(c := w.c.(hdr := GetAssembly(id, true), lastStream := id)), id);
  }

  lemma GetRefuses(c: Conn, id: u31)
    requires !c.hdr.expecting && id !in c.streams && |c.streams| >= MAX_CONCURRENT_STREAMS
    ensures Refuses(c, GetFrame(id))
  {
    GetSize(id);
    hide ItemsBytes;
  }

  /** The table is filled by requests that are never answered; the next one is refused, and DATA already on its way for
      it closes the connection with STREAM_CLOSED. */
  lemma RunRefuses()
    ensures var w := Run(NewWorld(), GetCalls(MAX_CONCURRENT_STREAMS)).w;
            var f := GetFrame(257);
            && !Run(NewWorld(), GetCalls(MAX_CONCURRENT_STREAMS)).close
            && Refuses(w.c, f) && OnFrame(Note(w, Received(f)), f).code == NoError
    ensures var p := Run(NewWorld(), GetCalls(MAX_CONCURRENT_STREAMS)
                                     + [Feed(Encode(GetFrame(257)))] + [Feed(Encode(DataFrame(257, [], false)))]);
            p.close && p.w.log.Then? && p.w.log.last == Sent(GoawayFrame(257, StreamClosed))
  {
    hide Perform, NewWorld, Run, Encode, GetFrame, GetFields, GetCalls, OnFrame, Refuses, Spent, Inv, IntakeOk,
         GoawayFrame;
    var calls, f, g := GetCalls(MAX_CONCURRENT_STREAMS), GetFrame(257), DataFrame(257, [], false);
    RunCrowds(MAX_CONCURRENT_STREAMS);
    var w := Run(NewWorld(), calls).w;
    GetSize(257);
    GetRefused(w, 257);
    GetRefuses(w.c, 257);
    FrameFed(w, f);
    RunSnoc(NewWorld(), calls, Feed(Encode(f)));
    ReachedOk(calls);
    RefusedReached(w, f);
    var u := OnFrame(Note(w, Received(f)), f).w;
    SpentData(Note(u, Received(g)), g);
    KeepsLast(Note(u, Received(g)), g);
    FrameFed(u, g);
    RunSnoc(NewWorld(), calls + [Feed(Encode(f))], Feed(Encode(g)));
  }

  lemma KeepsLast(w: World, f: Frame)
    requires f.typ == DATA && OnFrame(w, f).code != NoError
    ensures OnFrame(w, f).w.c.lastStream == w.c.lastStream
  {
    hide Complete, Unpad, OnHeaders, OnPriority, OnReset, OnSettings, OnPing, OnGoaway, OnWindowUpdate, OnContinuation;
  }

  // ----- headers for a stream that is closed

  lemma {:induction false} LastAddressed(w: World, calls: seq<Call>, call: Call)
    requires !Run(w, calls).close && AddressedRun(w, calls + [call])
    ensures Addressed(Run(w, calls).w, call)
    decreases |calls|
  {
    hide Perform, Addressed;
    var all := calls + [call];
    if calls != [] {
      assert all[1..] == calls[1..] + [call];
      LastAddressed(Perform(w, calls[0]).w, calls[1..], call);
    }
  }

  lemma ResetAccepted(w: World)
    requires !w.c.hdr.expecting && w.c.lastStream == 1 && w.c.streams.Keys == {1}
    ensures var r := OnFrame(Note(w, Received(RstFrame(1, Cancel))), RstFrame(1, Cancel));
            r.code == NoError && r.w.c.streams == map[]
  {
    hide P.Remove, OnData, OnHeaders, OnPriority, OnSettings, OnPing, OnGoaway, OnWindowUpdate, OnContinuation;
    assert w.c.streams - {1} == map[];
  }

  /** The request, and the client's reset of it. */
  function ResetCalls(): seq<Call> {
    [Feed(GetBytes()), Feed(Encode(RstFrame(1, Cancel)))]
  }

  lemma ResetRun()
    ensures var p := Run(NewWorld(), ResetCalls()); !p.close && p.w.c.streams == map[]
  {
    hide Perform, NewWorld, Run, GetBytes, Encode, OnFrame, GetStream, U32Bytes;
    GetConsumed();
    var a, b := Feed(GetBytes()), Feed(Encode(RstFrame(1, Cancel)));
    var w := Perform(NewWorld(), a).w;
    ResetAccepted(w);
    FrameFed(w, RstFrame(1, Cancel));
    assert [] + [a] == [a] && [a] + [b] == [a, b];
    RunNothing(NewWorld());
    RunSnoc(NewWorld(), [], a);
    RunSnoc(NewWorld(), [a], b);
  }

  /** The client resets its request, and the response's headers go out all the same, on a stream that is closed. */
  lemma RunAnswersClosed()
    ensures !OnOpen(Run(NewWorld(), ResetCalls() + [Headers(1, [], true)]).w.log)
  {
    hide NewWorld, Run, OnOpen, AddressedRun, ResetCalls;
    ResetRun();
    OnOpenIff(ResetCalls() + [Headers(1, [], true)]);
    if AddressedRun(NewWorld(), ResetCalls() + [Headers(1, [], true)]) {
      LastAddressed(NewWorld(), ResetCalls(), Headers(1, [], true));
    }
  }

  // ----- an id with the reserved bit set

  lemma GetPeer()
    ensures var p := Run(NewWorld(), [Feed(GetBytes())]);
            && !p.close && p.w.c.streams.Keys == {1}
            && Inv(p.w) == true && IntakeOk(p.w) == true && PeerOk(p.w) == true
  {
    hide Perform, NewWorld, Run, GetBytes, GetFields, GetStream, Inv, IntakeOk, PeerOk, UnmaskedRun;
    GetConsumed();
    var a := Feed(GetBytes());
    assert [] + [a] == [a];
    RunNothing(NewWorld());
    RunSnoc(NewWorld(), [], a);
    ReachedOk([a]);
    NewWorldInv();
    NewWorldIntake();
    NewWorldPeer();
    FeedUnmasked(NewWorld(), GetBytes());
    RunPeer(NewWorld(), [a]);
  }

  lemma FeedUnmasked(w: World, buf: seq<byte>)
    ensures UnmaskedRun(w, [Feed(buf)])
  {
    hide Perform;
    assert [Feed(buf)][1..] == [];
  }

  /** An abort of 2^31 + 1 resets stream 1 on the wire and leaves it open in the connection. */
  lemma RunMasks()
    ensures var w := Run(NewWorld(), [Feed(GetBytes()), Abort(0x8000_0001, Cancel)]).w;
            1 in w.c.streams && 1 !in ViewOf(w.log).intake.open
  {
    hide Perform, NewWorld, Run, GetBytes, Inv, IntakeOk, PeerOk, ViewOf, Matched, Alike;
    var a, b := Feed(GetBytes()), Abort(0x8000_0001, Cancel);
    GetPeer();
    var w := Run(NewWorld(), [a]).w;
    OkMatched(w);
    PeerShows(w);
    MaskedShows(w, b);
    assert [a] + [b] == [a, b];
    RunSnoc(NewWorld(), [a], b);
  }
}
