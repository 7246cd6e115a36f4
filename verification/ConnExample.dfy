// A connection that serves a request: the run theorems speak of runs that happen, and the calls that cut a response
// short are reached from a new connection (http2/conn.v).
module ConnExample {
  import opened Bytes
  import opened Frames
  import opened HpackTable
  import opened ConnModel
  import opened ConnShapes
  import opened ConnLog
  import opened ConnInv
  import opened ConnSend
  import opened ConnBlocks
  import opened ConnRuns
  import opened ConnEnding
  import opened ConnCuts
  import opened HpackEncoder
  import HpackBlock
  import Segmentation
  import P = Probing
  import Rules = RequestRules

  // ----- a GET request

  /** :method GET, :path /, :scheme http. */
  function GetItems(): seq<Item> {
    [Static(2), Static(4), Static(6)]
  }

  function GetFields(): seq<Field> {
    [StaticField(2), StaticField(4), StaticField(6)]
  }

  /** The request in one HEADERS frame, with END_HEADERS and END_STREAM. */
  function GetFrame(id: u31): Frame {
    Frame(HEADERS, 5, id, ItemsBytes(GetItems()))
  }

  lemma GetText()
    ensures StaticField(2) == Field(Rules.MethodName(), Ascii("GET"))
    ensures StaticField(4) == Field(Rules.PathName(), Ascii("/"))
    ensures StaticField(6) == Field(Rules.SchemeName(), Ascii("http"))
  {
    hide Ascii;
  }

  lemma GetAllowed()
    ensures Rules.FieldsAllowed(GetFields())
  {
    GetText();
    Rules.NamesDistinct();
    assert |Rules.MethodName()| > 0 && |Rules.PathName()| > 0 && |Rules.SchemeName()| > 0;
    hide Ascii, Rules.MethodName, Rules.PathName, Rules.SchemeName, Rules.AuthorityName, Rules.ContentLengthName,
         Rules.TeName, StaticField;
    var fs := GetFields();
    assert Rules.IsPseudo(fs[0]) && Rules.IsPseudo(fs[1]) && Rules.IsPseudo(fs[2]);
    assert Rules.ValidField(fs[0]) && Rules.ValidField(fs[1]) && Rules.ValidField(fs[2]);
  }

  lemma CountThree(a: Field, b: Field, c: Field, n: seq<byte>)
    ensures Rules.Count([a, b, c], n) ==
            (if a.name == n then 1 else 0) + (if b.name == n then 1 else 0) + (if c.name == n then 1 else 0)
  {
    hide Rules.Count;
    Rules.CountSnoc([], a, n);
    Rules.CountSnoc([a], b, n);
    Rules.CountSnoc([a, b], c, n);
    assert Rules.Count([], n) == 0 by { CountNone(n); }
    assert [] + [a] == [a] && [a] + [b] == [a, b] && [a, b] + [c] == [a, b, c];
  }

  lemma CountNone(n: seq<byte>)
    ensures Rules.Count([], n) == 0
  {
  }

  lemma GetIsValid()
    ensures Rules.ValidRequest(GetFields()) && Rules.DeclaredLength(GetFields()) == -1
  {
    GetAllowed();
    GetText();
    Rules.NamesDistinct();
    assert Ascii("GET") != Rules.Connect();
    hide Ascii, Rules.MethodName, Rules.PathName, Rules.SchemeName, Rules.AuthorityName, Rules.FieldsAllowed,
         StaticField, Rules.Count, Rules.Connect, Rules.ContentLengthName;
    var fs := GetFields();
    CountThree(fs[0], fs[1], fs[2], Rules.MethodName());
    CountThree(fs[0], fs[1], fs[2], Rules.PathName());
    CountThree(fs[0], fs[1], fs[2], Rules.SchemeName());
    CountThree(fs[0], fs[1], fs[2], Rules.AuthorityName());
    Rules.DeclaredLengthMeaning(fs);
  }

  lemma GetDecodes(t: Table)
    ensures HpackBlock.DecodeBlock(t, ItemsBytes(GetItems())) == HpackBlock.Decoded(t, GetFields(), true)
  {
    GetLengths();
    hide *;
    EncoderRoundTrip(t, GetItems());
  }

  lemma GetLengths()
    ensures AllValid(GetItems()) == true && ItemFields(GetItems()) == GetFields()
    ensures FieldsLength(ItemFields(GetItems())) <= HpackBlock.MAX_DECODED_BLOCK
  {
    assert GetItems()[1..][1..][1..] == [];
    var fs := ItemFields(GetItems());
    assert fs == GetFields();
    assert fs[1..][1..][1..] == [];
  }

  lemma GetOctets()
    ensures ItemsBytes(GetItems()) == [0x82, 0x84, 0x86]
  {
    HpackBlock.Powers();
    hide Pow2;
    assert GetItems()[1..][1..][1..] == [];
  }

  /** The open stream the request leaves, waiting for its response. */
  function GetStream(window: int): Stream {
    FreshStream(window).(headers := GetFields(), remoteDone := true)
  }

  /** The frame opens a new stream, below the limit, and surfaces the request. */
  lemma GetAccepted(w: World, id: u31)
    requires !w.c.hdr.expecting && id % 2 == 1 && id > w.c.lastStream && id !in w.c.streams
    requires |w.c.streams| < MAX_CONCURRENT_STREAMS
    ensures var r := OnFrame(Note(w, Received(GetFrame(id))), GetFrame(id));
            && r.code == NoError && !r.w.c.hdr.expecting && r.w.c.lastStream == id
            && r.w.c.prefaceSeen == w.c.prefaceSeen
            && r.w.c.streams == w.c.streams[id := GetStream(w.c.initSendWindow)]
            && r.w.c.connSendWindow == w.c.connSendWindow && r.w.c.initSendWindow == w.c.initSendWindow
            && r.w.log == Then(Then(Then(w.log, Received(GetFrame(id))), Opened(id)),
                               Surfaced(Request(id, GetFields(), [])))
  {
    hide ItemsBytes, GetFields, GetStream, FinishBlock, StartBlock, OnData, OnPriority, OnReset, OnSettings, OnPing,
         OnGoaway, OnWindowUpdate, OnContinuation;
    GetStarts(w.c, id);
    GetOpened(Note(w, Received(GetFrame(id))).(c := w.c.(hdr := GetAssembly(id, false), lastStream := id)), id);
  }

  /** The block the frame brings, whole. */
  function GetAssembly(id: u31, refused: bool): Assembly {
    Assembly(true, id, true, refused, false, false, ItemsBytes(GetItems()))
  }

  lemma GetStarts(c: Conn, id: u31)
    requires id % 2 == 1 && id > c.lastStream && id !in c.streams
    ensures StartBlock(c, GetFrame(id)) == Begin(GetAssembly(id, |c.streams| >= MAX_CONCURRENT_STREAMS), id)
  {
    hide ItemsBytes;
    var f := GetFrame(id);
    assert f.payload[0..|f.payload|] == f.payload;
  }

  lemma GetOpened(w: World, id: u31)
    requires w.c.hdr == GetAssembly(id, false) && id !in w.c.streams
    ensures var r := FinishBlock(w);
            && r.code == NoError && !r.w.c.hdr.expecting && r.w.c.lastStream == w.c.lastStream
            && r.w.c.prefaceSeen == w.c.prefaceSeen
            && r.w.c.streams == w.c.streams[id := GetStream(w.c.initSendWindow)]
            && r.w.c.connSendWindow == w.c.connSendWindow && r.w.c.initSendWindow == w.c.initSendWindow
            && r.w.log == Then(Then(w.log, Opened(id)), Surfaced(Request(id, GetFields(), [])))
  {
    hide ItemsBytes, GetFields, HpackBlock.DecodeBlock, Rules.ValidRequest, Rules.DeclaredLength, P.Put;
    GetDecodes(w.c.dec);
    GetIsValid();
    var s := FreshStream(w.c.initSendWindow).(headers := GetFields());
    assert w.c.streams[id := s][id := s.(remoteDone := true)] == w.c.streams[id := s.(remoteDone := true)];
  }

  // ----- feeding frames

  lemma FrameTurn(w: World, f: Frame)
    requires |f.payload| <= DEFAULT_MAX_FRAME_SIZE && f.typ <= CONTINUATION
    ensures Segmentation.Turn(w, Encode(f)) ==
            var r := OnFrame(Note(w, Received(f)), f);
            Some(if r.code != NoError then Closing(r.w, r.code, |Encode(f)|) else Consumed(r.w, |Encode(f)|, false))
  {
    hide OnFrame, ParseFrameHeader, FrameHeaderBytes;
    HeaderRoundTrip(f.typ, f.flags, f.id, |f.payload|, f.payload);
    assert Encode(f)[FRAME_HEADER_LEN..FRAME_HEADER_LEN + |f.payload|] == f.payload;
  }

  lemma NoTurn(w: World)
    ensures Segmentation.Turn(w, []) == None
  {
  }

  /** A buffer that holds one frame and nothing else. */
  lemma FrameAlone(w: World, f: Frame)
    requires |f.payload| <= DEFAULT_MAX_FRAME_SIZE && f.typ <= CONTINUATION
    ensures var r := OnFrame(Note(w, Received(f)), f);
            ConsumeFrames(w, Encode(f)) == if r.code != NoError then Closing(r.w, r.code, |Encode(f)|)
                                           else Consumed(r.w, |Encode(f)|, false)
  {
    hide OnFrame, Encode, Segmentation.Turn, ConsumeFrames, GoawayFrame;
    FrameTurn(w, f);
    var buf := Encode(f);
    Segmentation.TurnUnfold(w, buf);
    var r := OnFrame(Note(w, Received(f)), f);
    if r.code == NoError {
      assert buf[|buf|..] == [];
      NoTurn(r.w);
      Segmentation.TurnUnfold(r.w, []);
    }
  }

  /** What feeding a connection one frame does. */
  ghost function Answer(w: World, f: Frame): Performed
    requires f.typ <= CONTINUATION
  {
    var r := OnFrame(Note(w, Received(f)), f);
    if r.code == NoError then Performed(r.w, false)
    else Performed(Send(r.w, GoawayFrame(r.w.c.lastStream, r.code)), true)
  }

  lemma FrameFed(w: World, f: Frame)
    requires w.c.prefaceSeen && |f.payload| <= DEFAULT_MAX_FRAME_SIZE && f.typ <= CONTINUATION
    ensures Perform(w, Feed(Encode(f))) == Answer(w, f)
  {
    hide OnFrame, Encode, ConsumeFrames, GoawayFrame;
    FrameAlone(w, f);
  }

  /** What a client sends first: the end of its preface and the request. */
  function GetBytes(): seq<byte> {
    PREFACE_TAIL + Encode(GetFrame(1))
  }

  lemma GetSize(id: u31)
    ensures GetFrame(id).typ == HEADERS && GetFrame(id).id == id && |GetFrame(id).payload| == 3
  {
    hide ItemsBytes;
    GetOctets();
  }

  lemma GetConsumed()
    ensures var p := Perform(NewWorld(), Feed(GetBytes()));
            && !p.close && p.w.c.prefaceSeen && !p.w.c.hdr.expecting && p.w.c.lastStream == 1
            && p.w.c.streams == map[1 := GetStream(DEFAULT_WINDOW_SIZE)]
            && p.w.c.connSendWindow == DEFAULT_WINDOW_SIZE && p.w.c.initSendWindow == DEFAULT_WINDOW_SIZE
            && p.w.log == Then(Then(Then(Nothing, Received(GetFrame(1))), Opened(1)),
                               Surfaced(Request(1, GetFields(), [])))
  {
    hide OnFrame, Encode, GetFrame, GetFields, GetStream, ConsumeFrames, Ascii;
    GetSize(1);
    var w := NewWorld().(c := NewConn().(prefaceSeen := true));
    GetAccepted(w, 1);
    FrameAlone(w, GetFrame(1));
    assert map[][1 := GetStream(DEFAULT_WINDOW_SIZE)] == map[1 := GetStream(DEFAULT_WINDOW_SIZE)];
    assert GetBytes()[..|PREFACE_TAIL|] == PREFACE_TAIL && GetBytes()[|PREFACE_TAIL|..] == Encode(GetFrame(1));
  }

  // ----- responses cut short

  /** A stream whose response may go on: nothing asked to end it. */
  ghost predicate Going(w: World, id: nat) {
    && Inv(w) == true && EndsOk(w) == true
    && id in w.c.streams && !w.c.streams[id].parkedEnd && !w.c.streams[id].trailersPending
  }

  lemma GoingOn(w: World, id: nat)
    requires Going(w, id) == true
    ensures !EndingOf(w.log, id).asked
  {
    EndOf(w, id);
    hide Inv, EndsOk, EndsBut, TallyOf, EndingOf;
  }

  /** A body that is not the last: part of it goes out, as far as the windows let it, and the rest is parked. */
  lemma BodyGoesOn(w: World, id: u32, body: seq<byte>) returns (k: nat)
    requires Going(w, id) == true && body != []
    ensures var p := Perform(w, Body(id, body, false));
            var s := w.c.streams[id];
            && !p.close && Going(p.w, id) == true
            && k <= |body| && (k > 0 ==> k <= Allow(w.c, s)) && (k < |body| ==> Allow(w.c, s) <= k)
            && p.w.c.connSendWindow == w.c.connSendWindow - k
            && p.w.c.streams[id] == WithBody(s, body, k, false)
  {
    hide Inv, Core, EndsOk, TallyOf, EndingOf, WriteBody, EmitData, Release, BodyLogged, Allow;
    GoingOn(w, id);
    WriteBodyInv(w, id, body, false);
    FullBodyEnds(w, id, body, false);
    CoreOf(w);
    var v;
    k, v := WriteBodyShape(w, id, body, false);
  }

  lemma GetGoing()
    ensures Going(Perform(NewWorld(), Feed(GetBytes())).w, 1) == true
    ensures Allow(Perform(NewWorld(), Feed(GetBytes())).w.c, GetStream(DEFAULT_WINDOW_SIZE)) == DEFAULT_WINDOW_SIZE
  {
    GetConsumed();
    NewWorldInv();
    NewWorldEnds();
    hide Inv, EndsOk, Perform, NewWorld, GetBytes, GetFields, GetFrame;
    PerformGood(NewWorld(), Feed(GetBytes()));
    PerformEnds(NewWorld(), Feed(GetBytes()));
  }

  /** Octets enough to close both windows of the new stream. */
  function Window(): (r: seq<byte>)
    ensures |r| == DEFAULT_WINDOW_SIZE
  {
    seq(DEFAULT_WINDOW_SIZE, _ => 0)
  }

  /** The request, a body that closes the windows, and one octet more, which is parked. */
  function ParkingCalls(): seq<Call> {
    [Feed(GetBytes()), Body(1, Window(), false), Body(1, [0], false)]
  }

  lemma RunNothing(w: World)
    ensures Run(w, []) == Performed(w, false)
  {
  }

  lemma {:induction false} RunSnoc(w: World, calls: seq<Call>, call: Call)
    requires !Run(w, calls).close
    ensures Run(w, calls + [call]) == Perform(Run(w, calls).w, call)
    decreases |calls|
  {
    hide Perform;
    var all := calls + [call];
    if calls == [] {
      assert all[1..] == [];
    } else {
      assert all[1..] == calls[1..] + [call];
      RunSnoc(Perform(w, calls[0]).w, calls[1..], call);
    }
  }

  lemma Parked()
    ensures var p := Run(NewWorld(), ParkingCalls());
            !p.close && Going(p.w, 1) == true && p.w.c.streams[1].parked == [0]
  {
    GetConsumed();
    GetGoing();
    hide Inv, EndsOk, GetBytes, GetFields, GetFrame, NewWorld, Window, Perform, Run;
    var w1 := Perform(NewWorld(), Feed(GetBytes())).w;
    var k := BodyGoesOn(w1, 1, Window());
    var w2 := Perform(w1, Body(1, Window(), false)).w;
    assert k == DEFAULT_WINDOW_SIZE && w2.c.streams[1].parked == [] && Allow(w2.c, w2.c.streams[1]) == 0;
    var n := BodyGoesOn(w2, 1, [0]);
    var w3 := Perform(w2, Body(1, [0], false)).w;
    assert n == 0 && [] + [0][0..] == [0];
    var calls := ParkingCalls();
    assert [] + [calls[0]] == [calls[0]] && [calls[0]] + [calls[1]] == [calls[0], calls[1]];
    assert [calls[0], calls[1]] + [calls[2]] == calls;
    RunNothing(NewWorld());
    RunSnoc(NewWorld(), [], calls[0]);
    RunSnoc(NewWorld(), [calls[0]], calls[1]);
    RunSnoc(NewWorld(), [calls[0], calls[1]], calls[2]);
  }

  /** From a new connection, a run that every peer and application can make ends a response without its last octet:
      an empty final body does it, and so do final headers. */
  lemma RunsTruncate()
    ensures Truncated(Run(NewWorld(), ParkingCalls() + [Body(1, [], true)]).w, 1)
    ensures Truncated(Run(NewWorld(), ParkingCalls() + [Headers(1, [], true)]).w, 1)
  {
    Parked();
    hide ParkingCalls, NewWorld, Inv, EndsOk, Truncated, Run, Perform;
    var w := Run(NewWorld(), ParkingCalls()).w;
    RunSnoc(NewWorld(), ParkingCalls(), Body(1, [], true));
    RunSnoc(NewWorld(), ParkingCalls(), Headers(1, [], true));
    CallTruncatesIff(w, Body(1, [], true), 1);
    CallTruncatesIff(w, Headers(1, [], true), 1);
  }

  /** And a run that surfaces a request, on a stream that stays open for its response. */
  lemma RunServes()
    ensures var p := Run(NewWorld(), [Feed(GetBytes())]);
            && !p.close && Requests(p.w.log) == [Request(1, GetFields(), [])]
            && p.w.c.streams == map[1 := GetStream(DEFAULT_WINDOW_SIZE)]
  {
    GetConsumed();
    hide GetBytes, GetFields, GetFrame, NewWorld, Perform, GetStream;
    var calls := [Feed(GetBytes())];
    assert calls[1..] == [];
    assert Requests(Nothing) == [];
  }
}
