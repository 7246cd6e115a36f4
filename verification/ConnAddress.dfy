// Which stream a response goes out on: bodies and trailers test that it is open, headers do not (http2/conn.v).
module ConnAddress {
  import opened Bytes
  import opened Frames
  import opened ConnModel
  import opened ConnShapes
  import opened ConnLog
  import opened ConnInv
  import opened ConnRuns
  import opened ConnSteps
  import opened ConnHops
  import opened ConnIntake
  import HeaderFrames

  /** Every HEADERS, CONTINUATION and DATA frame went out on a stream that was open at that moment. */
  ghost predicate OnOpen(log: Log) {
    match log
    case Nothing => true
    case Then(before, Sent(f)) => OnOpen(before) && (!Control(f) ==> f.id in IntakeOf(before).open)
    case Then(before, _) => OnOpen(before)
  }

  /** Headers are written for a stream that is open. */
  predicate Addressed(w: World, call: Call) {
    call.Headers? ==> call.id % 0x8000_0000 in w.c.streams
  }

  ghost predicate AddressedRun(w: World, calls: seq<Call>)
    decreases |calls|
  {
    calls != [] ==>
      && Addressed(w, calls[0])
      && (!Perform(w, calls[0]).close ==> AddressedRun(Perform(w, calls[0]).w, calls[1..]))
  }

  // ----- frames written

  lemma {:induction false} SendAllAddressed(w: World, fs: seq<Frame>, x: nat)
    requires Matched(w) == true && forall i :: 0 <= i < |fs| ==> fs[i].id == x && Plain(fs[i]) && !Control(fs[i])
    ensures OnOpen(SendAll(w, fs).log) <==> OnOpen(w.log) && (fs == [] || x in w.c.streams)
    decreases |fs|
  {
    if fs != [] {
      hide IntakeAfter, Still;
      var v := Send(w, fs[0]);
      assert OnOpen(v.log) <==> OnOpen(w.log) && x in IntakeOf(w.log).open;
      StillNote(w, Sent(fs[0]));
      StillMatched(w, v);
      hide IntakeOf;
      SendAllAddressed(v, fs[1..], x);
    }
  }

  lemma ReleaseAddressed(w: World, id: nat)
    ensures OnOpen(Release(w, id).log) <==> OnOpen(w.log)
  {
    hide IntakeOf;
  }

  lemma BlockAddressed(w: World, id: nat, block: seq<byte>, end: bool)
    requires Matched(w) == true
    ensures OnOpen(WriteBlock(w, id, block, end).log) <==> OnOpen(w.log) && id % 0x8000_0000 in w.c.streams
  {
    hide IntakeOf, Matched, OnOpen, Release, BlockFrames;
    var max := w.c.peerMaxFrame;
    var fs := BlockFrames(id, block, end, max);
    BlockFits(id, block, end, max);
    HeaderFrames.BlockFramesShape(id, block, end, max);
    SendAllAddressed(w, fs, id % 0x8000_0000);
    ReleaseAddressed(SendAll(w, fs), id);
  }

  lemma ChunkAddressed(w: World, id: nat, chunk: seq<byte>, last: bool)
    requires Matched(w) == true && id in w.c.streams && OnOpen(w.log)
    ensures OnOpen(SendData(w, id, chunk, last).log)
  {
    hide IntakeAfter;
    MatchedId(w, id);
  }

  lemma StepAddressed(w: World, step: Step)
    requires Matched(w) == true && Legal(w, step) && OnOpen(w.log)
    ensures OnOpen(Do(w, step).log)
  {
    hide IntakeOf, Matched, Release, WriteBlock, SendData, KeepsRequests;
    match step
    case Wrote(e) =>
    case Cut(id, code) => ReleaseAddressed(Send(w, RstFrame(id, code)), id);
    case Tail(id, block) => BlockAddressed(w, id, block, true);
    case Chunk(id, chunk) => ChunkAddressed(w, id, chunk, false);
    case Final(id, chunk) =>
      ChunkAddressed(w, id, chunk, true);
      ReleaseAddressed(SendData(w, id, chunk, true), id);
    case Keep(c) =>
  }

  lemma {:induction false} StepsAddressed(w: World, steps: seq<Step>, v: World)
    requires Matched(w) == true && Leads(w, steps, v) == true && OnOpen(w.log)
    ensures OnOpen(v.log)
    decreases |steps|
  {
    hide IntakeOf, Matched, OnOpen, Still, Legal, Do;
    if steps != [] {
      var u := Do(w, steps[0]);
      StepAddressed(w, steps[0]);
      StillStep(w, steps[0]);
      StillMatched(w, u);
      StepsAddressed(u, steps[1..], v);
    }
  }

  lemma {:induction false} ControlsAddressed(a: Log, b: Log)
    requires Controls(a, b) && OnOpen(a)
    ensures OnOpen(b)
    decreases b
  {
    hide IntakeOf;
    if b != a {
      ControlsAddressed(a, b.before);
    }
  }

  // ----- runs

  /** The state between what a frame changes and what it lets through. */
  lemma SteppedMatched(w: World, f: Frame, u: World)
    requires Matched(w) == true && Stepped(f) && KeepsRequests(w.c, u.c)
    requires u.log == if f.typ == SETTINGS then Then(Then(w.log, Received(f)), Sent(SettingsAckFrame()))
                      else Then(w.log, Received(f))
    ensures Matched(u) == true
  {
    hide IntakeOf, Matched, Still, KeepsRequests;
    var w0 := Note(w, Received(f));
    StillNote(w, Received(f));
    StillMatched(w, w0);
    StillKeep(w0, u.c);
    StillMatched(w0, World(u.c, w0.log));
    StillNote(World(u.c, w0.log), Sent(SettingsAckFrame()));
    StillMatched(World(u.c, w0.log), Send(World(u.c, w0.log), SettingsAckFrame()));
  }

  lemma FrameAddressed(w: World, f: Frame)
    requires Inv(w) == true && IntakeOk(w) == true && OnOpen(w.log)
    requires f.typ <= CONTINUATION && OnFrame(Note(w, Received(f)), f).code == NoError
    ensures OnOpen(OnFrame(Note(w, Received(f)), f).w.log)
  {
    hide Inv, IntakeOf, IntakeOk, Matched, OnOpen, Leads, Controls, OnFrame, KeepsRequests, Stepped;
    var u, steps := FrameSteps(w, f);
    ControlsAddressed(w.log, u.log);
    if Stepped(f) {
      OkMatched(w);
      SteppedMatched(w, f, u);
      StepsAddressed(u, steps, OnFrame(Note(w, Received(f)), f).w);
    }
  }

  lemma {:induction false} FedAddressed(w: World, hops: seq<Hop>, v: World)
    requires Inv(w) == true && IntakeOk(w) == true && OnOpen(w.log) && Path(w, hops, v) && Fed(hops)
    ensures OnOpen(v.log)
    decreases |hops|
  {
    hide Inv, IntakeOf, IntakeOk, OnFrame, Perform;
    if hops != [] {
      assert !hops[0].Make?;
      match hops[0] {
        case Accept(f) => FrameAddressed(w, f);
        case _ =>
      }
      HopInv(w, hops[0]);
      HopIntake(w, hops[0]);
      hide Fits, Take, OnOpen;
      FedAddressed(Take(w, hops[0]), hops[1..], v);
    }
  }

  lemma LeavesAddressed(a: Log, b: Log)
    requires Leaves(a, b) && OnOpen(a)
    ensures OnOpen(b)
  {
    hide IntakeOf;
  }

  lemma FeedAddressed(w: World, call: Call)
    requires Inv(w) == true && IntakeOk(w) == true && OnOpen(w.log) && call.Feed?
    ensures OnOpen(Perform(w, call).w.log)
  {
    hide Inv, IntakeOk, OnOpen, Path, Leaves, Perform;
    var hops, v := PerformHops(w, call);
    FedAddressed(w, hops, v);
    if Perform(w, call).close {
      LeavesAddressed(v.log, Perform(w, call).w.log);
    }
  }

  lemma PrefaceAddressed(w: World)
    requires OnOpen(w.log)
    ensures OnOpen(Send(w, SettingsFrame(ServerSettings())).log)
  {
    assert SettingsFrame(ServerSettings()).typ == SETTINGS;
    hide IntakeOf, SettingsFrame;
  }

  /** Of all calls, exactly a header call for a stream that is not open sends on one. */
  lemma CallAddressed(w: World, call: Call)
    requires Inv(w) == true && IntakeOk(w) == true && OnOpen(w.log)
    ensures OnOpen(Perform(w, call).w.log) <==> Addressed(w, call)
  {
    hide Inv, IntakeOk, OnOpen, Matched, Leads, Consume, WriteBlock, WriteBody, WriteTrailers, Release, SettingsFrame;
    OkMatched(w);
    match call
    case Feed(_) => FeedAddressed(w, call);
    case Preface => PrefaceAddressed(w);
    case Headers(id, block, end) => HeadersAddressed(w, id, block, end);
    case _ =>
      Ids31(w);
      var steps := CallSteps(w, call);
      StepsAddressed(w, steps, Perform(w, call).w);
  }

  lemma HeadersAddressed(w: World, id: nat, block: seq<byte>, end: bool)
    requires Matched(w) == true && OnOpen(w.log)
    ensures OnOpen(WriteBlock(Note(w, WroteHeaders(id, end)), id, block, end).log) <==> id % 0x8000_0000 in w.c.streams
  {
    hide IntakeOf, Matched, Still, WriteBlock;
    var w0 := Note(w, WroteHeaders(id, end));
    StillNote(w, WroteHeaders(id, end));
    StillMatched(w, w0);
    BlockAddressed(w0, id, block, end);
  }

  lemma {:induction false} PrefixAddressed(a: Log, b: Log)
    requires IsPrefix(a, b) && OnOpen(b)
    ensures OnOpen(a)
    decreases b
  {
    hide IntakeOf;
    if b != a {
      PrefixAddressed(a, b.before);
    }
  }

  lemma {:induction false} RunAddressed(w: World, calls: seq<Call>)
    requires Inv(w) == true && IntakeOk(w) == true && OnOpen(w.log)
    ensures OnOpen(Run(w, calls).w.log) <==> AddressedRun(w, calls)
    decreases |calls|
  {
    hide Inv, IntakeOk, OnOpen, Perform, Addressed, Safe;
    if calls != [] {
      var p := Perform(w, calls[0]);
      CallAddressed(w, calls[0]);
      if !p.close {
        PerformGood(w, calls[0]);
        PerformIntake(w, calls[0]);
        if Addressed(w, calls[0]) {
          RunAddressed(p.w, calls[1..]);
        } else {
          RunGrows(p.w, calls[1..]);
          if OnOpen(Run(p.w, calls[1..]).w.log) {
            PrefixAddressed(p.w.log, Run(p.w, calls[1..]).w.log);
          }
        }
      }
    }
  }

  /** In every run the frames of responses go out on open streams if and only if the application writes headers for
      open streams only. */
  lemma OnOpenIff(calls: seq<Call>)
    ensures OnOpen(Run(NewWorld(), calls).w.log) <==> AddressedRun(NewWorld(), calls)
  {
    NewWorldInv();
    NewWorldIntake();
    assert OnOpen(NewWorld().log);
    hide Inv, IntakeOk, Run, NewWorld, OnOpen, AddressedRun;
    RunAddressed(NewWorld(), calls);
  }
}
