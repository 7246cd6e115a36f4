// Every run is a sequence of hops: a frame accepted, a frame of unknown type passed over, the client's preface, or a
// call of the application; a run that closes ends with a GOAWAY behind them (http2/conn.v). A property that every hop
// keeps holds of every run, however the octets were cut into reads.
module ConnHops {
  import opened Bytes
  import opened Frames
  import opened ConnModel
  import opened ConnShapes
  import opened ConnLog
  import opened ConnInv
  import opened ConnBlocks
  import opened ConnRuns
  import opened ConnSteps
  import Segmentation

  datatype Hop = Accept(f: Frame) | Skip(f: Frame) | Greet | Make(call: Call)

  ghost predicate Fits(w: World, hop: Hop) {
    match hop
    case Accept(f) =>
      && f.typ <= CONTINUATION && |f.payload| <= DEFAULT_MAX_FRAME_SIZE
      && OnFrame(Note(w, Received(f)), f).code == NoError
    case Skip(f) => f.typ > CONTINUATION
    case Greet => true
    case Make(call) => !call.Feed?
  }

  ghost function Take(w: World, hop: Hop): World
    requires Fits(w, hop)
  {
    match hop
    case Accept(f) => OnFrame(Note(w, Received(f)), f).w
    case Skip(f) => Note(w, Received(f))
    case Greet => w.(c := w.c.(prefaceSeen := true))
    case Make(call) => Perform(w, call).w
  }

  /** The hops lead from w to v. */
  ghost predicate Path(w: World, hops: seq<Hop>, v: World)
    decreases |hops|
  {
    if hops == [] then v == w else Fits(w, hops[0]) && Path(Take(w, hops[0]), hops[1..], v)
  }

  /** The connection closed: a GOAWAY was written, perhaps on a frame that was not accepted. */
  ghost predicate Leaves(a: Log, b: Log) {
    && b.Then? && b.last.Sent? && b.last.f.typ == GOAWAY
    && (b.before == a || (b.before.Then? && b.before.before == a && b.before.last.Received?))
  }

  /** The hops lead to v, and from there the connection is left at u: open, or closed. */
  ghost predicate Ends(w: World, hops: seq<Hop>, v: World, u: World, close: bool) {
    Path(w, hops, v) && if close then Leaves(v.log, u.log) else u == v
  }

  lemma HopInv(w: World, hop: Hop)
    requires Inv(w) == true && Fits(w, hop)
    ensures Inv(Take(w, hop)) == true
  {
    hide Inv, Safe, OnFrame, Perform;
    match hop
    case Accept(f) => FrameInv(w, f);
    case Skip(f) => UnknownInv(w, f);
    case Greet => PrefaceInv(w);
    case Make(call) =>
      PerformGood(w, call);
      CallStaysOpen(w, call);
  }

  lemma CallStaysOpen(w: World, call: Call)
    requires !call.Feed?
    ensures !Perform(w, call).close
  {
    hide WriteBlock, WriteBody, WriteTrailers, Release, Consume;
  }

  lemma {:induction false} PathTwice(u: World, a: seq<Hop>, v: World, b: seq<Hop>, w: World)
    requires Path(u, a, v) && Path(v, b, w)
    ensures Path(u, a + b, w)
    decreases |a|
  {
    hide Fits, Take;
    if a == [] {
      assert a + b == b;
    } else {
      PathTwice(Take(u, a[0]), a[1..], v, b, w);
      assert (a + b)[1..] == a[1..] + b;
    }
  }

  lemma OneHop(w: World, hop: Hop)
    requires Fits(w, hop)
    ensures Path(w, [hop], Take(w, hop))
  {
    hide Fits, Take;
    assert [hop][1..] == [];
  }

  /** Hops that octets received amount to. */
  predicate Fed(hops: seq<Hop>) {
    forall i :: 0 <= i < |hops| ==> !hops[i].Make?
  }

  /** One turn of the frame loop is one hop, or the end. */
  lemma TurnHop(w: World, buf: seq<byte>) returns (hops: seq<Hop>, v: World)
    requires Segmentation.Turn(w, buf).Some?
    ensures var t := Segmentation.Turn(w, buf).value; Ends(w, hops, v, t.w, t.close) && Fed(hops)
  {
    hide OnFrame, Path, Join3, Join4;
    var h := ParseFrameHeader(buf).value;
    var total := FRAME_HEADER_LEN + h.length;
    hops, v := [], w;
    assert Path(w, [], w) by { NoHops(w); }
    if h.length <= DEFAULT_MAX_FRAME_SIZE {
      var f := Frame(h.typ, h.flags, h.id, buf[FRAME_HEADER_LEN..total]);
      if f.typ <= CONTINUATION {
        var r := OnFrame(Note(w, Received(f)), f);
        if r.code == NoError {
          OneHop(w, Accept(f));
          hops, v := [Accept(f)], r.w;
        } else {
          FrameErrorLog(Note(w, Received(f)), f);
        }
      } else if !w.c.hdr.expecting {
        OneHop(w, Skip(f));
        hops, v := [Skip(f)], Note(w, Received(f));
      }
    }
  }

  lemma NoHops(w: World)
    ensures Path(w, [], w)
  {
  }

  lemma EndsLater(w: World, a: seq<Hop>, v: World, b: seq<Hop>, x: World, u: World, close: bool)
    requires Path(w, a, v) && Ends(v, b, x, u, close)
    ensures Ends(w, a + b, x, u, close)
  {
    hide Path;
    PathTwice(w, a, v, b, x);
  }

  lemma {:induction false} ConsumeFramesHops(w: World, buf: seq<byte>) returns (hops: seq<Hop>, v: World)
    ensures Ends(w, hops, v, ConsumeFrames(w, buf).w, ConsumeFrames(w, buf).close) && Fed(hops)
    decreases |buf|
  {
    hide Path, ConsumeFrames, Segmentation.Turn;
    Segmentation.TurnUnfold(w, buf);
    if Segmentation.Turn(w, buf).None? {
      NoHops(w);
      return [], w;
    }
    var t := Segmentation.Turn(w, buf).value;
    hops, v := TurnHop(w, buf);
    if !t.close {
      var more;
      more, v := ConsumeFramesHops(t.w, buf[t.n..]);
      EndsLater(w, hops, t.w, more, v, ConsumeFrames(w, buf).w, ConsumeFrames(w, buf).close);
      hops := hops + more;
    }
  }

  lemma ConsumeHops(w: World, buf: seq<byte>) returns (hops: seq<Hop>, v: World)
    ensures Ends(w, hops, v, Consume(w, buf).w, Consume(w, buf).close) && Fed(hops)
  {
    hide Path, ConsumeFrames, Ascii;
    NoHops(w);
    if w.c.prefaceSeen {
      hops, v := ConsumeFramesHops(w, buf);
    } else if |buf| < |PREFACE_TAIL| || buf[..|PREFACE_TAIL|] != PREFACE_TAIL {
      hops, v := [], w;
    } else {
      var w1 := w.(c := w.c.(prefaceSeen := true));
      OneHop(w, Greet);
      var more;
      more, v := ConsumeFramesHops(w1, buf[|PREFACE_TAIL|..]);
      EndsLater(w, [Greet], w1, more, v, Consume(w, buf).w, Consume(w, buf).close);
      hops := [Greet] + more;
    }
  }

  lemma PerformHops(w: World, call: Call) returns (hops: seq<Hop>, v: World)
    ensures Ends(w, hops, v, Perform(w, call).w, Perform(w, call).close)
    ensures if call.Feed? then Fed(hops) else hops == [Make(call)]
  {
    hide Path, Consume, WriteBlock, WriteBody, WriteTrailers, Release;
    if call.Feed? {
      hops, v := ConsumeHops(w, call.buf);
    } else {
      OneHop(w, Make(call));
      hops, v := [Make(call)], Perform(w, call).w;
    }
  }

  lemma {:induction false} RunHops(w: World, calls: seq<Call>) returns (hops: seq<Hop>, v: World)
    ensures Ends(w, hops, v, Run(w, calls).w, Run(w, calls).close)
    decreases |calls|
  {
    hide Path, Perform;
    if calls == [] {
      NoHops(w);
      return [], w;
    }
    hops, v := PerformHops(w, calls[0]);
    var p := Perform(w, calls[0]);
    if !p.close {
      var more;
      more, v := RunHops(p.w, calls[1..]);
      EndsLater(w, hops, p.w, more, v, Run(w, calls).w, Run(w, calls).close);
      hops := hops + more;
    }
  }

  // ----- the log only grows

  lemma {:induction false} GrowsTwice(a: Log, b: Log, c: Log)
    requires IsPrefix(a, b) && IsPrefix(b, c)
    ensures IsPrefix(a, c)
    decreases c
  {
    if c != b {
      GrowsTwice(a, b, c.before);
    }
  }

  lemma {:induction false} ControlsGrow(a: Log, b: Log)
    requires Controls(a, b)
    ensures IsPrefix(a, b)
    decreases b
  {
    if b != a {
      ControlsGrow(a, b.before);
    }
  }

  lemma {:induction false} SendAllGrows(w: World, fs: seq<Frame>)
    ensures IsPrefix(w.log, SendAll(w, fs).log)
    decreases |fs|
  {
    if fs != [] {
      var v := Send(w, fs[0]);
      assert IsPrefix(w.log, w.log) && IsPrefix(w.log, v.log);
      SendAllGrows(v, fs[1..]);
      GrowsTwice(w.log, v.log, SendAll(w, fs).log);
    }
  }

  lemma ReleaseGrows(w: World, id: nat, v: World)
    requires IsPrefix(v.log, w.log)
    ensures IsPrefix(v.log, Release(w, id).log)
  {
  }

  lemma BlockGrows(w: World, id: nat, block: seq<byte>, end: bool)
    ensures IsPrefix(w.log, WriteBlock(w, id, block, end).log)
  {
    hide Release, BlockFrames;
    var fs := BlockFrames(id, block, end, w.c.peerMaxFrame);
    SendAllGrows(w, fs);
    ReleaseGrows(SendAll(w, fs), id, w);
  }

  lemma StepGrows(w: World, step: Step)
    requires Legal(w, step)
    ensures IsPrefix(w.log, Do(w, step).log)
  {
    hide Release, WriteBlock;
    assert IsPrefix(w.log, w.log);
    match step
    case Cut(id, code) => ReleaseGrows(Send(w, RstFrame(id, code)), id, w);
    case Tail(id, block) => BlockGrows(w, id, block, true);
    case Final(id, chunk) => ReleaseGrows(SendData(w, id, chunk, true), id, w);
    case _ =>
  }

  lemma {:induction false} StepsGrow(w: World, steps: seq<Step>, v: World)
    requires Leads(w, steps, v) == true
    ensures IsPrefix(w.log, v.log)
    decreases |steps|
  {
    hide Legal, Do;
    if steps != [] {
      var u := Do(w, steps[0]);
      StepGrows(w, steps[0]);
      StepsGrow(u, steps[1..], v);
      GrowsTwice(w.log, u.log, v.log);
    }
  }

  lemma CallGrows(w: World, call: Call)
    requires Inv(w) == true && !call.Feed?
    ensures IsPrefix(w.log, Perform(w, call).w.log)
  {
    hide Inv, Leads, Consume, WriteBlock, WriteBody, WriteTrailers, Release;
    assert IsPrefix(w.log, w.log);
    match call
    case Preface =>
    case Headers(id, block, end) =>
      var w0 := Note(w, WroteHeaders(id, end));
      BlockGrows(w0, id, block, end);
      GrowsTwice(w.log, w0.log, WriteBlock(w0, id, block, end).log);
    case _ =>
      Ids31(w);
      var steps := CallSteps(w, call);
      StepsGrow(w, steps, Perform(w, call).w);
  }

  lemma HopGrows(w: World, hop: Hop)
    requires Inv(w) == true && Fits(w, hop)
    ensures IsPrefix(w.log, Take(w, hop).log)
  {
    hide Inv, Leads, Controls, OnFrame, Perform;
    assert IsPrefix(w.log, w.log);
    match hop
    case Accept(f) =>
      var u, steps := FrameSteps(w, f);
      ControlsGrow(w.log, u.log);
      StepsGrow(u, steps, Take(w, hop));
      GrowsTwice(w.log, u.log, Take(w, hop).log);
    case Make(call) => CallGrows(w, call);
    case _ =>
  }

  lemma {:induction false} PathGrows(w: World, hops: seq<Hop>, v: World)
    requires Inv(w) == true && Path(w, hops, v)
    ensures IsPrefix(w.log, v.log)
    decreases |hops|
  {
    hide Inv, Fits, Take;
    if hops != [] {
      var u := Take(w, hops[0]);
      HopGrows(w, hops[0]);
      HopInv(w, hops[0]);
      PathGrows(u, hops[1..], v);
      GrowsTwice(w.log, u.log, v.log);
    }
  }

  lemma LeavesGrows(a: Log, b: Log)
    requires Leaves(a, b)
    ensures IsPrefix(a, b)
  {
    assert IsPrefix(a, a);
  }

  lemma RunGrows(w: World, calls: seq<Call>)
    requires Inv(w) == true
    ensures IsPrefix(w.log, Run(w, calls).w.log)
  {
    hide Inv, Path, Leaves, Run, IsPrefix;
    var hops, v := RunHops(w, calls);
    PathGrows(w, hops, v);
    if Run(w, calls).close {
      LeavesGrows(v.log, Run(w, calls).w.log);
      GrowsTwice(w.log, v.log, Run(w, calls).w.log);
    }
  }
}
