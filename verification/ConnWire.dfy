// Header blocks stay whole on the wire: section 4.3 of RFC 9113 over every run (http2/conn.v).
module ConnWire {
  import opened Bytes
  import opened Frames
  import opened ConnModel
  import opened ConnShapes
  import opened ConnLog
  import opened ConnInv
  import opened ConnRecv
  import opened ConnBlocks
  import opened ConnSteps
  import opened ConnHops

  // ----- the wire as a receiver reads it

  /** Between header blocks, inside one of a stream, or where no receiver follows. */
  datatype Reading = Between | Inside(id: u31) | Lost

  function Next(r: Reading, f: Frame): Reading {
    match r
    case Between =>
      if f.typ == CONTINUATION then Lost
      else if f.typ == HEADERS && !Bit2(f.flags) then Inside(f.id)
      else Between
    case Inside(id) =>
      if f.typ != CONTINUATION || f.id != id then Lost
      else if Bit2(f.flags) then Between
      else r
    case Lost => Lost
  }

  function ReadFrom(r: Reading, fs: seq<Frame>): Reading
    decreases |fs|
  {
    if fs == [] then r else ReadFrom(Next(r, fs[0]), fs[1..])
  }

  function ReadingOf(log: Log): Reading {
    match log
    case Nothing => Between
    case Then(before, Sent(f)) => Next(ReadingOf(before), f)
    case Then(before, _) => ReadingOf(before)
  }

  lemma {:induction false} ReadFromSnoc(r: Reading, fs: seq<Frame>, f: Frame)
    ensures ReadFrom(r, fs + [f]) == Next(ReadFrom(r, fs), f)
    decreases |fs|
  {
    if fs == [] {
      assert (fs + [f])[1..] == [];
    } else {
      assert (fs + [f])[1..] == fs[1..] + [f];
      ReadFromSnoc(Next(r, fs[0]), fs[1..], f);
    }
  }

  lemma {:induction false} ReadingIsOfFrames(log: Log)
    ensures ReadingOf(log) == ReadFrom(Between, SentFrames(log))
  {
    hide Next;
    match log
    case Nothing =>
    case Then(before, e) =>
      ReadingIsOfFrames(before);
      if e.Sent? {
        ReadFromSnoc(Between, SentFrames(before), e.f);
      }
  }

  lemma {:induction false} LostStays(fs: seq<Frame>)
    ensures ReadFrom(Lost, fs) == Lost
  {
    if fs != [] {
      LostStays(fs[1..]);
    }
  }

  /** Inside a block the frames go on as CONTINUATIONs of its stream up to the one with END_HEADERS. */
  lemma {:induction false} InsideGoesOn(id: u31, fs: seq<Frame>) returns (n: nat)
    requires ReadFrom(Inside(id), fs) == Between
    ensures n < |fs| && Bit2(fs[n].flags)
    ensures forall k :: 0 <= k <= n ==> fs[k].typ == CONTINUATION && fs[k].id == id && (Bit2(fs[k].flags) <==> k == n)
  {
    if Next(Inside(id), fs[0]) == Lost {
      LostStays(fs[1..]);
      assert false;
    }
    if Bit2(fs[0].flags) {
      n := 0;
    } else {
      var m := InsideGoesOn(id, fs[1..]);
      n := m + 1;
      assert forall k :: 1 <= k <= n ==> fs[k] == fs[1..][k - 1];
    }
  }

  /** Reading up to frame i, and on from there. */
  lemma {:induction false} ReadSplit(r: Reading, fs: seq<Frame>, i: nat)
    requires i <= |fs|
    ensures ReadFrom(r, fs) == ReadFrom(ReadFrom(r, fs[..i]), fs[i..])
    decreases i
  {
    if i == 0 {
      assert fs[0..] == fs;
    } else {
      ReadSplit(Next(r, fs[0]), fs[1..], i - 1);
      assert fs[1..][..i - 1] == fs[..i][1..] && fs[1..][i - 1..] == fs[i..];
    }
  }

  // ----- what was sent

  lemma {:induction false} SendAllRead(w: World, fs: seq<Frame>)
    ensures ReadingOf(SendAll(w, fs).log) == ReadFrom(ReadingOf(w.log), fs)
    decreases |fs|
  {
    if fs != [] {
      hide Next;
      SendAllRead(Send(w, fs[0]), fs[1..]);
    }
  }

  lemma {:induction false} ContinuationsRead(id: nat, rest: seq<byte>, max: FrameSize)
    requires rest != []
    ensures ReadFrom(Inside(id % 0x8000_0000), ContinuationFrames(id, rest, max)) == Between
    decreases |rest|
  {
    var fs := ContinuationFrames(id, rest, max);
    if |rest| <= max {
      assert fs[1..] == [];
    } else {
      assert fs[1..] == ContinuationFrames(id, rest[max..], max);
      ContinuationsRead(id, rest[max..], max);
    }
  }

  lemma BlockRead(id: nat, block: seq<byte>, end: bool, max: FrameSize)
    ensures ReadFrom(Between, BlockFrames(id, block, end, max)) == Between
  {
    var fs := BlockFrames(id, block, end, max);
    if |block| <= max {
      assert fs[1..] == [];
    } else {
      assert fs[1..] == ContinuationFrames(id, block[max..], max);
      ContinuationsRead(id, block[max..], max);
    }
  }

  lemma ReleaseRead(w: World, id: nat)
    ensures ReadingOf(Release(w, id).log) == ReadingOf(w.log)
  {
  }

  lemma WriteBlockRead(w: World, id: nat, block: seq<byte>, end: bool)
    requires ReadingOf(w.log) == Between
    ensures ReadingOf(WriteBlock(w, id, block, end).log) == Between
  {
    hide BlockFrames, Release, ReadingOf;
    var fs := BlockFrames(id, block, end, w.c.peerMaxFrame);
    BlockRead(id, block, end, w.c.peerMaxFrame);
    SendAllRead(w, fs);
    ReleaseRead(SendAll(w, fs), id);
  }

  lemma StepRead(w: World, step: Step)
    requires Legal(w, step) && ReadingOf(w.log) == Between
    ensures ReadingOf(Do(w, step).log) == Between
  {
    hide Release, WriteBlock;
    match step
    case Wrote(e) =>
    case Cut(id, code) => ReleaseRead(Send(w, RstFrame(id, code)), id);
    case Tail(id, block) => WriteBlockRead(w, id, block, true);
    case Chunk(id, chunk) =>
    case Final(id, chunk) => ReleaseRead(SendData(w, id, chunk, true), id);
    case Keep(c) =>
  }

  lemma {:induction false} StepsRead(w: World, steps: seq<Step>, v: World)
    requires Leads(w, steps, v) == true && ReadingOf(w.log) == Between
    ensures ReadingOf(v.log) == Between
    decreases |steps|
  {
    hide Legal, Do, ReadingOf;
    if steps != [] {
      StepRead(w, steps[0]);
      StepsRead(Do(w, steps[0]), steps[1..], v);
    }
  }

  // ----- frames and runs

  lemma {:induction false} ControlsRead(a: Log, b: Log)
    requires Controls(a, b) && ReadingOf(a) == Between
    ensures ReadingOf(b) == Between
    decreases b
  {
    if b != a {
      ControlsRead(a, b.before);
    }
  }

  lemma FrameRead(w: World, f: Frame)
    requires Inv(w) == true && f.typ <= CONTINUATION && OnFrame(Note(w, Received(f)), f).code == NoError
    requires ReadingOf(w.log) == Between
    ensures ReadingOf(OnFrame(Note(w, Received(f)), f).w.log) == Between
  {
    hide Inv, ReadingOf, Leads, Controls, OnFrame;
    var w0, v := Note(w, Received(f)), OnFrame(Note(w, Received(f)), f).w;
    var u, steps := FrameSteps(w, f);
    ControlsRead(w.log, u.log);
    StepsRead(u, steps, v);
  }

  lemma CallRead(w: World, call: Call)
    requires Inv(w) == true && !call.Feed? && ReadingOf(w.log) == Between
    ensures ReadingOf(Perform(w, call).w.log) == Between
  {
    hide Inv, Leads, Consume, WriteBlock, WriteBody, WriteTrailers, Release, SettingsBytes;
    match call
    case Preface =>
    case Headers(id, block, end) => WriteBlockRead(Note(w, WroteHeaders(id, end)), id, block, end);
    case _ =>
      Ids31(w);
      var steps := CallSteps(w, call);
      StepsRead(w, steps, Perform(w, call).w);
  }

  lemma {:induction false} PathRead(w: World, hops: seq<Hop>, v: World)
    requires Inv(w) == true && ReadingOf(w.log) == Between && Path(w, hops, v)
    ensures ReadingOf(v.log) == Between
    decreases |hops|
  {
    hide Inv, OnFrame, Perform;
    if hops != [] {
      match hops[0] {
        case Accept(f) => FrameRead(w, f);
        case Make(call) => CallRead(w, call);
        case _ =>
      }
      HopInv(w, hops[0]);
      hide Fits, Take, ReadingOf;
      PathRead(Take(w, hops[0]), hops[1..], v);
    }
  }

  lemma LeavesRead(a: Log, b: Log)
    requires Leaves(a, b) && ReadingOf(a) == Between
    ensures ReadingOf(b) == Between
  {
  }

  /** Every run, closed or not, leaves the wire between header blocks. */
  lemma BlocksWhole(calls: seq<Call>)
    ensures ReadFrom(Between, SentFrames(Run(NewWorld(), calls).w.log)) == Between
  {
    NewWorldInv();
    assert ReadingOf(NewWorld().log) == Between;
    hide Inv, Run, NewWorld, Path, Leaves, ReadingOf;
    var hops, v := RunHops(NewWorld(), calls);
    PathRead(NewWorld(), hops, v);
    if Run(NewWorld(), calls).close {
      LeavesRead(v.log, Run(NewWorld(), calls).w.log);
    }
    ReadingIsOfFrames(Run(NewWorld(), calls).w.log);
  }

  /** In what any run sends, HEADERS without END_HEADERS is followed at once by CONTINUATION frames of its stream, up to
      the one with END_HEADERS, and no CONTINUATION stands anywhere else. */
  lemma HeadersContiguous(calls: seq<Call>, i: nat)
    requires i < |SentFrames(Run(NewWorld(), calls).w.log)|
    ensures var fs := SentFrames(Run(NewWorld(), calls).w.log);
            && (fs[i].typ == HEADERS && !Bit2(fs[i].flags) ==>
                  exists n :: i < n < |fs| && Continued(fs, i, n))
            && (fs[i].typ == CONTINUATION ==>
                  exists h, n :: 0 <= h < i <= n < |fs|
                                 && fs[h].typ == HEADERS && !Bit2(fs[h].flags) && Continued(fs, h, n))
  {
    hide Run, NewWorld;
    BlocksWhole(calls);
    var fs := SentFrames(Run(NewWorld(), calls).w.log);
    if fs[i].typ == HEADERS && !Bit2(fs[i].flags) {
      var n := Follows(fs, i);
    } else if fs[i].typ == CONTINUATION {
      var h, n := Precedes(fs, i);
    }
  }

  /** The frames after h, up to n, are the CONTINUATIONs of its block, and n ends it. */
  predicate Continued(fs: seq<Frame>, h: nat, n: nat)
    requires h < n < |fs|
  {
    forall k :: h < k <= n ==> fs[k].typ == CONTINUATION && fs[k].id == fs[h].id && (Bit2(fs[k].flags) <==> k == n)
  }

  lemma Follows(fs: seq<Frame>, i: nat) returns (n: nat)
    requires ReadFrom(Between, fs) == Between && i < |fs| && fs[i].typ == HEADERS && !Bit2(fs[i].flags)
    ensures i < n < |fs| && Continued(fs, i, n)
  {
    ReadSplit(Between, fs, i);
    var r := ReadFrom(Between, fs[..i]);
    var rest := fs[i + 1..];
    assert fs[i..][1..] == rest;
    if r != Between {
      LostStays(rest);
      assert false;
    }
    var m := InsideGoesOn(fs[i].id, rest);
    n := i + 1 + m;
    assert forall k :: i < k <= n ==> fs[k] == rest[k - i - 1];
  }

  /** A reader inside a block entered it with a HEADERS frame, and has read only CONTINUATIONs since. */
  lemma {:induction false} Entered(fs: seq<Frame>, i: nat) returns (h: nat)
    requires i <= |fs| && ReadFrom(Between, fs[..i]).Inside?
    ensures h < i && fs[h].typ == HEADERS && !Bit2(fs[h].flags) && fs[h].id == ReadFrom(Between, fs[..i]).id
    ensures forall k :: h < k < i ==> fs[k].typ == CONTINUATION && fs[k].id == fs[h].id && !Bit2(fs[k].flags)
    decreases i
  {
    assert i > 0;
    var before := fs[..i - 1];
    assert fs[..i] == before + [fs[i - 1]];
    ReadFromSnoc(Between, before, fs[i - 1]);
    if ReadFrom(Between, before) == Between {
      h := i - 1;
    } else {
      h := Entered(fs, i - 1);
    }
  }

  lemma Precedes(fs: seq<Frame>, i: nat) returns (h: nat, n: nat)
    requires ReadFrom(Between, fs) == Between && i < |fs| && fs[i].typ == CONTINUATION
    ensures h < i <= n < |fs| && fs[h].typ == HEADERS && !Bit2(fs[h].flags) && Continued(fs, h, n)
  {
    ReadSplit(Between, fs, i);
    var r := ReadFrom(Between, fs[..i]);
    assert fs[i..][1..] == fs[i + 1..];
    if !r.Inside? {
      LostStays(fs[i + 1..]);
      assert false;
    }
    h := Entered(fs, i);
    n := Follows(fs, h);
    assert Bit2(fs[n].flags);
  }
}
