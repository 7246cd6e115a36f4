// The calls that end a response short of what was written to it: exactly which they are, and a run that makes them.
module ConnCuts {
  import opened Bytes
  import opened Frames
  import opened ConnModel
  import opened ConnShapes
  import opened ConnLog
  import opened ConnInv
  import opened ConnSend
  import opened ConnRecv
  import opened ConnBlocks
  import opened ConnRuns
  import opened ConnEnding

  /** Whether a call ended the stream with octets it was given still unsent. */
  ghost predicate Truncated(v: World, id: nat) {
    EndingOf(v.log, id).sent && TallyOf(v.log, id).out != TallyOf(v.log, id).bodies
  }

  lemma ReleaseKeepsRecord(w: World, id: nat)
    ensures forall x: nat :: EndingOf(Release(w, id).log, x) == EndingOf(w.log, x)
    ensures forall x: nat :: TallyOf(Release(w, id).log, x) == TallyOf(w.log, x)
  {
  }

  /** Ending a response with a body call cuts it short exactly when the body is empty and octets are parked: that
      call writes END_STREAM at once, past the parked octets. */
  lemma BodyTruncatesIff(w: World, id: nat, body: seq<byte>, end: bool)
    requires Inv(w) == true && EndsOk(w) == true && id in w.c.streams
    ensures Truncated(WriteBody(w, id, body, end), id) <==> body == [] && end && w.c.streams[id].parked != []
  {
    IdFacts(w, id);
    var t := TallyOf(w.log, id);
    var parked := w.c.streams[id].parked;
    if body == [] {
      var w0 := Note(w, WroteBody(id, [], end));
      WroteBodyEndings(w.log, id, [], end);
      WroteBodyTallies(w.log, id, [], end);
      ChunkEnding(w0.log, id, [], true);
      EmptyDataTallies(w0, id, true);
      ReleaseKeepsRecord(Send(w0, DataFrame(id, [], true)), id);
      hide TallyOf, EndingOf, EndsOnce, TotalsOf, Safe, Release, Inv, EndsOk, EndsBut;
      assert t.bodies + [] == t.bodies;
      assert t.out + parked == t.bodies;
    } else {
      CoreOf(w);
      hide Core, Inv, EndsOk, TallyOf, EndingOf, EndsOnce, TotalsOf, Safe, Release, EmitData, WriteBody, EndsBut;
      var k, v := WriteBodyShape(w, id, body, end);
      EmitEnding(Note(w, WroteBody(id, body, end)), id, body, end);
      hide EndedOn;
      BodyEnding(w, v, id, body, k, end);
      ReleaseKeepsRecord(v, id);
      if k == |body| && end {
        BodyComplete(t, TallyOf(v.log, id), body, parked);
      }
    }
  }

  /** An id with the reserved bit set is written without it. */
  lemma {:induction false} MaskedContinuations(id: nat, rest: seq<byte>, max: FrameSize)
    ensures ContinuationFrames(id, rest, max) == ContinuationFrames(id % 0x8000_0000, rest, max)
    decreases |rest|
  {
    if |rest| > max {
      MaskedContinuations(id, rest[max..], max);
    }
  }

  lemma MaskedBlock(id: nat, block: seq<byte>, end: bool, max: FrameSize)
    ensures BlockFrames(id, block, end, max) == BlockFrames(id % 0x8000_0000, block, end, max)
  {
    if |block| > max {
      MaskedContinuations(id, block[max..], max);
    }
  }

  /** What a header block leaves in the log: every stream's octets as they were, and END_STREAM if it says so. */
  lemma BlockRecord(w: World, id: nat, block: seq<byte>, end: bool, x: nat)
    requires w.c.peerMaxFrame == TotalsOf(w.log).maxFrame
    ensures var v := WriteBlock(w, id, block, end);
            && TallyOf(v.log, x) == TallyOf(w.log, x)
            && EndingOf(v.log, x).sent == (EndingOf(w.log, x).sent || (end && x == id % 0x8000_0000))
  {
    var fs := BlockFrames(id, block, end, w.c.peerMaxFrame);
    MaskedBlock(id, block, end, w.c.peerMaxFrame);
    BlockFits(id, block, end, w.c.peerMaxFrame);
    SendAllPlain(w, fs);
    BlockEnding(w, id % 0x8000_0000, block, end);
    ReleaseKeepsRecord(SendAll(w, fs), id);
    hide TallyOf, EndingOf, EndsOnce, TotalsOf, Safe, BlockFrames, Release;
  }

  lemma HeadersCut(w: World, id: u32, block: seq<byte>, end: bool, x: nat)
    requires Inv(w) == true && EndsOk(w) == true
    ensures Truncated(WriteBlock(Note(w, WroteHeaders(id, end)), id, block, end), x) <==>
            Cuts(w, Headers(id, block, end), x)
  {
    hide Inv, EndsOk, TallyOf, EndingOf, EndsOnce, TotalsOf, Safe, WriteBlock;
    IdFacts(w, x);
    WroteHeadersEndings(w.log, id, end);
    WroteHeadersTallies(w.log, id, end);
    BlockRecord(Note(w, WroteHeaders(id, end)), id, block, end, x);
    if x in w.c.streams {
      SentAll(TallyOf(w.log, x), w.c.streams[x].parked);
    }
  }

  lemma SentAll(t: Tally, parked: seq<byte>)
    requires t.out + parked == t.bodies
    ensures t.out == t.bodies <==> parked == []
  {
    if t.out == t.bodies {
      assert |t.out| + |parked| == |t.bodies|;
    }
  }

  lemma TrailersCut(w: World, id: u32, block: seq<byte>, x: nat)
    requires Inv(w) == true && EndsOk(w) == true
    ensures !Truncated(WriteTrailers(w, id, block), x)
  {
    hide Inv, EndsOk, TallyOf, EndingOf, EndsOnce, TotalsOf, Safe, WriteBlock;
    IdFacts(w, x);
    IdFacts(w, id);
    WroteTrailersEndings(w.log, id);
    WroteTrailersTallies(w.log, id);
    BlockRecord(Note(w, WroteTrailers(id)), id, block, true, x);
    if x in w.c.streams {
      SentAll(TallyOf(w.log, x), w.c.streams[x].parked);
    }
  }

  /** A body written to one stream leaves the record of every other as it was. */
  lemma BodyOthers(w: World, id: nat, body: seq<byte>, end: bool, x: nat)
    requires Inv(w) == true && EndsOk(w) == true && id in w.c.streams && x != id
    ensures !Truncated(WriteBody(w, id, body, end), x)
  {
    hide Core, Inv, EndsOk, TallyOf, EndingOf, EndsOnce, TotalsOf, Safe, Release, EmitData, EndsBut;
    IdFacts(w, id);
    IdFacts(w, x);
    if body == [] {
      var w0 := Note(w, WroteBody(id, [], end));
      WroteBodyEndings(w.log, id, [], end);
      WroteBodyTallies(w.log, id, [], end);
      ChunkEnding(w0.log, id, [], true);
      EmptyDataTallies(w0, id, true);
      ReleaseKeepsRecord(Send(w0, DataFrame(id, [], true)), id);
    } else {
      CoreOf(w);
      hide WriteBody, EndedOn;
      var k, v := WriteBodyShape(w, id, body, end);
      EmitEnding(Note(w, WroteBody(id, body, end)), id, body, end);
      BodyEnding(w, v, id, body, k, end);
      ReleaseKeepsRecord(v, id);
      EndsButAt(v, id, x);
    }
  }

  lemma EndsButAt(w: World, id: nat, x: nat)
    requires EndsBut(w, id) == true && x != id
    ensures EndOk(w.c, x, TallyOf(w.log, x), EndingOf(w.log, x))
  {
    hide TallyOf, EndingOf, EndsOnce, EndOk;
  }

  /** Which call cuts which stream short: final headers and an empty final body, with octets unsent, and no other. */
  lemma CallTruncatesIff(w: World, call: Call, x: nat)
    requires Inv(w) == true && EndsOk(w) == true
    ensures Truncated(Perform(w, call).w, x) <==> Cuts(w, call, x)
  {
    hide Inv, EndsOk, EndsOnce, LogEnds, Quiet, TallyOf, EndingOf, Consume, WriteBlock, WriteBody, WriteTrailers,
         Release, Truncated;
    match call
    case Headers(id, block, end) => HeadersCut(w, id, block, end, x);
    case Trailers(id, block) => TrailersCut(w, id, block, x);
    case Body(id, body, end) =>
      if id !in w.c.streams {
        NotTruncated(w, x);
        assert WriteBody(w, id, body, end) == w by { hide *; ClosedBody(w, id, body, end); }
      } else if x == id {
        BodyTruncatesIff(w, id, body, end);
      } else {
        BodyOthers(w, id, body, end, x);
      }
    case _ =>
      assert Polite(w, call);
      PerformEnds(w, call);
      LogNotTruncated(w, call, x);
  }

  lemma ClosedBody(w: World, id: nat, body: seq<byte>, end: bool)
    requires id !in w.c.streams
    ensures WriteBody(w, id, body, end) == w
  {
  }

  lemma NotTruncated(w: World, x: nat)
    requires EndsOk(w) == true
    ensures !Truncated(w, x)
  {
    LogEndsOf(w);
    hide TallyOf, EndingOf, EndsOnce;
  }

  lemma LogNotTruncated(w: World, call: Call, x: nat)
    requires Ended(Perform(w, call).w, Perform(w, call).close)
    ensures !Truncated(Perform(w, call).w, x)
  {
    hide Perform, TallyOf, EndingOf, EndsOnce;
    if !Perform(w, call).close {
      LogEndsOf(Perform(w, call).w);
    }
  }
}
