// `consume` does not depend on how the transport cuts the byte stream into reads (http2/conn.v).
module Segmentation {
  import opened Bytes
  import opened Frames
  import opened ConnModel
  import opened ConnShapes

  lemma HeaderOfPrefix(a: seq<byte>, b: seq<byte>)
    requires |a| >= FRAME_HEADER_LEN
    ensures ParseFrameHeader(a + b) == ParseFrameHeader(a)
  {
    hide Join3, Join4;
  }

  /** One turn of the frame loop: the frame at the front of buf and the state after it. */
  ghost function Turn(w: World, buf: seq<byte>): Option<Consumed> {
    match ParseFrameHeader(buf)
    case None => None
    case Some(h) =>
      var total := FRAME_HEADER_LEN + h.length;
      if h.length > DEFAULT_MAX_FRAME_SIZE then Some(Closing(w, FrameSizeError, 0))
      else if |buf| < total then None
      else
        var f := Frame(h.typ, h.flags, h.id, buf[FRAME_HEADER_LEN..total]);
        if f.typ > CONTINUATION then
          if w.c.hdr.expecting then Some(Closing(w, ProtocolError, 0))
          else Some(Consumed(Note(w, Received(f)), total, false))
        else
          var r := OnFrame(Note(w, Received(f)), f);
          Some(if r.code != NoError then Closing(r.w, r.code, total) else Consumed(r.w, total, false))
  }

  lemma TurnUnfold(w: World, buf: seq<byte>)
    ensures match Turn(w, buf)
            case None => ConsumeFrames(w, buf) == Consumed(w, 0, false)
            case Some(t) =>
              && t.n <= |buf| && (t.close || 0 < t.n)
              && ConsumeFrames(w, buf) == if t.close then t else Shift(ConsumeFrames(t.w, buf[t.n..]), t.n)
  {
    hide OnFrame, Join3, Join4;
  }

  /** More input does not change what the input so far decided. */
  lemma TurnOfPrefix(w: World, a: seq<byte>, b: seq<byte>)
    requires Turn(w, a).Some?
    ensures Turn(w, a + b) == Turn(w, a)
  {
    hide OnFrame, Join3, Join4;
    HeaderOfPrefix(a, b);
    var total := FRAME_HEADER_LEN + ParseFrameHeader(a).value.length;
    assert total <= |a| ==> (a + b)[FRAME_HEADER_LEN..total] == a[FRAME_HEADER_LEN..total];
  }

  lemma TurnKeepsPreface(w: World, buf: seq<byte>)
    requires Turn(w, buf).Some?
    ensures Turn(w, buf).value.w.c.prefaceSeen == w.c.prefaceSeen
  {
    hide OnFrame, Join3, Join4;
    var h := ParseFrameHeader(buf).value;
    var total := FRAME_HEADER_LEN + h.length;
    if h.typ <= CONTINUATION && total <= |buf| {
      var f := Frame(h.typ, h.flags, h.id, buf[FRAME_HEADER_LEN..total]);
      FrameKeepsPreface(Note(w, Received(f)), f);
    }
  }

  lemma {:induction false} FramesSplit(w: World, a: seq<byte>, b: seq<byte>)
    ensures var r := ConsumeFrames(w, a);
            && r.n <= |a| && r.w.c.prefaceSeen == w.c.prefaceSeen
            && ConsumeFrames(w, a + b) == if r.close then r else Shift(ConsumeFrames(r.w, a[r.n..] + b), r.n)
    decreases |a|
  {
    hide ConsumeFrames, Turn;
    TurnUnfold(w, a);
    match Turn(w, a)
    case None =>
      assert a[0..] + b == a + b;
    case Some(t) =>
      TurnOfPrefix(w, a, b);
      TurnUnfold(w, a + b);
      TurnKeepsPreface(w, a);
      if !t.close {
        FramesSplit(t.w, a[t.n..], b);
        assert (a + b)[t.n..] == a[t.n..] + b;
        var r := ConsumeFrames(w, a);
        assert a[t.n..][r.n - t.n..] == a[r.n..];
      }
  }

  /** Splitting the input anywhere: consuming a, then what it left over followed by b, is consuming a + b. */
  lemma ConsumeSplit(w: World, a: seq<byte>, b: seq<byte>)
    ensures var r := Consume(w, a);
            && r.n <= |a|
            && Consume(w, a + b) == if r.close then r else Shift(Consume(r.w, a[r.n..] + b), r.n)
  {
    hide ConsumeFrames;
    var k := |PREFACE_TAIL|;
    if w.c.prefaceSeen {
      FramesSplit(w, a, b);
    } else if |a| < k {
      assert a[0..] + b == a + b;
    } else {
      assert (a + b)[..k] == a[..k] && (a + b)[k..] == a[k..] + b;
      var w1 := w.(c := w.c.(prefaceSeen := true));
      FramesSplit(w1, a[k..], b);
      var r := ConsumeFrames(w1, a[k..]);
      assert a[k..][r.n..] == a[k + r.n..];
    }
  }

  function Concat(chunks: seq<seq<byte>>): seq<byte> {
    if chunks == [] then [] else chunks[0] + Concat(chunks[1..])
  }

  /** The transport's loop: append each read to the unconsumed tail and call `consume`. */
  datatype Fed = Fed(w: World, tail: seq<byte>, close: bool)

  ghost function FeedAll(w: World, tail: seq<byte>, chunks: seq<seq<byte>>): Fed
    decreases |chunks|
  {
    if chunks == [] then Fed(w, tail, false)
    else
      var r := Consume(w, tail + chunks[0]);
      ConsumeSplit(w, tail + chunks[0], []);
      if r.close then Fed(r.w, (tail + chunks[0])[r.n..], true)
      else FeedAll(r.w, (tail + chunks[0])[r.n..], chunks[1..])
  }

  lemma {:induction false} FeedFrom(w: World, tail: seq<byte>, chunks: seq<seq<byte>>)
    requires Consume(w, tail) == Consumed(w, 0, false)
    ensures var fed := FeedAll(w, tail, chunks);
            var all := tail + Concat(chunks);
            var r := Consume(w, all);
            && r.n <= |all| && fed.w == r.w && fed.close == r.close
            && (!fed.close ==> fed.tail == all[r.n..])
    decreases |chunks|
  {
    hide Consume;
    var all := tail + Concat(chunks);
    ConsumeSplit(w, all, []);
    if chunks == [] {
      assert all == tail;
    } else {
      var a, rest := tail + chunks[0], Concat(chunks[1..]);
      assert all == a + rest;
      ConsumeSplit(w, a, rest);
      ConsumeSplit(w, a, []);
      var r := Consume(w, a);
      if !r.close {
        assert a + [] == a && a[r.n..] + [] == a[r.n..];
        FeedFrom(r.w, a[r.n..], chunks[1..]);
        var r2 := Consume(r.w, a[r.n..] + rest);
        assert (a[r.n..] + rest)[r2.n..] == all[r.n + r2.n..];
      }
    }
  }

  /** However the bytes arrive, the final state, the log (so the output and the requests), the close flag and
      the unconsumed tail are those of one `consume` of everything. */
  lemma SegmentationIndependence(w: World, chunks: seq<seq<byte>>)
    ensures var fed := FeedAll(w, [], chunks);
            var r := Consume(w, Concat(chunks));
            && r.n <= |Concat(chunks)| && fed.w == r.w && fed.close == r.close
            && (!fed.close ==> fed.tail == Concat(chunks)[r.n..])
  {
    assert Consume(w, []) == Consumed(w, 0, false);
    hide Consume, FeedAll;
    FeedFrom(w, [], chunks);
    assert [] + Concat(chunks) == Concat(chunks);
  }
}
