// http2/conn.v: how a header block is cut into a HEADERS frame and CONTINUATIONs.
module HeaderFrames {
  import opened Bytes
  import opened Frames
  import opened ConnModel

  function Payloads(fs: seq<Frame>): seq<byte> {
    if fs == [] then [] else fs[0].payload + Payloads(fs[1..])
  }

  /** HEADERS first, the rest CONTINUATIONs of the same stream, END_HEADERS on the last frame only. */
  ghost predicate OneBlock(fs: seq<Frame>, id: u31, max: nat) {
    && fs != [] && fs[0].typ == HEADERS
    && (forall i :: 0 < i < |fs| ==> fs[i].typ == CONTINUATION)
    && (forall i :: 0 <= i < |fs| ==>
          fs[i].id == id && |fs[i].payload| <= max && (Bit2(fs[i].flags) <==> i == |fs| - 1))
  }

  lemma {:induction false} ContinuationsShape(id: nat, rest: seq<byte>, max: FrameSize)
    requires rest != []
    ensures var fs := ContinuationFrames(id, rest, max);
            && fs != [] && Payloads(fs) == rest
            && (forall i :: 0 <= i < |fs| ==>
                  fs[i].typ == CONTINUATION && !Bit0(fs[i].flags) && fs[i].id == id % 0x8000_0000)
            && (forall i :: 0 <= i < |fs| ==> |fs[i].payload| <= max && (Bit2(fs[i].flags) <==> i == |fs| - 1))
    decreases |rest|
  {
    var fs := ContinuationFrames(id, rest, max);
    if |rest| <= max {
      assert fs[1..] == [] && Payloads(fs[1..]) == [];
    } else {
      ContinuationsShape(id, rest[max..], max);
      assert fs[1..] == ContinuationFrames(id, rest[max..], max);
      assert rest == rest[..max] + rest[max..];
    }
  }

  /** The frames of a block carry it whole and in order, and END_STREAM, when asked for, on the HEADERS frame alone. */
  lemma BlockFramesShape(id: nat, block: seq<byte>, end: bool, max: FrameSize)
    ensures var fs := BlockFrames(id, block, end, max);
            && OneBlock(fs, id % 0x8000_0000, max) && Payloads(fs) == block
            && (forall i :: 0 <= i < |fs| ==> (Bit0(fs[i].flags) <==> end && i == 0))
  {
    var fs := BlockFrames(id, block, end, max);
    if |block| <= max {
      assert fs[1..] == [] && Payloads(fs[1..]) == [];
    } else {
      ContinuationsShape(id, block[max..], max);
      assert fs[1..] == ContinuationFrames(id, block[max..], max);
      assert block == block[..max] + block[max..];
    }
  }

  /** A frame header and the payload the caller appends after it. */
  function WriteFrame(typ: byte, flags: byte, id: nat, payload: seq<byte>): (r: seq<byte>)
    ensures r == Encode(Frame(typ, flags, id % 0x8000_0000, payload))
  {
    IdBytesIgnoreReserved(typ, flags, id, |payload|);
    FrameHeaderBytes(typ, flags, id, |payload|) + payload
  }

  lemma EncodeSnoc(fs: seq<Frame>, f: Frame)
    ensures EncodeAll(fs + [f]) == EncodeAll(fs) + Encode(f)
  {
    assert (fs + [f])[..|fs|] == fs;
  }

  lemma EncodeOne(f: Frame)
    ensures EncodeAll([f]) == Encode(f)
  {
    assert [f][..0] == [];
  }

  /** The octets of a header block: the loop of `write_response_headers`. */
  method BlockBytes(id: nat, block: seq<byte>, end: bool, max: FrameSize) returns (out: seq<byte>)
    ensures out == EncodeAll(BlockFrames(id, block, end, max))
  {
    hide EncodeAll, Encode, WriteFrame;
    var es: byte := if end then FLAG_END_STREAM else 0;
    if |block| <= max {
      EncodeOne(Frame(HEADERS, FLAG_END_HEADERS + es, id % 0x8000_0000, block));
      return WriteFrame(HEADERS, FLAG_END_HEADERS + es, id, block);
    }
    out := WriteFrame(HEADERS, es, id, block[..max]);
    var off: nat := max;
    ghost var done := [Frame(HEADERS, es, id % 0x8000_0000, block[..max])];
    EncodeOne(done[0]);
    while off < |block|
      invariant off <= |block|
      invariant out == EncodeAll(done)
      invariant done + ContinuationFrames(id, block[off..], max) == BlockFrames(id, block, end, max)
    {
      var chunk, flags := |block| - off, FLAG_END_HEADERS;
      if chunk > max {
        chunk, flags := max, 0;
      }
      ghost var f := Frame(CONTINUATION, flags, id % 0x8000_0000, block[off..off + chunk]);
      EncodeSnoc(done, f);
      assert ContinuationFrames(id, block[off..], max) == [f] + ContinuationFrames(id, block[off + chunk..], max) by {
        assert block[off..][..chunk] == block[off..off + chunk] && block[off..][chunk..] == block[off + chunk..];
        assert chunk == |block| - off ==> block[off + chunk..] == [] && block[off..] == block[off..off + chunk];
      }
      out := out + WriteFrame(CONTINUATION, flags, id, block[off..off + chunk]);
      done := done + [f];
      off := off + chunk;
    }
    assert block[off..] == [] && done + [] == done;
  }
}
