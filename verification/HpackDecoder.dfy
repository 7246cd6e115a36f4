// http2/hpack.v: the connection's receive-side HPACK decoder.
module HpackDecoders {
  import opened Bytes
  import opened HpackInt
  import opened HpackTable
  import opened HpackBlock
  import Huffman
  import HuffmanTable

  class HpackDecoder {
    var dyn: seq<Field>
    var dynSize: nat
    var maxSize: nat
    var curMax: nat
    var arena: seq<byte>
    var arenaCap: nat

    ghost predicate Valid()
      reads this
    {
      dynSize == SizeOf(dyn) && dynSize <= curMax <= maxSize
    }

    ghost function State(): Table
      reads this
    {
      Table(dyn, curMax, maxSize)
    }

    constructor (max: nat)
      ensures Valid() && State() == Table([], max, max) && arena == []
    {
      dyn, dynSize, maxSize, curMax, arena, arenaCap := [], 0, max, max, [], 0;
    }

    method Entry(idx: nat) returns (r: Option<Field>)
      ensures r == Lookup(State(), idx)
    {
      if idx == 0 {
        return None;
      }
      if idx <= STATIC_COUNT {
        return Some(StaticField(idx));
      }
      var di := idx - 62;
      if di >= |dyn| {
        return None;
      }
      return Some(dyn[di]);
    }

    method EvictOldest()
      requires dynSize == SizeOf(dyn) && curMax <= maxSize
      modifies this
      ensures Valid() && State() == old(State()).(entries := Evict(old(dyn), curMax))
      ensures arena == old(arena) && arenaCap == old(arenaCap)
    {
      EvictLongest(dyn, curMax);
      while dynSize > curMax && |dyn| > 0
        invariant dynSize == SizeOf(dyn) && Evict(dyn, curMax) == Evict(old(dyn), curMax)
        invariant curMax == old(curMax) && maxSize == old(maxSize)
        invariant arena == old(arena) && arenaCap == old(arenaCap)
        decreases |dyn|
      {
        SizeOfLast(dyn);
        var last := dyn[|dyn| - 1];
        dyn := dyn[..|dyn| - 1];
        dynSize := dynSize - (|last.name| + |last.value| + 32);
      }
    }

    method Add(f: Field)
      requires Valid()
      modifies this
      ensures Valid() && State() == Insert(old(State()), f)
      ensures arena == old(arena) && arenaCap == old(arenaCap)
    {
      var grown := [f] + dyn;
      assert grown[1..] == dyn;
      dyn := grown;
      dynSize := dynSize + |f.name| + |f.value| + 32;
      EvictOldest();
    }

    /** One string literal, written to the end of the arena. */
    method DecodeStr(block: seq<byte>, pos: nat) returns (r: Option<(seq<byte>, nat)>)
      requires Valid() && pos <= |block| && 5 * |arena| <= 8 * pos
      modifies this`arena
      ensures Valid() && old(arena) <= arena && 5 * |arena| <= 8 * |block|
      ensures match ReadStr(block[pos..])
              case None => r == None
              case Some(x) => r == Some((x.value, pos + x.size)) && 5 * |arena| <= 8 * (pos + x.size)
    {
      hide HuffmanOf, ReadInt, Pow2;
      if pos >= |block| {
        assert ReadInt(block[pos..], 7).None? by { NoOctets(block[pos..]); }
        return None;
      }
      var huff := block[pos] >= 0x80;
      var length := DecodeInt(block, pos, 7);
      if length.None? {
        return None;
      }
      var n, p := length.value.0, length.value.1;
      if p + n > |block| {
        return None;
      }
      var raw := block[p..p + n];
      assert block[pos..][p - pos..p - pos + n] == raw;
      if n == 0 {
        HuffmanEmpty();
        forall o | HuffmanOf([], o) ensures o == [] { HuffmanUnique([], o, []); }
        return Some(([], p));
      }
      var start := |arena|;
      if huff {
        var ok;
        ok := AppendHuffman(raw);
        if !ok {
          return None;
        }
        forall o | HuffmanOf(raw, o) ensures o == arena[start..] { HuffmanUnique(raw, o, arena[start..]); }
      } else {
        arena := arena + raw;
      }
      return Some((arena[start..], p + n));
    }

    method AppendHuffman(raw: seq<byte>) returns (ok: bool)
      modifies this`arena
      ensures old(arena) <= arena && 5 * (|arena| - |old(arena)|) <= 8 * |raw|
      ensures ok <==> exists o :: HuffmanOf(raw, o)
      ensures ok ==> HuffmanOf(raw, arena[|old(arena)|..])
    {
      HuffmanTable.HpackIsCanonical();
      hide HuffmanTable.Hpack;
      var outcome, out;
      ghost var widest;
      outcome, out, widest := Huffman.Decode(HuffmanTable.Hpack(), raw, arena);
      arena := out;
      ok := outcome == Huffman.Decoded;
      assert forall o: seq<byte> :: HuffmanOf(raw, o) <==> Huffman.Coding(HuffmanTable.Hpack(), raw, o);
    }

    /** A literal, with its name resolved. */
    method DecodeLiteral(block: seq<byte>, pos: nat, prefix: Prefix) returns (r: Option<(Field, nat)>)
      requires Valid() && pos <= |block| && 5 * |arena| <= 8 * pos
      modifies this`arena
      ensures Valid() && 5 * |arena| <= 8 * |block|
      ensures match ReadLiteral(block[pos..], prefix)
              case None => r == None
              case Some(x) =>
                (match Resolve(State(), x.value)
                 case None => r == None
                 case Some(f) => r == Some((f, pos + x.size)) && 5 * |arena| <= 8 * (pos + x.size))
    {
      hide ReadStr, ReadInt, Pow2, Lookup;
      var i := DecodeInt(block, pos, prefix);
      if i.None? {
        return None;
      }
      var idx, p := i.value.0, i.value.1;
      assert block[pos..][p - pos..] == block[p..];
      var name := [];
      if idx > 0 {
        var e := Entry(idx);
        if e.None? {
          return None;
        }
        name := e.value.name;
      } else {
        var s := DecodeStr(block, p);
        if s.None? {
          return None;
        }
        name := s.value.0;
        assert block[pos..][s.value.1 - pos..] == block[s.value.1..];
        p := s.value.1;
      }
      var v := DecodeStr(block, p);
      if v.None? {
        return None;
      }
      return Some((Field(name, v.value.0), v.value.1));
    }

    /** One representation: read it at pos and apply it. */
    method DecodeRep(block: seq<byte>, pos0: nat, decoded0: nat, seen0: bool, out0: seq<Field>)
      returns (ok: bool, pos: nat, decoded: nat, seen: bool, out: seq<Field>)
      requires Valid() && pos0 < |block| && 5 * |arena| <= 8 * pos0
      modifies this
      ensures Valid() && 5 * |arena| <= 8 * |block| && arenaCap == old(arenaCap)
      ensures ok ==> pos0 < pos <= |block| && 5 * |arena| <= 8 * pos
      ensures ok <==> Turn(old(State()), decoded0, seen0, out0, block[pos0..]).Some?
      ensures ok ==> Turn(old(State()), decoded0, seen0, out0, block[pos0..]).value ==
                     Read(Progress(State(), decoded, seen, out), pos - pos0)
      ensures !ok ==> State() == old(State()) && out == out0
    {
      hide ReadInt, ReadLiteral, Lookup, Resolve, Evict, SizeOf, Pow2;
      ok, pos, decoded, seen, out := false, pos0, decoded0, seen0, out0;
      var b := block[pos];
      if b >= 0x80 {
        var i := DecodeInt(block, pos, 7);
        if i.None? {
          return;
        }
        var e := Entry(i.value.0);
        if e.None? {
          return;
        }
        var total := decoded + |e.value.name| + |e.value.value|;
        if total > MAX_DECODED_BLOCK {
          return;
        }
        ok, pos, decoded, seen, out := true, i.value.1, total, true, out + [e.value];
      } else if b >= 0x40 {
        var l := DecodeLiteral(block, pos, 6);
        if l.None? {
          return;
        }
        var total := decoded + |l.value.0.name| + |l.value.0.value|;
        if total > MAX_DECODED_BLOCK {
          return;
        }
        Add(l.value.0);
        ok, pos, decoded, seen, out := true, l.value.1, total, true, out + [l.value.0];
      } else if b >= 0x20 {
        if seen {
          return;
        }
        var i := DecodeInt(block, pos, 5);
        if i.None? || i.value.0 > maxSize {
          return;
        }
        curMax := i.value.0;
        EvictOldest();
        ok, pos := true, i.value.1;
      } else {
        var l := DecodeLiteral(block, pos, 4);
        if l.None? {
          return;
        }
        var total := decoded + |l.value.0.name| + |l.value.0.value|;
        if total > MAX_DECODED_BLOCK {
          return;
        }
        ok, pos, decoded, seen, out := true, l.value.1, total, true, out + [l.value.0];
      }
    }

    /** `decode_into`: the block's meaning, and an arena that is never outgrown while the block is decoded. */
    method DecodeInto(block: seq<byte>) returns (ok: bool, out: seq<Field>)
      requires Valid()
      modifies this
      ensures Valid()
      ensures DecodeBlock(old(State()), block) == Decoded(State(), out, ok)
      ensures 5 * |arena| <= 8 * |block| && |arena| <= arenaCap
      ensures block != [] ==> |arena| < 2 * |block| <= arenaCap
    {
      hide DecodeFrom, SizeOf;
      arena := [];
      if arenaCap < 2 * |block| {
        arenaCap := 2 * |block|;
      }
      ok, out := DecodeReps(block);
    }

    /** The loop over the representations of a block. */
    method DecodeReps(block: seq<byte>) returns (ok: bool, out: seq<Field>)
      requires Valid() && arena == [] && arenaCap >= 2 * |block|
      modifies this
      ensures Valid() && arenaCap == old(arenaCap) && 5 * |arena| <= 8 * |block|
      ensures DecodeFrom(Progress(old(State()), 0, false, []), block) == Decoded(State(), out, ok)
    {
      hide DecodeFrom, Turn, SizeOf;
      var pos, decoded, seen := 0, 0, false;
      out := [];
      assert block[0..] == block;
      ghost var whole := DecodeFrom(Progress(State(), 0, false, []), block);
      while pos < |block|
        invariant pos <= |block| && Valid() && 5 * |arena| <= 8 * pos && arenaCap == old(arenaCap)
        invariant DecodeFrom(Progress(State(), decoded, seen, out), block[pos..]) == whole
      {
        ghost var rest, last := block[pos..], pos;
        TurnUnfold(State(), decoded, seen, out, rest);
        ok, pos, decoded, seen, out := DecodeRep(block, pos, decoded, seen, out);
        if !ok {
          return;
        }
        assert rest[pos - last..] == block[pos..];
      }
      NothingLeft(Progress(State(), decoded, seen, out), block[pos..]);
      ok := true;
    }
  }

  /** One turn of the decoding loop: the representation at the front of s, applied. */
  ghost function Turn(t: Table, decoded: nat, seen: bool, out: seq<Field>, s: seq<byte>): Option<Read<Progress>>
    requires s != []
  {
    match ReadRep(s)
    case None => None
    case Some(r) =>
      match Apply(Progress(t, decoded, seen, out), r.value)
      case None => None
      case Some(q) => Some(Read(q, r.size))
  }

  lemma TurnUnfold(t: Table, decoded: nat, seen: bool, out: seq<Field>, s: seq<byte>)
    requires s != []
    ensures DecodeFrom(Progress(t, decoded, seen, out), s) ==
            match Turn(t, decoded, seen, out, s)
            case None => Decoded(t, out, false)
            case Some(r) => if r.size <= |s| then DecodeFrom(r.value, s[r.size..]) else Decoded(t, out, false)
    ensures Turn(t, decoded, seen, out, s).Some? ==> Turn(t, decoded, seen, out, s).value.size <= |s|
  {
    hide ReadRep, Apply;
  }

  lemma NothingLeft(p: Progress, s: seq<byte>)
    requires s == []
    ensures DecodeFrom(p, s) == Decoded(p.table, p.fields, true)
  {
  }

  lemma NoOctets(s: seq<byte>)
    requires s == []
    ensures ReadInt(s, 7).None?
  {
  }
}
