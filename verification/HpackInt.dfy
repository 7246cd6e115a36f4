// http2/hpack.v: prefix integers (RFC 7541 section 5.1).
module HpackInt {
  import opened Bytes

  const LARGEST_INT := 0x1000_0000

  type Prefix = n: nat | 1 <= n <= 8 witness 1

  /** The octets of a value above the prefix: 7 bits each, least significant first. */
  function Groups(v: nat): seq<byte> {
    if v < 128 then [v] else [v % 128 + 128] + Groups(v / 128)
  }

  /** The encoding of `value` with the instruction's flag bits in the high side of the first octet. */
  function IntBytes(flags: byte, prefix: Prefix, value: nat): seq<byte>
    requires flags + Pow2(prefix) <= 256
  {
    if value < Pow2(prefix) - 1 then [flags + value]
    else [flags + Pow2(prefix) - 1] + Groups(value - (Pow2(prefix) - 1))
  }

  /** A number and how many octets it took. */
  datatype Read<+T> = Read(value: T, size: nat)

  function ReadGroups(s: seq<byte>, v: nat, shift: nat): (r: Option<Read<nat>>)
    ensures r.Some? ==> 0 < r.value.size <= |s|
  {
    if s == [] then None
    else
      var sum := v + s[0] % 128 * Pow2(shift);
      if shift + 7 > 35 then None
      else if s[0] < 128 then Some(Read(sum, 1))
      else
        match ReadGroups(s[1..], sum, shift + 7)
        case None => None
        case Some(r) => Some(Read(r.value, r.size + 1))
  }

  /** The rest of an integer whose prefix holds v. */
  function ReadRest(v: nat, mask: nat, more: seq<byte>): (r: Option<Read<nat>>)
    requires mask < 256
    ensures r.Some? ==> 0 < r.value.size <= 1 + |more| && r.value.value <= LARGEST_INT
  {
    if v < mask then Some(Read(v, 1))
    else
      match ReadGroups(more, v, 0)
      case None => None
      case Some(r) => if r.value > LARGEST_INT then None else Some(Read(r.value, r.size + 1))
  }

  /** The integer at the front of s: none when s ends first, the number takes more than five octets after
      the prefix, or it is above 2^28. */
  function ReadInt(s: seq<byte>, prefix: Prefix): (r: Option<Read<nat>>)
    ensures r.Some? ==> 0 < r.value.size <= |s| && r.value.value <= LARGEST_INT
  {
    if s == [] then None
    else
      SmallPrefix(prefix);
      ReadRest(s[0] % Pow2(prefix), Pow2(prefix) - 1, s[1..])
  }

  lemma SmallPrefix(prefix: Prefix)
    ensures Pow2(prefix) <= 256
  {
    assert Pow2(8) == 256;
    Pow2Add(prefix, 8 - prefix);
    assert Pow2(prefix) * Pow2(8 - prefix) >= Pow2(prefix);
  }

  method DecodeInt(block: seq<byte>, pos: nat, prefix: Prefix) returns (r: Option<(nat, nat)>)
    requires pos <= |block|
    ensures r == match ReadInt(block[pos..], prefix)
                 case None => None
                 case Some(x) => Some((x.value, pos + x.size))
  {
    if pos >= |block| {
      return None;
    }
    var mask := Pow2(prefix) - 1;
    var v: nat := block[pos] % Pow2(prefix);
    var p := pos + 1;
    if v < mask {
      return Some((v, p));
    }
    var shift := 0;
    ghost var start := v;
    assert block[pos..][1..] == block[p..];
    while true
      invariant pos < p <= |block|
      invariant match ReadGroups(block[p..], v, shift)
                case None => ReadGroups(block[pos + 1..], start, 0).None?
                case Some(x) => ReadGroups(block[pos + 1..], start, 0) == Some(Read(x.value, x.size + (p - pos - 1)))
      decreases |block| - p
    {
      if p >= |block| {
        return None;
      }
      var b := block[p];
      p := p + 1;
      v := v + b % 128 * Pow2(shift);
      shift := shift + 7;
      assert block[p - 1..][1..] == block[p..];
      if shift > 35 {
        return None;
      }
      if b < 128 {
        break;
      }
    }
    if v > LARGEST_INT {
      return None;
    }
    return Some((v, p));
  }

  lemma GroupsUnfold(v: nat)
    ensures Groups(v) == if v < 128 then [v] else [v % 128 + 128] + Groups(v / 128)
  {
  }

  /** The loop of `encode_int`: seven bits at a time, low ones first. */
  method EncodeGroups(out0: seq<byte>, value: nat) returns (out: seq<byte>)
    ensures out == out0 + Groups(value)
  {
    hide Groups;
    out := out0;
    var v := value;
    while v >= 0x80
      invariant out + Groups(v) == out0 + Groups(value)
    {
      GroupsUnfold(v);
      Assoc(out, [v % 128 + 128], Groups(v / 128));
      out := out + [v % 128 + 128];
      v := v / 128;
    }
    GroupsUnfold(v);
    out := out + [v];
  }

  method EncodeInt(out0: seq<byte>, flags: byte, prefix: Prefix, value: nat) returns (out: seq<byte>)
    requires flags + Pow2(prefix) <= 256
    ensures out == out0 + IntBytes(flags, prefix, value)
  {
    hide Pow2, Groups;
    var mask := Pow2(prefix) - 1;
    if value < mask {
      return out0 + [flags + value];
    }
    out := EncodeGroups(out0 + [flags + mask], value - mask);
    Assoc(out0, [flags + mask], Groups(value - mask));
  }

  // ----- round trip

  lemma {:induction false} GroupsCount(v: nat, n: nat)
    requires n >= 1 && v < Pow2(7 * n)
    ensures |Groups(v)| <= n
    decreases n
  {
    if v >= 128 {
      assert Pow2(7) == 128;
      if n == 1 {
        assert false;
      }
      Pow2Add(7 * (n - 1), 7);
      assert v / 128 < Pow2(7 * (n - 1));
      GroupsCount(v / 128, n - 1);
    }
  }

  lemma ReadGroupsStep(s: seq<byte>, v: nat, shift: nat)
    requires s != [] && shift + 7 <= 35 && s[0] >= 128
    ensures ReadGroups(s, v, shift) ==
            match ReadGroups(s[1..], v + s[0] % 128 * Pow2(shift), shift + 7)
            case None => None
            case Some(r) => Some(Read(r.value, r.size + 1))
  {
    hide Pow2;
  }

  lemma ReadLastGroup(v: byte, acc: nat, shift: nat, rest: seq<byte>)
    requires v < 128 && shift + 7 <= 35
    ensures ReadGroups([v] + rest, acc, shift) == Some(Read(acc + v * Pow2(shift), 1))
  {
    hide Pow2;
  }

  lemma {:induction false} ReadWrittenGroups(v: nat, acc: nat, shift: nat, rest: seq<byte>)
    requires shift + 7 * |Groups(v)| <= 35
    ensures ReadGroups(Groups(v) + rest, acc, shift) == Some(Read(acc + v * Pow2(shift), |Groups(v)|))
    decreases v
  {
    var s := Groups(v) + rest;
    if v < 128 {
      ReadLastGroup(v, acc, shift, rest);
    } else {
      assert s[1..] == Groups(v / 128) + rest && s[0] == v % 128 + 128;
      hide Pow2, Groups, ReadGroups;
      NextShift(shift);
      ReadGroupsStep(s, acc, shift);
      var p := Pow2(shift);
      ReadWrittenGroups(v / 128, acc + v % 128 * p, shift + 7, rest);
      Recombine(v, p, Pow2(shift + 7));
    }
  }

  lemma NextShift(shift: nat)
    ensures Pow2(shift + 7) == Pow2(shift) * 128
  {
    assert Pow2(7) == 128;
    Pow2Add(shift, 7);
  }

  lemma Recombine(v: nat, p: nat, next: nat)
    requires next == p * 128
    ensures v % 128 * p + v / 128 * next == v * p
  {
    var q, r := v / 128, v % 128;
    assert v == q * 128 + r;
    assert q * (p * 128) == (q * 128) * p;
    assert (q * 128 + r) * p == (q * 128) * p + r * p;
  }

  lemma ReadWritten(v: nat, acc: nat, rest: seq<byte>)
    requires v <= LARGEST_INT - 1
    ensures ReadGroups(Groups(v) + rest, acc, 0) == Some(Read(acc + v, |Groups(v)|))
  {
    hide Groups, ReadGroups;
    Pow2Of28();
    GroupsCount(v, 4);
    ReadWrittenGroups(v, acc, 0, rest);
    assert Pow2(0) == 1;
  }

  lemma ReadFirst(flags: byte, prefix: Prefix, v: nat, more: seq<byte>)
    requires flags % Pow2(prefix) == 0 && flags + Pow2(prefix) <= 256 && v < Pow2(prefix)
    ensures ReadInt([flags + v] + more, prefix) == ReadRest(v, Pow2(prefix) - 1, more)
  {
    hide Pow2, ReadRest;
    LowBits(flags, Pow2(prefix), v);
    assert ([flags + v] + more)[1..] == more;
  }

  /** Every value up to 2^28 reads back, whatever octets follow. */
  lemma IntRoundTrip(flags: byte, prefix: Prefix, value: nat, rest: seq<byte>)
    requires value <= LARGEST_INT
    requires flags % Pow2(prefix) == 0 && flags + Pow2(prefix) <= 256
    ensures ReadInt(IntBytes(flags, prefix, value) + rest, prefix) ==
            Some(Read(value, |IntBytes(flags, prefix, value)|))
  {
    hide Pow2, Groups, ReadGroups, ReadInt;
    var d := Pow2(prefix);
    if value < d - 1 {
      ReadFirst(flags, prefix, value, rest);
    } else {
      var more := Groups(value - (d - 1));
      ReadFirst(flags, prefix, d - 1, more + rest);
      Assoc([flags + d - 1], more, rest);
      Pow2Of(prefix);
      ReadWritten(value - (d - 1), d - 1, rest);
    }
  }

  lemma Pow2Of(prefix: Prefix)
    ensures Pow2(prefix) >= 2
  {
    assert Pow2(prefix) == 2 * Pow2(prefix - 1);
  }

  lemma LowBits(flags: nat, d: nat, v: nat)
    requires v < d && flags % d == 0
    ensures (flags + v) % d == v
  {
    assert flags == flags / d * d;
    DivModUnique(flags / d, d, v);
  }

  lemma Pow2Of28()
    ensures Pow2(28) == LARGEST_INT
  {
    assert Pow2(7) == 128;
    Pow2Add(7, 7);
    Pow2Add(14, 14);
  }
}
