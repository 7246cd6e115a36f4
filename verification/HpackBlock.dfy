// What a header block means (RFC 7541 sections 5.2, 6 and 4.2): a sequence of representations, each read off
// the front and then applied to the dynamic table. The decoder in HpackDecoder.dfy is proved against this.
module HpackBlock {
  import opened Bytes
  import opened HpackInt
  import opened HpackTable
  import BitStrings
  import Huffman
  import HuffmanTable

  const MAX_DECODED_BLOCK := 256 * 1024

  // ----- string literals

  /** src is the Huffman coding of o under the HPACK code. */
  ghost predicate HuffmanOf(src: seq<byte>, o: seq<byte>) {
    HuffmanTable.HpackIsCanonical();
    Huffman.Coding(HuffmanTable.Hpack(), src, o)
  }

  lemma HuffmanUnique(src: seq<byte>, a: seq<byte>, b: seq<byte>)
    requires HuffmanOf(src, a) && HuffmanOf(src, b)
    ensures a == b
  {
    HuffmanTable.HpackIsCanonical();
    hide HuffmanTable.Hpack;
    Huffman.CodingUnique(HuffmanTable.Hpack(), src, a, b);
  }

  lemma HuffmanEmpty()
    ensures HuffmanOf([], [])
  {
    HuffmanTable.HpackIsCanonical();
    hide HuffmanTable.Hpack;
    var t := HuffmanTable.Hpack();
    Huffman.CodesFront(t, [], []);
    assert Huffman.Text(t, []) == [] && BitStrings.Ones(0) == [] && BitStrings.BitsOf([]) == [];
    assert BitStrings.BitsOf([]) == Huffman.Codes(t, []) + BitStrings.Ones(0);
  }

  /** The string literal at the front of s: a Huffman flag, a length, and that many octets. */
  ghost function ReadStr(s: seq<byte>): (r: Option<Read<seq<byte>>>)
    ensures r.Some? ==> 0 < r.value.size <= |s|
  {
    match ReadInt(s, 7)
    case None => None
    case Some(len) =>
      var end := len.size + len.value;
      if end > |s| then None
      else
        var raw := s[len.size..end];
        if s[0] < 128 then Some(Read(raw, end))
        else if exists o :: HuffmanOf(raw, o) then
          var o :| HuffmanOf(raw, o);
          Some(Read(o, end))
        else None
  }

  // ----- representations

  /** A literal's name is the one at index idx, or `name` when idx is 0. */
  datatype Literal = Literal(idx: nat, name: seq<byte>, value: seq<byte>)

  datatype Rep =
    | Indexed(idx: nat)
    | Indexing(lit: Literal)
    | NotIndexing(lit: Literal)
    | SizeUpdate(max: nat)

  ghost function ReadLiteral(s: seq<byte>, prefix: Prefix): (r: Option<Read<Literal>>)
    ensures r.Some? ==> 0 < r.value.size <= |s|
  {
    match ReadInt(s, prefix)
    case None => None
    case Some(i) =>
      match ReadStr(s[i.size..])
      case None => None
      case Some(a) =>
        if i.value > 0 then Some(Read(Literal(i.value, [], a.value), i.size + a.size))
        else
          match ReadStr(s[i.size + a.size..])
          case None => None
          case Some(b) => Some(Read(Literal(0, a.value, b.value), i.size + a.size + b.size))
  }

  /** The representation at the front of s, told apart by the high bits of the first octet. */
  ghost function ReadRep(s: seq<byte>): (r: Option<Read<Rep>>)
    requires s != []
    ensures r.Some? ==> 0 < r.value.size <= |s|
  {
    if s[0] >= 0x80 then
      match ReadInt(s, 7)
      case None => None
      case Some(x) => Some(Read(Indexed(x.value), x.size))
    else if s[0] >= 0x40 then
      match ReadLiteral(s, 6)
      case None => None
      case Some(x) => Some(Read(Indexing(x.value), x.size))
    else if s[0] >= 0x20 then
      match ReadInt(s, 5)
      case None => None
      case Some(x) => Some(Read(SizeUpdate(x.value), x.size))
    else
      match ReadLiteral(s, 4)
      case None => None
      case Some(x) => Some(Read(NotIndexing(x.value), x.size))
  }

  // ----- applying them

  datatype Progress = Progress(table: Table, decoded: nat, seen: bool, fields: seq<Field>)

  function Emit(p: Progress, f: Field): Option<Progress> {
    var total := p.decoded + |f.name| + |f.value|;
    if total > MAX_DECODED_BLOCK then None
    else Some(Progress(p.table, total, true, p.fields + [f]))
  }

  function Resolve(t: Table, lit: Literal): Option<Field> {
    if lit.idx == 0 then Some(Field(lit.name, lit.value))
    else
      match Lookup(t, lit.idx)
      case None => None
      case Some(f) => Some(Field(f.name, lit.value))
  }

  function Apply(p: Progress, rep: Rep): Option<Progress> {
    match rep
    case Indexed(idx) =>
      (match Lookup(p.table, idx)
       case None => None
       case Some(f) => Emit(p, f))
    case Indexing(lit) =>
      (match Resolve(p.table, lit)
       case None => None
       case Some(f) =>
         match Emit(p, f)
         case None => None
         case Some(q) => Some(q.(table := Insert(q.table, f))))
    case NotIndexing(lit) =>
      (match Resolve(p.table, lit)
       case None => None
       case Some(f) => Emit(p, f))
    case SizeUpdate(max) =>
      if p.seen || max > p.table.maxSize then None
      else Some(p.(table := Resize(p.table, max)))
  }

  /** The outcome of a block: the table it leaves, also when it fails, and the fields it listed. */
  datatype Decoded = Decoded(table: Table, fields: seq<Field>, ok: bool)

  ghost function DecodeFrom(p: Progress, s: seq<byte>): Decoded
    decreases |s|
  {
    if s == [] then Decoded(p.table, p.fields, true)
    else
      match ReadRep(s)
      case None => Decoded(p.table, p.fields, false)
      case Some(r) =>
        match Apply(p, r.value)
        case None => Decoded(p.table, p.fields, false)
        case Some(q) => DecodeFrom(q, s[r.size..])
  }

  ghost function DecodeBlock(t: Table, block: seq<byte>): Decoded {
    DecodeFrom(Progress(t, 0, false, []), block)
  }

  lemma ApplyValid(p: Progress, rep: Rep)
    requires ValidTable(p.table)
    ensures match Apply(p, rep)
            case None => true
            case Some(q) => ValidTable(q.table) && q.table.maxSize == p.table.maxSize && p.fields <= q.fields
  {
    match rep
    case Indexing(lit) =>
      if Resolve(p.table, lit).Some? {
        InsertValid(p.table, Resolve(p.table, lit).value);
      }
    case SizeUpdate(max) =>
      if max <= p.table.maxSize {
        ResizeValid(p.table, max);
      }
    case _ =>
  }

  lemma {:induction false} DecodeFromValid(p: Progress, s: seq<byte>)
    requires ValidTable(p.table)
    ensures ValidTable(DecodeFrom(p, s).table) && DecodeFrom(p, s).table.maxSize == p.table.maxSize
    decreases |s|
  {
    hide Apply, ReadRep;
    if s != [] {
      match ReadRep(s)
      case None =>
      case Some(r) =>
        ApplyValid(p, r.value);
        match Apply(p, r.value)
        case None =>
        case Some(q) => DecodeFromValid(q, s[r.size..]);
    }
  }

  /** After every block, failed ones included, the table fits its limit and the limit the ceiling. */
  lemma BlockKeepsTable(t: Table, block: seq<byte>)
    requires ValidTable(t)
    ensures ValidTable(DecodeBlock(t, block).table) && DecodeBlock(t, block).table.maxSize == t.maxSize
  {
    DecodeFromValid(Progress(t, 0, false, []), block);
  }

  // ----- any legal encoder

  /** b is a string literal for o, raw or Huffman-coded. */
  ghost predicate StrCoding(b: seq<byte>, o: seq<byte>) {
    || (|o| <= LARGEST_INT && b == IntBytes(0x00, 7, |o|) + o)
    || (exists src :: |src| <= LARGEST_INT && HuffmanOf(src, o) && b == IntBytes(0x80, 7, |src|) + src)
  }

  ghost predicate LiteralCoding(b: seq<byte>, flags: byte, prefix: Prefix, lit: Literal)
    requires flags + Pow2(prefix) <= 256
  {
    && lit.idx <= LARGEST_INT
    && if lit.idx > 0 then
         lit.name == [] && exists v :: StrCoding(v, lit.value) && b == IntBytes(flags, prefix, lit.idx) + v
       else
         exists n, v :: StrCoding(n, lit.name) && StrCoding(v, lit.value) && b == IntBytes(flags, prefix, 0) + n + v
  }

  /** b is an encoding of the representation, by any encoder that writes integers in their shortest form. */
  ghost predicate RepCoding(b: seq<byte>, rep: Rep) {
    Powers();
    match rep
    case Indexed(idx) => idx <= LARGEST_INT && b == IntBytes(0x80, 7, idx)
    case Indexing(lit) => LiteralCoding(b, 0x40, 6, lit)
    case NotIndexing(lit) => LiteralCoding(b, 0x00, 4, lit) || LiteralCoding(b, 0x10, 4, lit)
    case SizeUpdate(max) => max <= LARGEST_INT && b == IntBytes(0x20, 5, max)
  }

  ghost predicate BlockCoding(b: seq<byte>, reps: seq<Rep>)
    decreases |reps|
  {
    if reps == [] then b == []
    else exists h, rest :: RepCoding(h, reps[0]) && BlockCoding(rest, reps[1..]) && b == h + rest
  }

  /** The meaning of a list of representations. */
  function Interpret(p: Progress, reps: seq<Rep>): Decoded
    decreases |reps|
  {
    if reps == [] then Decoded(p.table, p.fields, true)
    else
      match Apply(p, reps[0])
      case None => Decoded(p.table, p.fields, false)
      case Some(q) => Interpret(q, reps[1..])
  }

  lemma Powers()
    ensures Pow2(4) == 16 && Pow2(5) == 32 && Pow2(6) == 64 && Pow2(7) == 128
  {
  }

  lemma FirstOctet(flags: byte, prefix: Prefix, value: nat)
    requires flags + Pow2(prefix) <= 256
    ensures var b := IntBytes(flags, prefix, value);
            |b| > 0 && flags <= b[0] < flags + Pow2(prefix)
  {
  }

  lemma ReadCodedStr(b: seq<byte>, o: seq<byte>, rest: seq<byte>)
    requires StrCoding(b, o)
    ensures ReadStr(b + rest) == Some(Read(o, |b|))
  {
    Powers();
    hide HuffmanOf, IntBytes, ReadInt, Pow2;
    var s := b + rest;
    if |o| <= LARGEST_INT && b == IntBytes(0x00, 7, |o|) + o {
      var n := IntBytes(0x00, 7, |o|);
      FirstOctet(0x00, 7, |o|);
      IntRoundTrip(0x00, 7, |o|, o + rest);
      assert s == n + (o + rest);
      assert s[|n|..|n| + |o|] == o;
    } else {
      var src :| |src| <= LARGEST_INT && HuffmanOf(src, o) && b == IntBytes(0x80, 7, |src|) + src;
      var n := IntBytes(0x80, 7, |src|);
      FirstOctet(0x80, 7, |src|);
      IntRoundTrip(0x80, 7, |src|, src + rest);
      assert s == n + (src + rest);
      assert s[|n|..|n| + |src|] == src;
      forall x | HuffmanOf(src, x) ensures x == o { HuffmanUnique(src, x, o); }
    }
  }

  lemma ReadIndexed(i: seq<byte>, v: seq<byte>, flags: byte, prefix: Prefix, lit: Literal, rest: seq<byte>)
    requires flags % Pow2(prefix) == 0 && flags + Pow2(prefix) <= 256 && 0 < lit.idx <= LARGEST_INT && lit.name == []
    requires i == IntBytes(flags, prefix, lit.idx) && StrCoding(v, lit.value)
    ensures ReadLiteral(i + v + rest, prefix) == Some(Read(lit, |i + v|))
  {
    hide IntBytes, ReadInt, Pow2, ReadStr, StrCoding;
    var s := i + v + rest;
    IntRoundTrip(flags, prefix, lit.idx, v + rest);
    assert s == i + (v + rest) && s[|i|..] == v + rest;
    ReadCodedStr(v, lit.value, rest);
  }

  lemma ReadNamed(i: seq<byte>, n: seq<byte>, v: seq<byte>, flags: byte, prefix: Prefix, lit: Literal, rest: seq<byte>)
    requires flags % Pow2(prefix) == 0 && flags + Pow2(prefix) <= 256 && lit.idx == 0
    requires i == IntBytes(flags, prefix, 0) && StrCoding(n, lit.name) && StrCoding(v, lit.value)
    ensures ReadLiteral(i + n + v + rest, prefix) == Some(Read(lit, |i + n + v|))
  {
    hide IntBytes, ReadInt, Pow2, ReadStr, StrCoding;
    var s := i + n + v + rest;
    IntRoundTrip(flags, prefix, 0, n + (v + rest));
    assert s == i + (n + (v + rest)) && s[|i|..] == n + (v + rest);
    ReadCodedStr(n, lit.name, v + rest);
    assert s[|i| + |n|..] == v + rest;
    ReadCodedStr(v, lit.value, rest);
  }

  lemma ReadCodedLiteral(b: seq<byte>, flags: byte, prefix: Prefix, lit: Literal, rest: seq<byte>)
    requires flags % Pow2(prefix) == 0 && flags + Pow2(prefix) <= 256 && LiteralCoding(b, flags, prefix, lit)
    ensures ReadLiteral(b + rest, prefix) == Some(Read(lit, |b|))
    ensures |b| > 0 && flags <= b[0] < flags + Pow2(prefix)
  {
    hide IntBytes, ReadInt, Pow2, ReadLiteral, StrCoding;
    var i := IntBytes(flags, prefix, lit.idx);
    FirstOctet(flags, prefix, lit.idx);
    if lit.idx > 0 {
      var v :| StrCoding(v, lit.value) && b == i + v;
      ReadIndexed(i, v, flags, prefix, lit, rest);
    } else {
      var n, v :| StrCoding(n, lit.name) && StrCoding(v, lit.value) && b == i + n + v;
      ReadNamed(i, n, v, flags, prefix, lit, rest);
    }
  }

  lemma ReadCodedRep(b: seq<byte>, rep: Rep, rest: seq<byte>)
    requires RepCoding(b, rep)
    ensures b != [] && ReadRep(b + rest) == Some(Read(rep, |b|))
  {
    Powers();
    hide IntBytes, ReadInt, Pow2, ReadLiteral, LiteralCoding;
    assert b != [] ==> (b + rest)[0] == b[0];
    match rep
    case Indexed(idx) =>
      FirstOctet(0x80, 7, idx);
      IntRoundTrip(0x80, 7, idx, rest);
    case Indexing(lit) =>
      ReadCodedLiteral(b, 0x40, 6, lit, rest);
    case NotIndexing(lit) =>
      if LiteralCoding(b, 0x00, 4, lit) {
        ReadCodedLiteral(b, 0x00, 4, lit, rest);
      } else {
        ReadCodedLiteral(b, 0x10, 4, lit, rest);
      }
    case SizeUpdate(max) =>
      FirstOctet(0x20, 5, max);
      IntRoundTrip(0x20, 5, max, rest);
  }

  lemma {:induction false} DecodeCoded(p: Progress, b: seq<byte>, reps: seq<Rep>)
    requires BlockCoding(b, reps)
    ensures DecodeFrom(p, b) == Interpret(p, reps)
    decreases |reps|
  {
    hide RepCoding, ReadRep, Apply;
    if reps != [] {
      var h, rest :| RepCoding(h, reps[0]) && BlockCoding(rest, reps[1..]) && b == h + rest;
      ReadCodedRep(h, reps[0], rest);
      assert b[|h|..] == rest;
      match Apply(p, reps[0])
      case None =>
      case Some(q) => DecodeCoded(q, rest, reps[1..]);
    }
  }

  /** The decoder inverts every legal encoder: however the representations were written (raw or Huffman
      strings, indexed or not), decoding their octets is interpreting them. */
  lemma DecodeInvertsEncoding(t: Table, b: seq<byte>, reps: seq<Rep>)
    requires BlockCoding(b, reps)
    ensures DecodeBlock(t, b) == Interpret(Progress(t, 0, false, []), reps)
  {
    DecodeCoded(Progress(t, 0, false, []), b, reps);
  }
}
