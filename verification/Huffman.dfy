// http2/hpack.v: canonical Huffman decoding (RFC 7541 section 5.2), over any table that satisfies the
// canonical recurrence. HuffmanTable.dfy holds the constants of RFC 7541 Appendix B.
module Huffman {
  import opened Bytes
  import opened BitStrings

  const EOS: nat := 256

  type Symbol = s: nat | s <= EOS

  /** A place in `symbol`, which lists the symbols in code order. */
  type Place = p: nat | p <= EOS

  /** Per level i: the code length, the first code, how many codes, and where their symbols start. */
  datatype HuffTable = HuffTable(len: seq<nat>, first: seq<nat>, count: seq<nat>, base: seq<nat>, symbol: seq<Symbol>)

  ghost predicate Shaped(t: HuffTable) {
    && 0 < |t.len| == |t.first| == |t.count| == |t.base|
    && |t.symbol| == EOS + 1
    && (forall i :: 0 <= i < |t.len| ==> t.len[i] > 0 && t.count[i] > 0 && t.base[i] + t.count[i] <= EOS + 1)
    && (forall i, j :: 0 <= i < j < |t.len| ==> t.len[i] < t.len[j])
  }

  /** One level's codes continue the previous level's, padded to the greater length. */
  ghost predicate Recurs(t: HuffTable, i: nat)
    requires Shaped(t) && i + 1 < |t.len|
  {
    && t.first[i + 1] == (t.first[i] + t.count[i]) * Pow2(t.len[i + 1] - t.len[i])
    && t.base[i + 1] == t.base[i] + t.count[i]
  }

  ghost predicate Canonical(t: HuffTable) {
    && Shaped(t)
    && t.first[0] == 0 && t.base[0] == 0
    && (forall i :: 0 <= i < |t.len| - 1 ==> Recurs(t, i))
    && Limit(t, |t.len| - 1) == Pow2(Longest(t))
    && t.base[|t.len| - 1] + t.count[|t.len| - 1] == EOS + 1
  }

  ghost function Longest(t: HuffTable): nat
    requires Shaped(t)
  {
    t.len[|t.len| - 1]
  }

  /** One past the last code of level i. */
  ghost function Limit(t: HuffTable, i: nat): nat
    requires Shaped(t) && i < |t.len|
  {
    t.first[i] + t.count[i]
  }

  // ----- the code

  ghost function LevelFrom(t: HuffTable, p: nat, i: nat): nat
    requires Shaped(t) && i < |t.len|
    decreases |t.len| - i
  {
    if i == |t.len| - 1 || p < t.base[i] + t.count[i] then i else LevelFrom(t, p, i + 1)
  }

  /** The level of the p-th symbol in code order. */
  ghost function Level(t: HuffTable, p: nat): nat
    requires Shaped(t)
  {
    LevelFrom(t, p, 0)
  }

  /** The bits of code k of level i. */
  ghost function CodeAt(t: HuffTable, i: nat, k: nat): Bits
    requires Shaped(t) && i < |t.len|
  {
    ToBits(t.first[i] + k, t.len[i])
  }

  /** The code word at place p. */
  ghost function Code(t: HuffTable, p: Place): Bits
    requires Canonical(t)
  {
    LevelBounds(t, p, 0);
    CodeAt(t, Level(t, p), p - t.base[Level(t, p)])
  }

  ghost function Codes(t: HuffTable, o: seq<Place>): Bits
    requires Canonical(t)
  {
    if o == [] then [] else Code(t, o[0]) + Codes(t, o[1..])
  }

  /** The symbols at the places ps. */
  ghost function Text(t: HuffTable, ps: seq<Place>): (o: seq<Symbol>)
    requires Shaped(t)
    ensures |o| == |ps|
  {
    seq(|ps|, i requires 0 <= i < |ps| => t.symbol[ps[i]])
  }

  /** src is the coding of o: code words of the octets of o, then 0 to 7 one bits (RFC 7541 section 5.2). */
  ghost predicate Coding(t: HuffTable, src: seq<byte>, o: seq<byte>)
    requires Canonical(t)
  {
    exists ps: seq<Place>, pad: nat :: pad <= 7 && Text(t, ps) == o && BitsOf(src) == Codes(t, ps) + Ones(pad)
  }

  lemma {:induction false} LevelBounds(t: HuffTable, p: nat, i: nat)
    requires Canonical(t) && i < |t.len| && t.base[i] <= p <= EOS
    ensures var j := LevelFrom(t, p, i); i <= j < |t.len| && t.base[j] <= p < t.base[j] + t.count[j]
    decreases |t.len| - i
  {
    if !(i == |t.len| - 1 || p < t.base[i] + t.count[i]) {
      assert Recurs(t, i);
      LevelBounds(t, p, i + 1);
    }
  }

  lemma {:induction false} LevelExact(t: HuffTable, i: nat, k: nat, j: nat)
    requires Canonical(t) && j <= i < |t.len| && k < t.count[i]
    ensures LevelFrom(t, t.base[i] + k, j) == i
    decreases i - j
  {
    if j < i {
      BaseAscends(t, j, i);
      LevelExact(t, i, k, j + 1);
    }
  }

  lemma {:induction false} BaseAscends(t: HuffTable, j: nat, i: nat)
    requires Canonical(t) && j < i < |t.len|
    ensures t.base[j] + t.count[j] <= t.base[i]
    decreases i - j
  {
    assert Recurs(t, j);
    if j + 1 < i {
      BaseAscends(t, j + 1, i);
    }
  }

  /** Place base[i] + k holds code k of level i. */
  lemma CodeOfPlace(t: HuffTable, i: nat, k: nat)
    requires Canonical(t) && i < |t.len| && k < t.count[i]
    ensures Code(t, t.base[i] + k) == CodeAt(t, i, k)
  {
    LevelExact(t, i, k, 0);
  }

  // ----- codes against windows

  /** The first len[i] bits of w are a code of level i. */
  ghost predicate Matches(t: HuffTable, w: Bits, i: nat)
    requires Shaped(t) && i < |t.len|
  {
    t.len[i] <= |w| && t.first[i] <= Value(w[..t.len[i]]) < Limit(t, i)
  }

  /** No code word is a prefix of w. */
  ghost predicate Stuck(t: HuffTable, w: Bits)
    requires Shaped(t)
  {
    forall i :: 0 <= i < |t.len| ==> !Matches(t, w, i)
  }

  lemma PrefixGrows(w: Bits, a: nat, b: nat)
    requires a <= b <= |w|
    ensures Value(w[..a]) * Pow2(b - a) <= Value(w[..b]) < (Value(w[..a]) + 1) * Pow2(b - a)
  {
    hide Value, Pow2;
    SplitWindow(w[..b], a);
    assert w[..b][..a] == w[..a];
    var d, q := Pow2(b - a), Value(w[..a]);
    assert (q + 1) * d == q * d + d;
  }

  lemma Distribute(a: nat, b: nat, d: nat)
    ensures (a + b) * d == a * d + b * d
  {
  }

  lemma ScaleLess(a: nat, b: nat, d: nat)
    requires a < b && d > 0
    ensures (a + 1) * d <= b * d
  {
    Distribute(a + 1, b - a - 1, d);
  }

  lemma ScaleLeq(a: nat, b: nat, d: nat)
    requires a <= b
    ensures a * d <= b * d
  {
    Distribute(a, b - a, d);
  }

  /** Below level i's limit means below every later level's first code; at or above means at or above the next. */
  lemma NextLevel(t: HuffTable, w: Bits, i: nat)
    requires Canonical(t) && i + 1 < |t.len| && t.len[i + 1] <= |w|
    ensures Value(w[..t.len[i]]) < Limit(t, i) ==> Value(w[..t.len[i + 1]]) < t.first[i + 1]
    ensures Value(w[..t.len[i]]) >= Limit(t, i) ==> Value(w[..t.len[i + 1]]) >= t.first[i + 1]
  {
    hide Value, Pow2;
    var a, b := t.len[i], t.len[i + 1];
    assert Recurs(t, i) && a < b;
    PrefixGrows(w, a, b);
    var d, q := Pow2(b - a), Value(w[..a]);
    if q < Limit(t, i) {
      ScaleLess(q, Limit(t, i), d);
    } else {
      ScaleLeq(Limit(t, i), q, d);
    }
  }

  lemma {:induction false} NoLaterMatch(t: HuffTable, w: Bits, i: nat, j: nat)
    requires Canonical(t) && i < j < |t.len|
    requires t.len[i] <= |w| && Value(w[..t.len[i]]) < Limit(t, i)
    ensures !Matches(t, w, j)
    decreases j - i
  {
    if t.len[j] <= |w| {
      assert t.len[i + 1] <= t.len[j];
      NextLevel(t, w, i);
      if i + 1 < j {
        NoLaterMatch(t, w, i + 1, j);
      }
    }
  }

  /** The code is prefix-free: at most one level matches. */
  lemma UniqueLevel(t: HuffTable, w: Bits, i: nat, j: nat)
    requires Canonical(t) && i < |t.len| && j < |t.len|
    requires Matches(t, w, i) && Matches(t, w, j)
    ensures i == j
  {
    if i < j {
      NoLaterMatch(t, w, i, j);
    } else if j < i {
      NoLaterMatch(t, w, j, i);
    }
  }

  /** The code is complete: once as many bits as the longest code are in the window, some level matches. */
  lemma {:induction false} Complete(t: HuffTable, w: Bits, i: nat)
    requires Canonical(t) && Longest(t) <= |w| && i < |t.len|
    requires Value(w[..t.len[i]]) >= t.first[i]
    ensures !Stuck(t, w)
    decreases |t.len| - i
  {
    assert t.len[i] <= Longest(t);
    if i == |t.len| - 1 {
      ValueBound(w[..t.len[i]]);
      assert Matches(t, w, i);
    } else if Value(w[..t.len[i]]) < Limit(t, i) {
      assert Matches(t, w, i);
    } else {
      NextLevel(t, w, i);
      Complete(t, w, i + 1);
    }
  }

  lemma LongWindowMatches(t: HuffTable, w: Bits)
    requires Canonical(t) && Longest(t) <= |w|
    ensures !Stuck(t, w)
  {
    assert t.len[0] <= Longest(t);
    Complete(t, w, 0);
  }

  /** Every level fits its length, and below the last level the all-ones string is no code. */
  lemma {:induction false} LimitFits(t: HuffTable, i: nat)
    requires Canonical(t) && i < |t.len|
    ensures Limit(t, i) <= Pow2(t.len[i])
    ensures i < |t.len| - 1 ==> Limit(t, i) < Pow2(t.len[i])
    decreases |t.len| - i
  {
    if i < |t.len| - 1 {
      LimitFits(t, i + 1);
      assert Recurs(t, i);
      var a, b := t.len[i], t.len[i + 1];
      assert a < b;
      Pow2Add(a, b - a);
      assert t.first[i + 1] < Limit(t, i + 1) <= Pow2(a) * Pow2(b - a);
      if Limit(t, i) >= Pow2(a) {
        ScaleLeq(Pow2(a), Limit(t, i), Pow2(b - a));
      }
    }
  }

  lemma OnesStuck(t: HuffTable, n: nat)
    requires Canonical(t) && n < Longest(t)
    ensures Stuck(t, Ones(n))
  {
    forall i | 0 <= i < |t.len| && t.len[i] <= n
      ensures !Matches(t, Ones(n), i)
    {
      assert Ones(n)[..t.len[i]] == Ones(t.len[i]);
      ValueOnes(t.len[i]);
      LimitFits(t, i);
    }
  }

  /** A match is a code word at the front of the window. */
  lemma MatchIsCode(t: HuffTable, w: Bits, i: nat)
    requires Canonical(t) && i < |t.len| && Matches(t, w, i)
    ensures var k := Value(w[..t.len[i]]) - t.first[i];
            k < t.count[i] && Code(t, t.base[i] + k) == w[..t.len[i]]
  {
    ToBitsValue(w[..t.len[i]]);
    CodeOfPlace(t, i, Value(w[..t.len[i]]) - t.first[i]);
  }

  /** A code word at the front of a window is a match, at its own level and offset. */
  lemma CodeMatches(t: HuffTable, p: Place, rest: Bits)
    requires Canonical(t)
    ensures var i := Level(t, p);
            i < |t.len| && t.base[i] <= p && |Code(t, p)| == t.len[i]
            && Matches(t, Code(t, p) + rest, i)
            && Value((Code(t, p) + rest)[..t.len[i]]) == t.first[i] + (p - t.base[i])
  {
    LevelBounds(t, p, 0);
    var i := Level(t, p);
    assert (Code(t, p) + rest)[..t.len[i]] == Code(t, p);
    LimitFits(t, i);
    ValueToBits(t.first[i] + (p - t.base[i]), t.len[i]);
  }

  lemma SameFront(t: HuffTable, a: Place, x: Bits, b: Place, y: Bits)
    requires Canonical(t) && Code(t, a) + x == Code(t, b) + y
    ensures a == b && x == y
  {
    var w := Code(t, a) + x;
    CodeMatches(t, a, x);
    CodeMatches(t, b, y);
    UniqueLevel(t, w, Level(t, a), Level(t, b));
    assert x == w[|Code(t, a)|..];
  }

  lemma NotStuck(t: HuffTable, p: Place, rest: Bits)
    requires Canonical(t)
    ensures !Stuck(t, Code(t, p) + rest)
  {
    CodeMatches(t, p, rest);
  }

  /** Unique decodability: a bit string splits into code words and an undecodable rest in one way only. */
  lemma {:induction false} ParseUnique(t: HuffTable, a: seq<Place>, x: Bits, b: seq<Place>, y: Bits)
    requires Canonical(t) && Stuck(t, x) && Stuck(t, y)
    requires Codes(t, a) + x == Codes(t, b) + y
    ensures a == b && x == y
    decreases |a| + |b|
  {
    hide Code, Stuck, Canonical, Codes;
    CodesFront(t, a, x);
    CodesFront(t, b, y);
    if a == [] && b == [] {
    } else if a == [] {
      NotStuck(t, b[0], Codes(t, b[1..]) + y);
      assert false;
    } else if b == [] {
      NotStuck(t, a[0], Codes(t, a[1..]) + x);
      assert false;
    } else {
      SameFront(t, a[0], Codes(t, a[1..]) + x, b[0], Codes(t, b[1..]) + y);
      ParseUnique(t, a[1..], x, b[1..], y);
      assert a == [a[0]] + a[1..] && b == [b[0]] + b[1..];
    }
  }

  lemma CodesFront(t: HuffTable, a: seq<Place>, x: Bits)
    requires Canonical(t)
    ensures a == [] ==> Codes(t, a) + x == x
    ensures a != [] ==> Codes(t, a) + x == Code(t, a[0]) + (Codes(t, a[1..]) + x)
  {
    hide Code;
    assert [] + x == x;
  }

  lemma {:induction false} CodesConcat(t: HuffTable, a: seq<Place>, b: seq<Place>)
    requires Canonical(t)
    ensures Codes(t, a + b) == Codes(t, a) + Codes(t, b)
  {
    hide Code;
    if a == [] {
      assert a + b == b;
    } else {
      CodesConcat(t, a[1..], b);
      assert (a + b)[1..] == a[1..] + b;
    }
  }

  lemma CodesOne(t: HuffTable, p: Place)
    requires Canonical(t)
    ensures Codes(t, [p]) == Code(t, p)
  {
    assert Codes(t, [p][1..]) == [];
  }

  /** Every bit string is some code words followed by an undecodable rest. */
  lemma {:induction false} ParseExists(t: HuffTable, w: Bits) returns (o: seq<Place>, rest: Bits)
    requires Canonical(t)
    ensures w == Codes(t, o) + rest && Stuck(t, rest)
    decreases |w|
  {
    if Stuck(t, w) {
      CodesFront(t, [], w);
      return [], w;
    }
    var i :| 0 <= i < |t.len| && Matches(t, w, i);
    MatchIsCode(t, w, i);
    var p: Place := t.base[i] + (Value(w[..t.len[i]]) - t.first[i]);
    hide Code, Stuck, Canonical, Codes;
    var tail;
    tail, rest := ParseExists(t, w[t.len[i]..]);
    o := [p] + tail;
    CodesFront(t, o, rest);
    assert o[1..] == tail;
    assert w == w[..t.len[i]] + w[t.len[i]..];
  }

  /** At most one string has src as its coding. */
  lemma CodingUnique(t: HuffTable, src: seq<byte>, a: seq<byte>, b: seq<byte>)
    requires Canonical(t) && Longest(t) > 7 && Coding(t, src, a) && Coding(t, src, b)
    ensures a == b
  {
    var p: seq<Place>, m: nat :| m <= 7 && Text(t, p) == a && BitsOf(src) == Codes(t, p) + Ones(m);
    var q: seq<Place>, n: nat :| n <= 7 && Text(t, q) == b && BitsOf(src) == Codes(t, q) + Ones(n);
    OnesStuck(t, m);
    OnesStuck(t, n);
    ParseUnique(t, p, Ones(m), q, Ones(n));
  }

  /** Data in which the EOS code stands between code words codes no string. */
  lemma EosIsNoCoding(t: HuffTable, src: seq<byte>, ps: seq<Place>, eos: Place, tail: Bits)
    requires Canonical(t) && Longest(t) > 7 && t.symbol[eos] == EOS
    requires BitsOf(src) == Codes(t, ps) + (Code(t, eos) + tail)
    ensures forall a: seq<byte> :: !Coding(t, src, a)
  {
    hide Code, Codes, Stuck, BitsOf;
    var q, rest := ParseExists(t, tail);
    var all: seq<Place> := ps + ([eos] + q);
    CodesOne(t, eos);
    CodesConcat(t, [eos], q);
    CodesConcat(t, ps, [eos] + q);
    assert BitsOf(src) == Codes(t, all) + rest;
    assert Text(t, all)[|ps|] == EOS;
    forall a: seq<byte> ensures !Coding(t, src, a) {
      if Coding(t, src, a) {
        var p: seq<Place>, m: nat :| m <= 7 && Text(t, p) == a && BitsOf(src) == Codes(t, p) + Ones(m);
        OnesStuck(t, m);
        ParseUnique(t, p, Ones(m), all, rest);
      }
    }
  }

  /** Data that ends in an undecodable rest is a coding only if that rest is short, all-ones padding. */
  lemma StuckIsNoCoding(t: HuffTable, src: seq<byte>, ps: seq<Place>, rest: Bits)
    requires Canonical(t) && Longest(t) > 7
    requires BitsOf(src) == Codes(t, ps) + rest && Stuck(t, rest)
    requires |rest| > 7 || rest != Ones(|rest|)
    ensures forall a: seq<byte> :: !Coding(t, src, a)
  {
    hide Code, Codes, Stuck, BitsOf;
    forall a: seq<byte> ensures !Coding(t, src, a) {
      if Coding(t, src, a) {
        var p: seq<Place>, m: nat :| m <= 7 && Text(t, p) == a && BitsOf(src) == Codes(t, p) + Ones(m);
        OnesStuck(t, m);
        ParseUnique(t, p, Ones(m), ps, rest);
      }
    }
  }

  // ----- the decoder

  /** The facts about the HPACK code that the decoder's constants rest on. */
  ghost predicate HpackCode(t: HuffTable) {
    Canonical(t) && t.len[0] >= 5 && Longest(t) == 30
  }

  datatype Outcome = Decoded | EosInData | InvalidCode | PaddingTooLong | InvalidPadding

  lemma {:induction false} CodesLength(t: HuffTable, ps: seq<Place>)
    requires HpackCode(t)
    ensures 5 * |ps| <= |Codes(t, ps)|
  {
    if ps != [] {
      CodesLength(t, ps[1..]);
      CodeMatches(t, ps[0], []);
      assert t.len[0] <= t.len[Level(t, ps[0])];
    }
  }

  /** The level whose code the window starts with, or the number of levels when there is none (yet). */
  method FindLevel(t: HuffTable, cur: nat, nbits: nat, ghost w: Bits) returns (i: nat)
    requires Canonical(t) && |w| == nbits && Value(w) == cur
    ensures i <= |t.len|
    ensures i < |t.len| ==> Matches(t, w, i)
    ensures i == |t.len| ==> Stuck(t, w)
  {
    i := 0;
    while i < |t.len|
      invariant i <= |t.len|
      invariant forall j :: 0 <= j < i ==> !Matches(t, w, j)
    {
      var l := t.len[i];
      if l > nbits {
        assert forall j :: i <= j < |t.len| ==> t.len[j] >= l;
        return |t.len|;
      }
      SplitWindow(w, l);
      var top := cur / Pow2(nbits - l);
      if t.first[i] <= top < t.first[i] + t.count[i] {
        return;
      }
      i := i + 1;
    }
  }

  /** The loop over one window: emit a symbol per code word until the window holds none. */
  method Drain(t: HuffTable, cur0: nat, nbits0: nat, out0: seq<byte>, ghost w0: Bits)
    returns (r: Outcome, cur: nat, nbits: nat, out: seq<byte>, ghost ps: seq<Place>, ghost w: Bits)
    requires HpackCode(t) && |w0| == nbits0 && Value(w0) == cur0
    ensures r == Decoded || r == EosInData
    ensures out == out0 + Text(t, ps) && |w| == nbits && Value(w) == cur
    ensures r == Decoded ==> w0 == Codes(t, ps) + w && Stuck(t, w) && nbits < 30
    ensures r == EosInData ==>
              exists eos: Place, tail :: t.symbol[eos] == EOS && w0 == Codes(t, ps) + (Code(t, eos) + tail)
  {
    hide Code, Codes, Stuck, Value, Pow2, Recurs;
    cur, nbits, out, ps, w := cur0, nbits0, out0, [], w0;
    CodesFront(t, [], w);
    while true
      invariant out == out0 + Text(t, ps) && |w| == nbits && Value(w) == cur
      invariant w0 == Codes(t, ps) + w
      decreases nbits
    {
      var i := FindLevel(t, cur, nbits, w);
      if i == |t.len| {
        if nbits >= 30 {
          LongWindowMatches(t, w);
          assert false;
        }
        return Decoded, cur, nbits, out, ps, w;
      }
      var l := t.len[i];
      SplitWindow(w, l);
      MatchIsCode(t, w, i);
      var top := cur / Pow2(nbits - l);
      var p: Place := t.base[i] + (top - t.first[i]);
      var sym := t.symbol[p];
      assert w == Code(t, p) + w[l..];
      if sym == EOS {
        return EosInData, cur, nbits, out, ps, w;
      }
      EmitOne(t, ps, p, w[l..]);
      out, ps := out + [sym], ps + [p];
      nbits := nbits - l;
      cur := cur % Pow2(nbits);
      w := w[l..];
    }
  }

  lemma EmitOne(t: HuffTable, ps: seq<Place>, p: Place, rest: Bits)
    requires Canonical(t)
    ensures Codes(t, ps + [p]) + rest == Codes(t, ps) + (Code(t, p) + rest)
    ensures Text(t, ps + [p]) == Text(t, ps) + [t.symbol[p]]
  {
    hide Code;
    CodesConcat(t, ps, [p]);
    CodesOne(t, p);
  }

  lemma BitsOfSnoc(src: seq<byte>, k: nat)
    requires k < |src|
    ensures BitsOf(src[..k + 1]) == BitsOf(src[..k]) + ToBits(src[k], 8)
  {
    assert src[..k + 1][..k] == src[..k];
  }

  lemma {:induction false} BitsOfPrefix(src: seq<byte>, k: nat) returns (tail: Bits)
    requires k <= |src|
    ensures BitsOf(src) == BitsOf(src[..k]) + tail
    decreases |src| - k
  {
    if k == |src| {
      tail := [];
      assert src[..k] == src;
    } else {
      var rest := BitsOfPrefix(src, k + 1);
      BitsOfSnoc(src, k);
      tail := ToBits(src[k], 8) + rest;
    }
  }

  /** Append one octet to the window. */
  lemma PushOctet(w: Bits, b: byte)
    ensures Value(w + ToBits(b, 8)) == Value(w) * 256 + b
  {
    ValueConcat(w, ToBits(b, 8));
    assert Pow2(8) == 256;
    ValueToBits(b, 8);
  }

  /** The checks on what the last window holds back: at most 7 bits, all ones. */
  method CheckPadding(t: HuffTable, ghost src: seq<byte>, cur: nat, nbits: nat, ghost ps: seq<Place>, ghost w: Bits)
    returns (r: Outcome)
    requires HpackCode(t) && |w| == nbits && Value(w) == cur
    requires BitsOf(src) == Codes(t, ps) + w && Stuck(t, w)
    requires forall i :: 0 <= i < |ps| ==> t.symbol[ps[i]] != EOS
    ensures r != InvalidCode
    ensures r == Decoded <==> exists a: seq<byte> :: Coding(t, src, a)
    ensures r == Decoded ==> Coding(t, src, Text(t, ps))
  {
    hide Code, Codes, Stuck, Value, BitsOf;
    ToBitsValue(w);
    ValueOnes(nbits);
    ToBitsValue(Ones(nbits));
    if nbits > 7 {
      StuckIsNoCoding(t, src, ps, w);
      return PaddingTooLong;
    }
    if cur != Pow2(nbits) - 1 {
      StuckIsNoCoding(t, src, ps, w);
      return InvalidPadding;
    }
    assert BitsOf(src) == Codes(t, ps) + Ones(nbits);
    assert Coding(t, src, Text(t, ps));
    return Decoded;
  }

  /** The ghost account of the octet loop: the first k octets are the places ps read so far, then the window. */
  ghost predicate ReadSoFar(t: HuffTable, src: seq<byte>, k: nat, ps: seq<Place>, w: Bits)
    requires Canonical(t)
  {
    k <= |src| && BitsOf(src[..k]) == Codes(t, ps) + w && 5 * |ps| <= 8 * |src|
  }

  /** One turn of the octet loop: shift octet k into the window, then drain it. */
  method PushAndDrain(t: HuffTable, src: seq<byte>, k: nat, cur0: nat, nbits0: nat, out0: seq<byte>,
                      ghost ps0: seq<Place>, ghost w0: Bits)
    returns (r: Outcome, cur: nat, nbits: nat, out: seq<byte>, ghost ps: seq<Place>, ghost w: Bits)
    requires HpackCode(t) && k < |src| && |w0| == nbits0 && Value(w0) == cur0
    requires ReadSoFar(t, src, k, ps0, w0)
    ensures r == Decoded || r == EosInData
    ensures out == out0 + Text(t, ps) && |w| == nbits && Value(w) == cur && 5 * |ps0 + ps| <= 8 * |src|
    ensures r == Decoded ==> ReadSoFar(t, src, k + 1, ps0 + ps, w) && Stuck(t, w) && nbits < 30
    ensures r == EosInData ==> forall a: seq<byte> :: !Coding(t, src, a)
  {
    hide Code, Codes, Stuck, Value, Pow2, BitsOf, Coding, Recurs, Text;
    PushOctet(w0, src[k]);
    BitsOfSnoc(src, k);
    Assoc(Codes(t, ps0), w0, ToBits(src[k], 8));
    ghost var before := w0 + ToBits(src[k], 8);
    r, cur, nbits, out, ps, w := Drain(t, cur0 * 256 + src[k], nbits0 + 8, out0, before);
    CodesConcat(t, ps0, ps);
    if r == EosInData {
      ghost var eos: Place, tail: Bits :| t.symbol[eos] == EOS && before == Codes(t, ps) + (Code(t, eos) + tail);
      ghost var later := BitsOfPrefix(src, k + 1);
      EosLater(t, src, k + 1, ps0, ps, eos, tail, later);
      EmittedBound(t, src[..k + 1], ps0 + ps, Code(t, eos) + tail);
    } else {
      Assoc(Codes(t, ps0), Codes(t, ps), w);
      EmittedBound(t, src[..k + 1], ps0 + ps, w);
    }
  }

  lemma TextConcat(t: HuffTable, a: seq<Place>, b: seq<Place>)
    requires Shaped(t)
    ensures Text(t, a + b) == Text(t, a) + Text(t, b)
  {
  }

  /** `huffman_decode`: succeeds exactly when src is the coding of some string, which it then appends. The
      "invalid code" outcome never happens, the bit window stays within 37 bits, and whatever the outcome at
      most 8/5 octets are appended per octet read. */
  method Decode(t: HuffTable, src: seq<byte>, out0: seq<byte>)
    returns (r: Outcome, out: seq<byte>, ghost widest: nat)
    requires HpackCode(t)
    ensures out0 <= out && 5 * (|out| - |out0|) <= 8 * |src|
    ensures r == Decoded <==> exists o: seq<byte> :: Coding(t, src, o)
    ensures r == Decoded ==> Coding(t, src, out[|out0|..])
    ensures r != InvalidCode
    ensures widest <= 37
  {
    var cur: nat, nbits: nat := 0, 0;
    out := out0;
    widest := 0;
    ghost var ps: seq<Place>, w: Bits := [], [];
    assert Value([]) == 0 && BitsOf(src[..0]) == [];
    CodesFront(t, [], []);
    StuckEmpty(t);
    hide Code, Codes, Stuck, Value, Pow2, BitsOf, Coding, Recurs;
    for k := 0 to |src|
      invariant out == out0 + Text(t, ps) && |w| == nbits < 30 && Value(w) == cur && widest <= 37
      invariant ReadSoFar(t, src, k, ps, w) && Stuck(t, w)
    {
      hide ReadSoFar, Text;
      widest := Max(widest, nbits + 8);
      ghost var more: seq<Place>;
      r, cur, nbits, out, more, w := PushAndDrain(t, src, k, cur, nbits, out, ps, w);
      TextConcat(t, ps, more);
      ps := ps + more;
      if r == EosInData {
        return;
      }
    }
    assert src[..|src|] == src;
    assert out[|out0|..] == Text(t, ps);
    OctetsOnly(t, ps, out, |out0|);
    r := CheckPadding(t, src, cur, nbits, ps, w);
  }

  lemma OctetsOnly(t: HuffTable, ps: seq<Place>, out: seq<byte>, from: nat)
    requires Shaped(t) && from <= |out| && out[from..] == Text(t, ps)
    ensures forall i :: 0 <= i < |ps| ==> t.symbol[ps[i]] != EOS
  {
    forall i | 0 <= i < |ps| ensures t.symbol[ps[i]] != EOS {
      assert Text(t, ps)[i] == out[from..][i];
    }
  }

  lemma StuckEmpty(t: HuffTable)
    requires Canonical(t)
    ensures Stuck(t, [])
  {
  }

  lemma EmittedBound(t: HuffTable, src: seq<byte>, ps: seq<Place>, rest: Bits)
    requires HpackCode(t) && BitsOf(src) == Codes(t, ps) + rest
    ensures 5 * |ps| <= 8 * |src|
  {
    CodesLength(t, ps);
  }

  lemma Regroup(a: Bits, b: Bits, c: Bits, d: Bits, e: Bits)
    ensures a + (b + (c + d)) == (a + b) + (c + d)
    ensures a + (b + (c + d)) + e == (a + b) + (c + (d + e))
  {
  }

  lemma EosLater(t: HuffTable, src: seq<byte>, k: nat, a: seq<Place>, b: seq<Place>, eos: Place, tail: Bits,
                 later: Bits)
    requires HpackCode(t) && k <= |src| && t.symbol[eos] == EOS
    requires BitsOf(src) == BitsOf(src[..k]) + later
    requires BitsOf(src[..k]) == Codes(t, a) + (Codes(t, b) + (Code(t, eos) + tail))
    ensures BitsOf(src[..k]) == Codes(t, a + b) + (Code(t, eos) + tail)
    ensures forall o: seq<byte> :: !Coding(t, src, o)
  {
    hide Code, Codes, BitsOf, Recurs, Coding;
    CodesConcat(t, a, b);
    Regroup(Codes(t, a), Codes(t, b), Code(t, eos), tail, later);
    EosIsNoCoding(t, src, a + b, eos, tail + later);
  }
}
