// Every string of octets has exactly one coding under the Huffman code of http2/hpack.v.
module HuffmanCoding {
  import opened Bytes
  import opened BitStrings
  import opened Huffman
  import opened HuffmanTable
  import HpackBlock

  // ----- existence

  lemma {:induction false} PlacesOf(t: HuffTable, o: seq<byte>) returns (ps: seq<Place>)
    requires Shaped(t) && ListsAll(t)
    ensures Text(t, ps) == o
    decreases |o|
  {
    if o == [] {
      ps := [];
    } else {
      var front := PlacesOf(t, o[..|o| - 1]);
      var last: Symbol := o[|o| - 1];
      assert last in t.symbol;
      var p :| 0 <= p < |t.symbol| && t.symbol[p] == last;
      ps := front + [p];
      assert Text(t, ps) == Text(t, front) + [last];
    }
  }

  lemma ByteOf(w: Bits) returns (b: byte)
    requires |w| == 8
    ensures ToBits(b, 8) == w
  {
    ValueBound(w);
    assert Pow2(8) == 256;
    ToBitsValue(w);
    b := Value(w);
  }

  lemma {:induction false} OctetsOf(w: Bits) returns (src: seq<byte>)
    requires |w| % 8 == 0
    ensures BitsOf(src) == w
    decreases |w|
  {
    if w == [] {
      src := [];
    } else {
      var front := OctetsOf(w[..|w| - 8]);
      var b := ByteOf(w[|w| - 8..]);
      src := front + [b];
      assert src[..|src| - 1] == front;
    }
  }

  /** A string has a coding: its code words, padded with ones to whole octets. */
  lemma CodingExists(t: HuffTable, o: seq<byte>)
    requires Canonical(t) && ListsAll(t)
    ensures exists src :: Coding(t, src, o)
  {
    hide Recurs, ListsAll, Codes, BitsOf;
    var ps := PlacesOf(t, o);
    var pad := (8 - |Codes(t, ps)| % 8) % 8;
    var src := OctetsOf(Codes(t, ps) + Ones(pad));
    assert Coding(t, src, o);
  }

  // ----- uniqueness

  lemma SamePlaces(t: HuffTable, a: seq<Place>, b: seq<Place>)
    requires Shaped(t) && ListsAll(t) && Text(t, a) == Text(t, b)
    ensures a == b
  {
    forall i | 0 <= i < |a| ensures a[i] == b[i] {
      assert Text(t, a)[i] == Text(t, b)[i];
    }
  }

  lemma {:induction false} BitsInjective(a: seq<byte>, b: seq<byte>)
    requires BitsOf(a) == BitsOf(b)
    ensures a == b
    decreases |a|
  {
    if a != [] {
      var n := |a| - 1;
      var x, y := ToBits(a[n], 8), ToBits(b[n], 8);
      assert BitsOf(a)[..8 * n] == BitsOf(a[..n]) && BitsOf(a)[8 * n..] == x;
      assert BitsOf(b)[..8 * n] == BitsOf(b[..n]) && BitsOf(b)[8 * n..] == y;
      assert Pow2(8) == 256;
      ValueToBits(a[n], 8);
      ValueToBits(b[n], 8);
      BitsInjective(a[..n], b[..n]);
      assert a == a[..n] + [a[n]] && b == b[..n] + [b[n]];
    }
  }

  /** A string has one coding only. */
  lemma CodingInjective(t: HuffTable, a: seq<byte>, b: seq<byte>, o: seq<byte>)
    requires Canonical(t) && ListsAll(t) && Coding(t, a, o) && Coding(t, b, o)
    ensures a == b
  {
    hide ListsAll, Codes, BitsOf, Recurs;
    var p: seq<Place>, m: nat :| m <= 7 && Text(t, p) == o && BitsOf(a) == Codes(t, p) + Ones(m);
    var q: seq<Place>, n: nat :| n <= 7 && Text(t, q) == o && BitsOf(b) == Codes(t, q) + Ones(n);
    SamePlaces(t, p, q);
    assert |Codes(t, p)| + m == 8 * |a| && |Codes(t, p)| + n == 8 * |b|;
    assert m == n;
    BitsInjective(a, b);
  }

  // ----- HPACK

  /** Every string of octets has exactly one Huffman coding. */
  lemma HuffmanExact(o: seq<byte>)
    ensures exists src :: HpackBlock.HuffmanOf(src, o)
    ensures forall a, b :: HpackBlock.HuffmanOf(a, o) && HpackBlock.HuffmanOf(b, o) ==> a == b
  {
    hide Hpack, ListsAll, Canonical, Coding;
    var t := Hpack();
    HpackIsCanonical();
    HpackLists();
    CodingExists(t, o);
    var src :| Coding(t, src, o);
    assert HpackBlock.HuffmanOf(src, o);
    forall a, b | HpackBlock.HuffmanOf(a, o) && HpackBlock.HuffmanOf(b, o) ensures a == b {
      CodingInjective(t, a, b, o);
    }
  }
}
