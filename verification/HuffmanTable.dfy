// The Huffman code of RFC 7541 Appendix B, as http2/hpack.v tabulates it, and the proof that it is a
// complete canonical code.
module HuffmanTable {
  import opened Bytes
  import opened Huffman

  function Lengths(): seq<nat> {
    [5, 6, 7, 8, 10, 11, 12, 13, 14, 15, 19, 20, 21, 22, 23, 24, 25, 26, 27, 28, 30]
  }

  function Firsts(): seq<nat> {
    [0x0, 0x14, 0x5c, 0xf8, 0x3f8, 0x7fa, 0xffa, 0x1ff8, 0x3ffc, 0x7ffc, 0x7fff0,
     0xfffe6, 0x1fffdc, 0x3fffd2, 0x7fffd8, 0xffffea, 0x1ffffec, 0x3ffffe0, 0x7ffffde, 0xfffffe2, 0x3ffffffc]
  }

  function Counts(): seq<nat> {
    [10, 26, 32, 6, 5, 3, 2, 6, 2, 3, 3, 8, 13, 26, 29, 12, 4, 15, 19, 29, 4]
  }

  function Bases(): seq<nat> {
    [0, 10, 36, 68, 74, 79, 82, 84, 90, 92, 95, 98, 106, 119, 145, 174, 186, 190, 205, 224, 253]
  }

  // the symbols in code order, in rows of 32

  function Row0(): (r: seq<Symbol>)
    ensures |r| == 32
  {
    [48, 49, 50, 97, 99, 101, 105, 111, 115, 116, 32, 37, 45, 46, 47, 51, 52, 53, 54, 55, 56, 57, 61, 65, 95,
     98, 100, 102, 103, 104, 108, 109]
  }

  function Row1(): (r: seq<Symbol>)
    ensures |r| == 32
  {
    [110, 112, 114, 117, 58, 66, 67, 68, 69, 70, 71, 72, 73, 74, 75, 76, 77, 78, 79, 80, 81, 82, 83, 84, 85, 86,
     87, 89, 106, 107, 113, 118]
  }

  function Row2(): (r: seq<Symbol>)
    ensures |r| == 32
  {
    [119, 120, 121, 122, 38, 42, 44, 59, 88, 90, 33, 34, 40, 41, 63, 39, 43, 124, 35, 62, 0, 36, 64, 91, 93,
     126, 94, 125, 60, 96, 123, 92]
  }

  function Row3(): (r: seq<Symbol>)
    ensures |r| == 32
  {
    [195, 208, 128, 130, 131, 162, 184, 194, 224, 226, 153, 161, 167, 172, 176, 177, 179, 209, 216, 217, 227,
     229, 230, 129, 132, 133, 134, 136, 146, 154, 156, 160]
  }

  function Row4(): (r: seq<Symbol>)
    ensures |r| == 32
  {
    [163, 164, 169, 170, 173, 178, 181, 185, 186, 187, 189, 190, 196, 198, 228, 232, 233, 1, 135, 137, 138, 139,
     140, 141, 143, 147, 149, 150, 151, 152, 155, 157]
  }

  function Row5(): (r: seq<Symbol>)
    ensures |r| == 32
  {
    [158, 165, 166, 168, 174, 175, 180, 182, 183, 188, 191, 197, 231, 239, 9, 142, 144, 145, 148, 159, 171, 206,
     215, 225, 236, 237, 199, 207, 234, 235, 192, 193]
  }

  function Row6(): (r: seq<Symbol>)
    ensures |r| == 32
  {
    [200, 201, 202, 205, 210, 213, 218, 219, 238, 240, 242, 243, 255, 203, 204, 211, 212, 214, 221, 222, 223,
     241, 244, 245, 246, 247, 248, 250, 251, 252, 253, 254]
  }

  function Row7(): (r: seq<Symbol>)
    ensures |r| == 32
  {
    [2, 3, 4, 5, 6, 7, 8, 11, 12, 14, 15, 16, 17, 18, 19, 20, 21, 23, 24, 25, 26, 27, 28, 29, 30, 31, 127, 220,
     249, 10, 13, 22]
  }

  function Row8(): (r: seq<Symbol>)
    ensures |r| == 1
  {
    [256]
  }

  function Symbols(): (r: seq<Symbol>)
    ensures |r| == 257
  {
    Row0() + Row1() + Row2() + Row3() + Row4() + Row5() + Row6() + Row7() + Row8()
  }

  function Hpack(): HuffTable {
    HuffTable(Lengths(), Firsts(), Counts(), Bases(), Symbols())
  }

  lemma {:induction false} AdjacentAscends(q: seq<nat>, i: nat, j: nat)
    requires forall k :: 0 <= k < |q| - 1 ==> q[k] < q[k + 1]
    requires i < j < |q|
    ensures q[i] < q[j]
    decreases j - i
  {
    if i + 1 < j {
      AdjacentAscends(q, i + 1, j);
    }
  }

  lemma LengthsAscend()
    ensures forall i, j :: 0 <= i < j < 21 ==> Lengths()[i] < Lengths()[j]
  {
    var q := Lengths();
    assert forall k :: 0 <= k < 20 ==> q[k] < q[k + 1];
    hide Lengths;
    forall i, j | 0 <= i < j < 21 ensures q[i] < q[j] {
      AdjacentAscends(q, i, j);
    }
  }

  lemma Pow2Of30()
    ensures Pow2(30) == 0x4000_0000
  {
    assert Pow2(10) == 1024;
    Pow2Add(10, 10);
    Pow2Add(20, 10);
  }

  lemma HpackIsShaped()
    ensures Shaped(Hpack())
  {
    hide Symbols;
    LengthsAscend();
    var len, count, base := Lengths(), Counts(), Bases();
    assert |len| == |Firsts()| == |count| == |base| == 21;
    assert forall i :: 0 <= i < 21 ==> len[i] > 0;
    assert forall i :: 0 <= i < 21 ==> count[i] > 0;
    assert forall i :: 0 <= i < 21 ==> base[i] + count[i] <= 257;
  }

  /** Level i + 1's codes continue level i's. */
  lemma LowLevelsRecur(i: nat)
    requires Shaped(Hpack()) && i < 10
    ensures Recurs(Hpack(), i)
  {
    hide Symbols, Shaped;
    assert Pow2(1) == 2 && Pow2(2) == 4 && Pow2(4) == 16;
  }

  lemma HighLevelsRecur(i: nat)
    requires Shaped(Hpack()) && 10 <= i < 20
    ensures Recurs(Hpack(), i)
  {
    hide Symbols, Shaped;
    assert Pow2(1) == 2 && Pow2(2) == 4 && Pow2(4) == 16;
  }

  lemma LevelsRecur()
    requires Shaped(Hpack())
    ensures forall i :: 0 <= i < 20 ==> Recurs(Hpack(), i)
  {
    hide Symbols, Shaped, Recurs;
    forall i | 0 <= i < 20 ensures Recurs(Hpack(), i) {
      if i < 10 {
        LowLevelsRecur(i);
      } else {
        HighLevelsRecur(i);
      }
    }
  }

  lemma HpackIsCanonical()
    ensures HpackCode(Hpack())
  {
    HpackIsShaped();
    LevelsRecur();
    Pow2Of30();
    hide Symbols, Recurs, Shaped;
  }

  // ----- every symbol has one code word

  lemma AllListed(s: Symbol)
    ensures s in Symbols()
  {
  }

  ghost function Below(n: nat): (r: set<nat>)
    ensures |r| == n && forall x: nat :: x in r <==> x < n
  {
    if n == 0 then {} else Below(n - 1) + {n - 1}
  }

  ghost function Elements(q: seq<nat>): (r: set<nat>)
    ensures |r| <= |q| && forall x: nat :: x in r <==> x in q
  {
    if q == [] then {} else {q[0]} + Elements(q[1..])
  }

  lemma SubsetSize(a: set<nat>, b: set<nat>)
    requires a <= b
    ensures |a| <= |b|
  {
    assert b == a + (b - a);
  }

  /** As many symbols as places, and every symbol at some place: none stands at two. */
  lemma NoneTwice(q: seq<nat>, i: nat, j: nat)
    requires (forall s: nat :: s < |q| ==> s in q) && i < j < |q|
    ensures q[i] != q[j]
  {
    if q[i] == q[j] {
      var rest := q[..j] + q[j + 1..];
      forall s: nat | s in Below(|q|) ensures s in Elements(rest) {
        assert s in q;
        var k :| 0 <= k < |q| && q[k] == s;
        var m := if k == j then i else k;
        assert rest[if m < j then m else m - 1] == s;
      }
      SubsetSize(Below(|q|), Elements(rest));
    }
  }

  /** Every symbol stands at exactly one place. */
  ghost predicate ListsAll(t: HuffTable) {
    && (forall s: Symbol :: s in t.symbol)
    && (forall i, j :: 0 <= i < j < |t.symbol| ==> t.symbol[i] != t.symbol[j])
  }

  lemma HpackLists()
    ensures ListsAll(Hpack())
  {
    hide Symbols;
    forall s: Symbol ensures s in Symbols() {
      AllListed(s);
    }
    forall s: nat | s < |Symbols()| ensures s in Symbols() {
      AllListed(s);
    }
    forall i, j | 0 <= i < j < |Symbols()| ensures Symbols()[i] != Symbols()[j] {
      NoneTwice(Symbols(), i, j);
    }
  }
}
