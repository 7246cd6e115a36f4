// Bit strings, most significant bit first, and the numbers a shifting bit window holds.
module BitStrings {
  import opened Bytes

  type Bits = seq<bool>

  function Value(w: Bits): nat {
    if w == [] then 0 else 2 * Value(w[..|w| - 1]) + (if w[|w| - 1] then 1 else 0)
  }

  /** The n low bits of v. */
  function ToBits(v: nat, n: nat): (w: Bits)
    ensures |w| == n
  {
    if n == 0 then [] else ToBits(v / 2, n - 1) + [v % 2 == 1]
  }

  function Ones(n: nat): (w: Bits)
    ensures |w| == n
  {
    seq(n, _ => true)
  }

  /** The bits of a string of octets, in wire order. */
  function BitsOf(src: seq<byte>): (w: Bits)
    ensures |w| == 8 * |src|
  {
    if src == [] then [] else BitsOf(src[..|src| - 1]) + ToBits(src[|src| - 1], 8)
  }

  lemma {:induction false} ValueBound(w: Bits)
    ensures Value(w) < Pow2(|w|)
  {
    if w != [] {
      ValueBound(w[..|w| - 1]);
    }
  }

  lemma {:induction false} ValueConcat(a: Bits, b: Bits)
    ensures Value(a + b) == Value(a) * Pow2(|b|) + Value(b)
  {
    if b == [] {
      assert a + b == a;
    } else {
      var c := b[..|b| - 1];
      ValueConcat(a, c);
      assert (a + b)[..|a + b| - 1] == a + c;
      assert Value(a) * Pow2(|b|) == 2 * (Value(a) * Pow2(|c|));
    }
  }

  lemma {:induction false} ValueToBits(v: nat, n: nat)
    requires v < Pow2(n)
    ensures Value(ToBits(v, n)) == v
  {
    if n != 0 {
      ValueToBits(v / 2, n - 1);
      assert ToBits(v, n)[..n - 1] == ToBits(v / 2, n - 1);
    }
  }

  lemma {:induction false} ToBitsValue(w: Bits)
    ensures ToBits(Value(w), |w|) == w
  {
    if w != [] {
      ToBitsValue(w[..|w| - 1]);
    }
  }

  lemma {:induction false} ValueOnes(n: nat)
    ensures Value(Ones(n)) == Pow2(n) - 1
  {
    if n != 0 {
      ValueOnes(n - 1);
      assert Ones(n)[..n - 1] == Ones(n - 1);
    }
  }

  /** Shifting right by all but k bits leaves the first k; masking leaves the rest. */
  lemma SplitWindow(w: Bits, k: nat)
    requires k <= |w|
    ensures Value(w) / Pow2(|w| - k) == Value(w[..k])
    ensures Value(w) % Pow2(|w| - k) == Value(w[k..])
    ensures Value(w) == Value(w[..k]) * Pow2(|w| - k) + Value(w[k..])
    ensures Value(w[k..]) < Pow2(|w| - k)
  {
    hide Value, Pow2;
    assert w == w[..k] + w[k..];
    ValueConcat(w[..k], w[k..]);
    ValueBound(w[k..]);
    var q, d, r := Value(w[..k]), Pow2(|w| - k), Value(w[k..]);
    DivModUnique(q, d, r);
  }
}
