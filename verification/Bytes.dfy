// Octets, fixed-width integers and the few arithmetic facts every layer shares.
module Bytes {

  type byte = b: int | 0 <= b < 256
  type u16 = n: int | 0 <= n < 0x1_0000
  type u31 = n: int | 0 <= n < 0x8000_0000
  type u32 = n: int | 0 <= n < 0x1_0000_0000

  datatype Option<+T> = None | Some(value: T)

  /** The octets of a character string whose characters all fit one octet. */
  function Ascii(s: string): (r: seq<byte>)
    ensures |r| == |s|
  {
    seq(|s|, i requires 0 <= i < |s| => s[i] as int % 256)
  }

  function Min(a: int, b: int): int {
    if a < b then a else b
  }

  function Max(a: int, b: int): int {
    if a < b then b else a
  }

  /** Bit k of an octet (k = 0 is the least significant), i.e. `b & (1 << k) != 0`. */
  predicate Bit0(b: byte) { b % 2 == 1 }
  predicate Bit2(b: byte) { b / 4 % 2 == 1 }
  predicate Bit3(b: byte) { b / 8 % 2 == 1 }
  predicate Bit5(b: byte) { b / 32 % 2 == 1 }

  function Pow2(n: nat): (r: nat)
    ensures r > 0
  {
    if n == 0 then 1 else 2 * Pow2(n - 1)
  }

  lemma {:induction false} Pow2Add(a: nat, b: nat)
    ensures Pow2(a + b) == Pow2(a) * Pow2(b)
  {
    if b != 0 {
      Pow2Add(a, b - 1);
      assert a + b - 1 == a + (b - 1);
    }
  }

  lemma DivModUnique(q: nat, d: nat, r: nat)
    requires r < d
    ensures (q * d + r) / d == q && (q * d + r) % d == r
  {
    var n := q * d + r;
    var q', r' := n / d, n % d;
    assert n == q' * d + r';
    assert (q - q') * d == r' - r && (q' - q) * d == r - r';
    if q > q' {
      MulLower(q - q', d);
    } else if q < q' {
      MulLower(q' - q, d);
    }
  }

  lemma MulLower(k: nat, d: nat)
    requires k >= 1
    ensures k * d >= d
  {
  }

  lemma Assoc<T>(a: seq<T>, b: seq<T>, c: seq<T>)
    ensures (a + b) + c == a + (b + c)
  {
  }
}
