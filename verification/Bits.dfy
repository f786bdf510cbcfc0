/** Machine words as numbers, and the bits they stand for, highest first. */
module Bits {

  type Byte = b: nat | b < 0x100

  type Word = w: nat | w < 0x1_0000

  function Pow2(n: nat): (r: nat)
    ensures r > 0
  {
    if n == 0 then 1 else 2 * Pow2(n - 1)
  }

  function One(bit: bool): nat {
    if bit then 1 else 0
  }

  function Value(bits: seq<bool>): nat {
    if bits == [] then 0 else 2 * Value(bits[..|bits| - 1]) + One(bits[|bits| - 1])
  }

  /** The lowest `width` bits of a number. */
  function Low(n: nat, width: nat): (r: seq<bool>)
    ensures |r| == width
  {
    if width == 0 then [] else Low(n / 2, width - 1) + [n % 2 == 1]
  }

  function XorBits(a: seq<bool>, b: seq<bool>): (r: seq<bool>)
    requires |a| == |b|
    ensures |r| == |a|
  {
    seq(|a|, i requires 0 <= i < |a| => a[i] != b[i])
  }

  lemma {:induction false} LowOfValue(bits: seq<bool>)
    ensures Low(Value(bits), |bits|) == bits && Value(bits) < Pow2(|bits|)
    decreases |bits|
  {
    if bits != [] {
      var k := |bits| - 1;
      LowOfValue(bits[..k]);
      assert Value(bits) / 2 == Value(bits[..k]);
      assert bits == bits[..k] + [bits[k]];
    }
  }

  lemma {:induction false} ValueOfLow(n: nat, width: nat)
    requires n < Pow2(width)
    ensures Value(Low(n, width)) == n
    decreases width
  {
    if width > 0 {
      ValueOfLow(n / 2, width - 1);
      assert Low(n, width)[..width - 1] == Low(n / 2, width - 1);
    }
  }

  lemma {:induction false} WordSize()
    ensures Pow2(8) == 0x100 && Pow2(15) == 0x8000 && Pow2(16) == 0x1_0000
  {
    assert Pow2(4) == 16;
    assert Pow2(8) == 256;
    assert Pow2(12) == 4096;
    assert Pow2(15) == 0x8000;
  }

  /** Exclusive or of two machine words. */
  function Xor16(a: Word, b: Word): Word {
    WordSize();
    LowOfValue(XorBits(Low(a, 16), Low(b, 16)));
    Value(XorBits(Low(a, 16), Low(b, 16)))
  }

  lemma {:induction false} XorIsBitwise(a: Word, b: Word)
    ensures Low(Xor16(a, b), 16) == XorBits(Low(a, 16), Low(b, 16))
  {
    LowOfValue(XorBits(Low(a, 16), Low(b, 16)));
  }

  /** Doubling appends a zero. */
  lemma {:induction false} LowOfDouble(n: nat, width: nat)
    ensures Low(2 * n, width + 1) == Low(n, width) + [false]
  {
    assert (2 * n) / 2 == n && (2 * n) % 2 == 0;
  }

  /** Without its highest bit a number is its remainder. */
  lemma {:induction false} LowDropsTop(n: nat, width: nat)
    ensures Low(n, width + 1)[1..] == Low(n % Pow2(width), width)
    decreases width
  {
    if width > 0 {
      var m := n % Pow2(width);
      HalfOfRemainder(n, Pow2(width - 1));
      LowDropsTop(n / 2, width - 1);
      assert Low(n, width + 1)[1..] == Low(n / 2, width)[1..] + [n % 2 == 1];
      assert Low(m, width) == Low(m / 2, width - 1) + [m % 2 == 1];
    }
  }

  lemma {:induction false} HalfOfRemainder(n: nat, k: nat)
    requires k > 0
    ensures n % (2 * k) / 2 == n / 2 % k && n % (2 * k) % 2 == n % 2
  {
    var q, r := n / 2 / k, n / 2 % k;
    assert n / 2 == q * k + r;
    var m := 2 * r + n % 2;
    assert n == q * (2 * k) + m;
    RemainderIs(n, 2 * k, q, m);
  }

  lemma {:induction false} ProductsAscend(a: nat, b: nat, d: nat)
    requires a < b
    ensures a * d + d <= b * d
  {
    assert b * d == a * d + (b - a) * d;
    assert (b - a) * d == d + (b - a - 1) * d;
  }

  lemma {:induction false} RemainderIs(n: nat, d: nat, q: nat, m: nat)
    requires d > 0 && n == q * d + m && m < d
    ensures n % d == m && n / d == q
  {
    var p, r := n / d, n % d;
    assert n == p * d + r;
    if p < q {
      ProductsAscend(p, q, d);
    } else if q < p {
      ProductsAscend(q, p, d);
    }
  }

  /** The highest bit says whether a number reaches the power of two. */
  lemma {:induction false} TopBit(n: nat, width: nat)
    requires n < Pow2(width + 1)
    ensures Low(n, width + 1)[0] <==> n >= Pow2(width)
    decreases width
  {
    if width > 0 {
      TopBit(n / 2, width - 1);
      assert Low(n, width + 1)[0] == Low(n / 2, width)[0];
    }
  }
}
