/** CRC-16/CCITT-FALSE, and what its algebra promises: the checksum keeps parity, is linear
    in the message, and tells any two messages apart that differ only within sixteen
    consecutive bits. The program's register is a machine word; the proofs look at its
    bits, highest first. */
module Crc {
  import opened Bits

  const INITIAL_VALUE: Word := 0xffff
  const POLYNOMIAL: Word := 0x1021

  // ---- the program ----------------------------------------------------------------

  function ShiftWord(w: Word): Word {
    if w >= 0x8000 then Xor16(w * 2 % 0x1_0000, POLYNOMIAL) else w * 2
  }

  /** A byte in the upper half of a word. */
  function High(b: Byte): Word {
    var n: nat := b;
    n * 0x100
  }

  function ShiftWords(w: Word, n: nat): Word {
    if n == 0 then w else ShiftWord(ShiftWords(w, n - 1))
  }

  function FeedWord(w: Word, bytes: seq<Byte>): Word {
    if bytes == [] then w
    else ShiftWords(Xor16(FeedWord(w, bytes[..|bytes| - 1]), High(bytes[|bytes| - 1])), 8)
  }

  function Checksum(bytes: seq<Byte>): Word {
    FeedWord(INITIAL_VALUE, bytes)
  }

  method Crc16(bytes: seq<Byte>) returns (crc: Word)
    ensures crc == Checksum(bytes)
  {
    hide Xor16;
    crc := INITIAL_VALUE;
    for i := 0 to |bytes|
      invariant crc == FeedWord(INITIAL_VALUE, bytes[..i])
    {
      assert bytes[..i + 1][..i] == bytes[..i];
      crc := Xor16(crc, High(bytes[i]));
      ghost var mixed := crc;
      for k := 0 to 8
        invariant crc == ShiftWords(mixed, k)
      {
        crc := if crc >= 0x8000 then Xor16(crc * 2 % 0x1_0000, POLYNOMIAL) else crc * 2;
      }
    }
    assert bytes[..|bytes|] == bytes;
  }

  // ---- the register as bits -------------------------------------------------------

  function Zeros(n: nat): (r: seq<bool>)
    ensures |r| == n
  {
    seq(n, _ => false)
  }

  type Register = r: seq<bool> | |r| == 16 witness seq(16, _ => false)

  const ZERO: Register := Zeros(16)

  /** The terms of the polynomial below x^16. */
  predicate Tap(j: nat) {
    j == 3 || j == 10 || j == 15
  }

  /** Multiplication by x, modulo the polynomial. */
  function Shift(r: Register): Register {
    seq(16, j requires 0 <= j < 16 => (j < 15 && r[j + 1]) != (r[0] && Tap(j)))
  }

  function Shifts(r: Register, n: nat): Register {
    if n == 0 then r else Shift(Shifts(r, n - 1))
  }

  /** Adds bits to the top of the register. */
  function Mix(r: Register, bits: seq<bool>): Register
    requires |bits| <= 16
  {
    seq(16, j requires 0 <= j < 16 => r[j] != (j < |bits| && bits[j]))
  }

  /** Takes one bit of the message. */
  function FeedBit(r: Register, bit: bool): Register {
    Shift(Mix(r, [bit]))
  }

  function Feed(r: Register, bits: seq<bool>): Register {
    if bits == [] then r else FeedBit(Feed(r, bits[..|bits| - 1]), bits[|bits| - 1])
  }

  /** The bits of a message in the order in which the register takes them. */
  function MessageBits(bytes: seq<Byte>): (r: seq<bool>)
    ensures |r| == 8 * |bytes|
  {
    if bytes == [] then [] else MessageBits(bytes[..|bytes| - 1]) + Low(bytes[|bytes| - 1], 8)
  }

  // ---- the word and the bits agree ------------------------------------------------

  lemma {:induction false} LowNibble(n: nat, width: nat)
    ensures Low(n, width + 4) == Low(n / 16, width) + [n / 8 % 2 == 1, n / 4 % 2 == 1, n / 2 % 2 == 1, n % 2 == 1]
  {
    assert Low(n, width + 4) == Low(n / 2, width + 3) + [n % 2 == 1];
    assert Low(n / 2, width + 3) == Low(n / 4, width + 2) + [n / 2 % 2 == 1];
    assert Low(n / 4, width + 2) == Low(n / 8, width + 1) + [n / 4 % 2 == 1];
    assert Low(n / 8, width + 1) == Low(n / 16, width) + [n / 8 % 2 == 1];
  }

  lemma {:induction false} PolynomialBits()
    ensures forall j :: 0 <= j < 16 ==> Low(POLYNOMIAL, 16)[j] == Tap(j)
  {
    hide Low;
    LowNibble(0x1021, 12);
    LowNibble(0x102, 8);
    LowNibble(0x10, 4);
    LowNibble(0x1, 0);
    assert Low(0x1021, 16) == Low(0, 0) + [false, false, false, true, false, false, false, false,
                                           false, false, true, false, false, false, false, true];
  }

  lemma {:induction false} DoubledBits(w: Word)
    ensures Low(w * 2 % 0x1_0000, 16) == Low(w, 16)[1..] + [false]
    ensures Low(w, 16)[0] == (w >= 0x8000)
  {
    hide Low, Pow2;
    WordSize();
    TopBit(w, 15);
    LowDropsTop(w, 15);
    LowOfDouble(w % 0x8000, 15);
    assert w * 2 % 0x1_0000 == 2 * (w % 0x8000);
  }

  lemma {:induction false} ShiftWordShifts(w: Word)
    ensures Low(ShiftWord(w), 16) == Shift(Low(w, 16))
  {
    hide Low, Xor16;
    DoubledBits(w);
    if w >= 0x8000 {
      XorIsBitwise(w * 2 % 0x1_0000, POLYNOMIAL);
      PolynomialBits();
    } else {
      assert w * 2 % 0x1_0000 == w * 2;
    }
    assert forall j :: 0 <= j < 16 ==> Low(ShiftWord(w), 16)[j] == Shift(Low(w, 16))[j];
  }

  lemma {:induction false} ShiftWordsShift(w: Word, n: nat)
    ensures Low(ShiftWords(w, n), 16) == Shifts(Low(w, 16), n)
  {
    hide ShiftWord, Low, Shift;
    if n > 0 {
      ShiftWordsShift(w, n - 1);
      ShiftWordShifts(ShiftWords(w, n - 1));
    }
  }

  lemma {:induction false} LowOfScaled(n: nat, width: nat, m: nat)
    ensures Low(n * Pow2(m), width + m) == Low(n, width) + Zeros(m)
    decreases m
  {
    if m > 0 {
      LowOfScaled(n, width, m - 1);
      assert n * Pow2(m) == 2 * (n * Pow2(m - 1));
      LowOfDouble(n * Pow2(m - 1), width + m - 1);
      assert Zeros(m) == Zeros(m - 1) + [false];
    }
  }

  lemma {:induction false} ByteMixes(w: Word, b: Byte)
    ensures Low(Xor16(w, High(b)), 16) == Mix(Low(w, 16), Low(b, 8))
  {
    WordSize();
    XorIsBitwise(w, High(b));
    LowOfScaled(b, 8, 8);
    hide Low;
    assert Low(High(b), 16) == Low(b, 8) + Zeros(8);
    assert forall j :: 0 <= j < 16 ==> Low(Xor16(w, High(b)), 16)[j] == Mix(Low(w, 16), Low(b, 8))[j];
  }

  lemma {:induction false} ShiftsFirst(r: Register, n: nat)
    requires n > 0
    ensures Shifts(r, n) == Shifts(Shift(r), n - 1)
  {
    hide Shift;
    if n > 1 {
      ShiftsFirst(r, n - 1);
    }
  }

  lemma {:induction false} FeedFirst(r: Register, bits: seq<bool>)
    requires bits != []
    ensures Feed(r, bits) == Feed(FeedBit(r, bits[0]), bits[1..])
    decreases |bits|
  {
    hide FeedBit;
    var k := |bits| - 1;
    if k > 0 {
      FeedFirst(r, bits[..k]);
      assert bits[1..][..k - 1] == bits[..k][1..];
    } else {
      assert bits[..0] == [] && bits[1..] == [];
      assert Feed(r, bits) == FeedBit(Feed(r, []), bits[0]);
    }
  }

  lemma {:induction false} FeedSplits(r: Register, a: seq<bool>, b: seq<bool>)
    ensures Feed(r, a + b) == Feed(Feed(r, a), b)
    decreases |b|
  {
    hide FeedBit;
    if b == [] {
      assert a + b == a;
    } else {
      var k := |b| - 1;
      assert (a + b)[..|a + b| - 1] == a + b[..k];
      FeedSplits(r, a, b[..k]);
    }
  }

  /** Mixing in up to sixteen bits and shifting them through is feeding them one by one. */
  lemma {:induction false} MixThenShift(r: Register, bits: seq<bool>)
    requires |bits| <= 16
    ensures Shifts(Mix(r, bits), |bits|) == Feed(r, bits)
    decreases |bits|
  {
    if bits == [] {
      assert Mix(r, bits) == r;
    } else {
      var next := FeedBit(r, bits[0]);
      assert Shift(Mix(r, bits)) == Mix(next, bits[1..]);
      ShiftsFirst(Mix(r, bits), |bits|);
      MixThenShift(next, bits[1..]);
      FeedFirst(r, bits);
    }
  }

  /** The program's checksum is the register fed with the bits of the message. */
  lemma {:induction false} WordIsRegister(w: Word, bytes: seq<Byte>)
    ensures Low(FeedWord(w, bytes), 16) == Feed(Low(w, 16), MessageBits(bytes))
    decreases |bytes|
  {
    hide Low, Xor16, ShiftWords, FeedBit, Mix, Shifts;
    if bytes != [] {
      var n := |bytes| - 1;
      var before := FeedWord(w, bytes[..n]);
      WordIsRegister(w, bytes[..n]);
      ByteMixes(before, bytes[n]);
      ShiftWordsShift(Xor16(before, High(bytes[n])), 8);
      MixThenShift(Low(before, 16), Low(bytes[n], 8));
      FeedSplits(Low(w, 16), MessageBits(bytes[..n]), Low(bytes[n], 8));
    }
  }

  // ---- parity ---------------------------------------------------------------------

  /** Whether the number of ones is odd. */
  function Odd(bits: seq<bool>): bool {
    if bits == [] then false else Odd(bits[..|bits| - 1]) != bits[|bits| - 1]
  }

  lemma {:induction false} OddSplits(a: seq<bool>, b: seq<bool>)
    ensures Odd(a + b) == (Odd(a) != Odd(b))
    decreases |b|
  {
    if b == [] {
      assert a + b == a;
    } else {
      assert (a + b)[..|a + b| - 1] == a + b[..|b| - 1];
      OddSplits(a, b[..|b| - 1]);
    }
  }

  lemma {:induction false} OddOfXor(a: seq<bool>, b: seq<bool>)
    requires |a| == |b|
    ensures Odd(XorBits(a, b)) == (Odd(a) != Odd(b))
    decreases |a|
  {
    if a != [] {
      var n := |a| - 1;
      assert XorBits(a, b)[..n] == XorBits(a[..n], b[..n]);
      OddOfXor(a[..n], b[..n]);
    }
  }

  lemma {:induction false} OddOfZeros(n: nat)
    ensures !Odd(Zeros(n))
  {
    if n > 0 {
      assert Zeros(n)[..n - 1] == Zeros(n - 1);
      OddOfZeros(n - 1);
    }
  }

  const TAPS: Register := seq(16, j requires 0 <= j < 16 => Tap(j))

  /** Below x^16 the polynomial has three terms. */
  lemma {:induction false} TapsAreOdd()
    ensures Odd(TAPS)
  {
    assert TAPS == (((((Zeros(3) + [true]) + Zeros(6)) + [true]) + Zeros(4)) + [true]);
    OddOfZeros(3);
    OddOfZeros(6);
    OddOfZeros(4);
    OddSplits(Zeros(3), [true]);
    OddSplits(Zeros(3) + [true], Zeros(6));
    OddSplits(Zeros(3) + [true] + Zeros(6), [true]);
    OddSplits(Zeros(3) + [true] + Zeros(6) + [true], Zeros(4));
    OddSplits(Zeros(3) + [true] + Zeros(6) + [true] + Zeros(4), [true]);
    assert Odd([true]) by {
      assert [true][..0] == [];
    }
  }

  lemma {:induction false} OddOfFirst(r: Register)
    ensures Odd(r[1..] + [false]) == (Odd(r) != r[0])
  {
    OddSplits(r[1..], [false]);
    OddSplits([r[0]], r[1..]);
    assert r == [r[0]] + r[1..];
    assert [r[0]][..0] == [] && [false][..0] == [];
    assert Odd([r[0]]) == r[0] && !Odd([false]);
  }

  /** Every bit of the message changes the parity of the register by its own. */
  lemma {:induction false} FeedBitParity(r: Register, bit: bool)
    ensures Odd(FeedBit(r, bit)) == (Odd(r) != bit)
  {
    hide Odd;
    var top := r[0] != bit;
    var moved := r[1..] + [false];
    var added := if top then TAPS else Zeros(16);
    assert FeedBit(r, bit) == XorBits(moved, added);
    OddOfXor(moved, added);
    OddOfFirst(r);
    TapsAreOdd();
    OddOfZeros(16);
  }

  lemma {:induction false} FeedParity(r: Register, bits: seq<bool>)
    ensures Odd(Feed(r, bits)) == (Odd(r) != Odd(bits))
    decreases |bits|
  {
    hide FeedBit;
    if bits == [] {
      assert !Odd(bits);
    } else {
      var n := |bits| - 1;
      FeedParity(r, bits[..n]);
      FeedBitParity(Feed(r, bits[..n]), bits[n]);
    }
  }

  lemma {:induction false} InitialIsEven()
    ensures Low(INITIAL_VALUE, 16) == seq(16, _ => true) && !Odd(Low(INITIAL_VALUE, 16))
  {
    hide Low, Odd;
    LowNibble(0xffff, 12);
    LowNibble(0xfff, 8);
    LowNibble(0xff, 4);
    LowNibble(0xf, 0);
    var ones := seq(16, _ => true);
    assert XorBits(ones[..8], ones[8..]) == Zeros(8);
    OddOfXor(ones[..8], ones[8..]);
    OddOfZeros(8);
    OddSplits(ones[..8], ones[8..]);
    assert ones == ones[..8] + ones[8..];
    assert Low(0xffff, 16) == Low(0, 0) + ones;
    assert Low(INITIAL_VALUE, 16) == ones;
  }

  /** A message and its checksum together have an even number of ones. */
  lemma {:induction false} ChecksumBalances(bytes: seq<Byte>)
    ensures Odd(Low(Checksum(bytes), 16)) == Odd(MessageBits(bytes))
  {
    hide Low, Odd, Feed;
    WordIsRegister(INITIAL_VALUE, bytes);
    FeedParity(Low(INITIAL_VALUE, 16), MessageBits(bytes));
    InitialIsEven();
  }

  // ---- linearity ------------------------------------------------------------------

  lemma {:induction false} FeedBitLinear(r: Register, s: Register, a: bool, b: bool)
    ensures FeedBit(XorBits(r, s), a != b) == XorBits(FeedBit(r, a), FeedBit(s, b))
  {
    assert forall j :: 0 <= j < 16 ==> FeedBit(XorBits(r, s), a != b)[j] == XorBits(FeedBit(r, a), FeedBit(s, b))[j];
  }

  lemma {:induction false} FeedLinear(r: Register, s: Register, a: seq<bool>, b: seq<bool>)
    requires |a| == |b|
    ensures Feed(XorBits(r, s), XorBits(a, b)) == XorBits(Feed(r, a), Feed(s, b))
    decreases |a|
  {
    hide FeedBit;
    if a != [] {
      var n := |a| - 1;
      assert XorBits(a, b)[..n] == XorBits(a[..n], b[..n]);
      FeedLinear(r, s, a[..n], b[..n]);
      FeedBitLinear(Feed(r, a[..n]), Feed(s, b[..n]), a[n], b[n]);
    }
  }

  /** The checksums of two messages differ by what the difference of the messages leaves in
      a register that was zero: detection depends on the error only. */
  lemma {:induction false} ChecksumDifference(a: seq<Byte>, b: seq<Byte>)
    requires |a| == |b|
    ensures XorBits(Low(Checksum(a), 16), Low(Checksum(b), 16)) == Feed(ZERO, XorBits(MessageBits(a), MessageBits(b)))
  {
    hide Low, Feed;
    var ones := Low(INITIAL_VALUE, 16);
    WordIsRegister(INITIAL_VALUE, a);
    WordIsRegister(INITIAL_VALUE, b);
    FeedLinear(ones, ones, MessageBits(a), MessageBits(b));
    assert XorBits(ones, ones) == ZERO;
  }

  // ---- bursts ---------------------------------------------------------------------

  lemma {:induction false} ShiftInjective(r: Register, s: Register)
    requires Shift(r) == Shift(s)
    ensures r == s
  {
    assert Shift(r)[15] == r[0] && Shift(s)[15] == s[0];
    forall j | 0 < j < 16
      ensures r[j] == s[j]
    {
      assert Shift(r)[j - 1] == Shift(s)[j - 1];
    }
  }

  lemma {:induction false} ShiftsInjective(r: Register, s: Register, n: nat)
    requires Shifts(r, n) == Shifts(s, n)
    ensures r == s
  {
    hide Shift;
    if n > 0 {
      ShiftInjective(Shifts(r, n - 1), Shifts(s, n - 1));
      ShiftsInjective(r, s, n - 1);
    }
  }

  lemma {:induction false} FeedInjective(r: Register, s: Register, bits: seq<bool>)
    requires Feed(r, bits) == Feed(s, bits)
    ensures r == s
    decreases |bits|
  {
    if bits != [] {
      var n := |bits| - 1;
      var p, q := Feed(r, bits[..n]), Feed(s, bits[..n]);
      ShiftInjective(Mix(p, [bits[n]]), Mix(q, [bits[n]]));
      forall j | 0 <= j < 16
        ensures p[j] == q[j]
      {
        assert Mix(p, [bits[n]])[j] == Mix(q, [bits[n]])[j];
      }
      FeedInjective(r, s, bits[..n]);
    }
  }

  /** Two windows of at most sixteen bits leave different registers. */
  lemma {:induction false} WindowsDiffer(r: Register, a: seq<bool>, b: seq<bool>)
    requires |a| == |b| <= 16 && Feed(r, a) == Feed(r, b)
    ensures a == b
  {
    MixThenShift(r, a);
    MixThenShift(r, b);
    ShiftsInjective(Mix(r, a), Mix(r, b), |a|);
    forall j | 0 <= j < |a|
      ensures a[j] == b[j]
    {
      assert Mix(r, a)[j] == Mix(r, b)[j];
    }
  }

  /** Messages that differ only within sixteen consecutive bits have different checksums. */
  lemma {:induction false} BurstChangesChecksum(a: seq<Byte>, b: seq<Byte>, start: nat)
    requires |a| == |b| && MessageBits(a) != MessageBits(b)
    requires forall k :: 0 <= k < 8 * |a| && MessageBits(a)[k] != MessageBits(b)[k] ==> start <= k < start + 16
    ensures Checksum(a) != Checksum(b)
  {
    hide Low, Feed, MessageBits;
    var x, y := MessageBits(a), MessageBits(b);
    var n := |x|;
    var i := if start < n then start else n;
    var j := if start + 16 < n then start + 16 else n;
    assert x == x[..i] + x[i..j] + x[j..] && y == y[..i] + y[i..j] + y[j..];
    assert x[..i] == y[..i];
    assert x[j..] == y[j..];
    if Checksum(a) == Checksum(b) {
      var ones := Low(INITIAL_VALUE, 16);
      WordIsRegister(INITIAL_VALUE, a);
      WordIsRegister(INITIAL_VALUE, b);
      FeedSplits(ones, x[..i] + x[i..j], x[j..]);
      FeedSplits(ones, y[..i] + y[i..j], y[j..]);
      FeedInjective(Feed(ones, x[..i] + x[i..j]), Feed(ones, y[..i] + y[i..j]), x[j..]);
      FeedSplits(ones, x[..i], x[i..j]);
      FeedSplits(ones, y[..i], y[i..j]);
      WindowsDiffer(Feed(ones, x[..i]), x[i..j], y[i..j]);
    }
  }

  // ---- feedback -------------------------------------------------------------------

  /** Zeros leave an empty register empty. */
  lemma {:induction false} ZerosLeaveZero(bits: seq<bool>)
    requires forall k :: 0 <= k < |bits| ==> !bits[k]
    ensures Feed(ZERO, bits) == ZERO
  {
    if bits != [] {
      ZerosLeaveZero(bits[..|bits| - 1]);
      assert Mix(ZERO, [false]) == ZERO;
      assert Shift(ZERO) == ZERO;
    }
  }

  /** When an empty register takes the bits in turn: at which of them the polynomial is added. */
  function Feedback(bits: seq<bool>): (r: seq<bool>)
    ensures |r| == |bits|
  {
    if bits == [] then []
    else Feedback(bits[..|bits| - 1]) + [Feed(ZERO, bits[..|bits| - 1])[0] != bits[|bits| - 1]]
  }

  /** The bit with the given number of bits behind it, where there is one. */
  predicate Behind(bits: seq<bool>, m: int) {
    0 <= m < |bits| && bits[|bits| - 1 - m]
  }

  lemma {:induction false} FeedBitAt(r: Register, bit: bool, j: nat)
    requires j < 16
    ensures FeedBit(r, bit)[j] == ((j < 15 && r[j + 1]) != (r[0] != bit && Tap(j)))
  {
  }

  /** One more bit of feedback. */
  lemma {:induction false} FeedbackGrows(bits: seq<bool>, m: int)
    requires bits != []
    ensures var n := |bits| - 1;
            Behind(Feedback(bits), m) ==
              if m == 0 then Feed(ZERO, bits[..n])[0] != bits[n] else m > 0 && Behind(Feedback(bits[..n]), m - 1)
  {
    hide Feed;
  }

  /** The register in closed form: each of its bits is a sum of three feedback bits. */
  lemma {:induction false} RegisterIsFeedback(bits: seq<bool>, j: nat)
    requires j < 16
    ensures var f := Feedback(bits); Feed(ZERO, bits)[j] == (Behind(f, 3 - j) != (Behind(f, 10 - j) != Behind(f, 15 - j)))
    decreases |bits|
  {
    hide FeedBit, Feedback;
    if bits == [] {
      NothingBehind();
    } else {
      var n := |bits| - 1;
      FeedBitAt(Feed(ZERO, bits[..n]), bits[n], j);
      FeedbackGrows(bits, 3 - j);
      FeedbackGrows(bits, 10 - j);
      FeedbackGrows(bits, 15 - j);
      if j < 15 {
        RegisterIsFeedback(bits[..n], j + 1);
      }
    }
  }

  lemma {:induction false} NothingBehind()
    ensures forall m :: !Behind(Feedback([]), m)
  {
  }

  lemma {:induction false} NoFeedbackNoBits(bits: seq<bool>)
    requires forall k :: 0 <= k < |bits| ==> !Feedback(bits)[k]
    ensures forall k :: 0 <= k < |bits| ==> !bits[k]
    decreases |bits|
  {
    hide Feed;
    if bits != [] {
      var n := |bits| - 1;
      assert forall k :: 0 <= k < n ==> Feedback(bits[..n])[k] == Feedback(bits)[k];
      NoFeedbackNoBits(bits[..n]);
      ZerosLeaveZero(bits[..n]);
      assert !Feedback(bits)[n];
    }
  }

  /** One more bit, chosen for its feedback. */
  function Answering(bits: seq<bool>, feedback: bool): seq<bool> {
    bits + [Feed(ZERO, bits)[0] != feedback]
  }

  /** The bits with a given feedback. */
  function BitsWith(feedback: seq<bool>): (r: seq<bool>)
    ensures |r| == |feedback|
  {
    if feedback == [] then [] else Answering(BitsWith(feedback[..|feedback| - 1]), feedback[|feedback| - 1])
  }

  lemma {:induction false} FeedbackOfBitsWith(feedback: seq<bool>)
    ensures Feedback(BitsWith(feedback)) == feedback
    decreases |feedback|
  {
    hide Feed;
    if feedback != [] {
      var n := |feedback| - 1;
      FeedbackOfBitsWith(feedback[..n]);
      assert BitsWith(feedback)[..n] == BitsWith(feedback[..n]);
    }
  }
}
