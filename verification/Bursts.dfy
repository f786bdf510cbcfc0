/** Bursts of errors in a packet. The checksum covers the message, the header and the
    payload, and stands behind it with its low byte first. For every window of sixteen bits
    this module decides whether corruption within the window can go undetected. */
module Bursts {
  import opened Bits
  import opened Crc
  import opened Wire

  /** The bits in which two equally long messages differ lie in a window of sixteen. */
  ghost predicate Burst(a: seq<Byte>, b: seq<Byte>, start: nat)
    requires |a| == |b|
  {
    forall k :: 0 <= k < 8 * |a| && MessageBits(a)[k] != MessageBits(b)[k] ==> start <= k < start + 16
  }

  /** Corruption confined to sixteen consecutive bits is rejected, unless it touches both
      the checksum and what the checksum covers. */
  lemma {:induction false} BurstRejected(sent: Packet, received: seq<Byte>, start: nat)
    requires |sent.payload| <= MAX_PAYLOAD_LEN && |received| == |EncodedPacket(sent)| && received != EncodedPacket(sent)
    requires Burst(EncodedPacket(sent), received, start)
    requires var n := |received| - CRC_LEN; received[n..] == EncodedPacket(sent)[n..] || received[..n] == EncodedPacket(sent)[..n]
    ensures DecodedPacket(received).Err?
  {
    hide Checksum, DecodedPacket, Burst, Le16, Header;
    if DecodedPacket(received).Ok? {
      AcceptedIsEncoding(received);
      var other := DecodedPacket(received).value;
      var x, y := Body(sent), Body(other);
      var n := |received| - CRC_LEN;
      assert EncodedPacket(sent)[..n] == x && EncodedPacket(sent)[n..] == Le16(Checksum(x));
      assert received[..n] == y && received[n..] == Le16(Checksum(y));
      if x != y {
        BurstInBody(EncodedPacket(sent), received, n, start);
        BurstSeen(x, y, start);
        StoredDiffer(Checksum(x), Checksum(y));
      }
    }
  }

  lemma {:induction false} StoredDiffer(a: Word, b: Word)
    requires Le16(a) == Le16(b)
    ensures a == b
  {
    assert Le16(a)[0] == Le16(b)[0] && Le16(a)[1] == Le16(b)[1];
  }

  lemma {:induction false} BurstSeen(a: seq<Byte>, b: seq<Byte>, start: nat)
    requires |a| == |b| && a != b && Burst(a, b, start)
    ensures Checksum(a) != Checksum(b)
  {
    hide Checksum, MessageBits;
    if MessageBits(a) == MessageBits(b) {
      BitsDetermine(a, b);
    } else {
      BurstChangesChecksum(a, b, start);
    }
  }

  lemma {:induction false} BurstInBody(a: seq<Byte>, b: seq<Byte>, n: nat, start: nat)
    requires |a| == |b| && n <= |a| && Burst(a, b, start)
    ensures Burst(a[..n], b[..n], start)
  {
    hide MessageBits;
    assert a == a[..n] + a[n..] && b == b[..n] + b[n..];
    MessageBitsSplit(a[..n], a[n..]);
    MessageBitsSplit(b[..n], b[n..]);
    forall k | 0 <= k < 8 * n && MessageBits(a[..n])[k] != MessageBits(b[..n])[k]
      ensures start <= k < start + 16
    {
      assert MessageBits(a)[k] == MessageBits(a[..n])[k] && MessageBits(b)[k] == MessageBits(b[..n])[k];
    }
  }

  lemma {:induction false} BitsOfPart(bytes: seq<Byte>, low: nat, high: nat, k: nat)
    requires low <= high <= |bytes| && k < 8 * (high - low)
    ensures MessageBits(bytes[low..high])[k] == MessageBits(bytes)[8 * low + k]
  {
    hide MessageBits, Low;
    BitsOfByte(bytes[low..high], k / 8, k % 8);
    BitsOfByte(bytes, low + k / 8, k % 8);
  }

  /** Bytes outside the window are as sent. */
  lemma {:induction false} OutsideWindow(a: seq<Byte>, b: seq<Byte>, low: nat, high: nat, start: nat)
    requires |a| == |b| && low <= high <= |a| && Burst(a, b, start)
    requires start + 16 <= 8 * low || 8 * high <= start
    ensures a[low..high] == b[low..high]
  {
    hide MessageBits, Low;
    var x, y := a[low..high], b[low..high];
    forall k | 0 <= k < 8 * |x|
      ensures MessageBits(x)[k] == MessageBits(y)[k]
    {
      BitsOfPart(a, low, high, k);
      BitsOfPart(b, low, high, k);
      var i := 8 * low + k;
      assert MessageBits(a)[i] == MessageBits(b)[i];
    }
    BitsDetermine(x, y);
  }

  // ---- windows across the boundary ------------------------------------------------

  /** The place in the register of a bit of the stored checksum. */
  function Stored(j: nat): nat {
    if j < 8 then j + 8 else j - 8
  }

  /** The stored checksum has its low byte first. */
  lemma {:induction false} StoredBits(w: Word, j: nat)
    requires j < 16
    ensures MessageBits(Le16(w))[j] == Low(w, 16)[Stored(j)]
  {
    hide Low;
    LowSplits(w);
    var low: Byte, high: Byte := w % 0x100, w / 0x100;
    assert Le16(w) == [low] + [high] && [low][..0] == [];
    MessageBitsSplit([low], [high]);
  }

  /** Of the stored bits only the first sixteen less `d` are set. */
  ghost predicate Quiet(r: Register, d: nat) {
    forall j :: 16 - d <= j < 16 && 0 <= j ==> !r[Stored(j)]
  }

  /** The register as the sum of the feedback bits `f`. */
  ghost predicate SumOf(r: Register, f: seq<bool>) {
    forall j :: 0 <= j < 16 ==> r[j] == (Behind(f, 3 - j) != (Behind(f, 10 - j) != Behind(f, 15 - j)))
  }

  lemma {:induction false} FeedIsSum(bits: seq<bool>)
    ensures SumOf(Feed(ZERO, bits), Feedback(bits))
  {
    hide Feed, Feedback, Behind;
    forall j | 0 <= j < 16
      ensures var f := Feedback(bits); Feed(ZERO, bits)[j] == (Behind(f, 3 - j) != (Behind(f, 10 - j) != Behind(f, 15 - j)))
    {
      RegisterIsFeedback(bits, j);
    }
  }

  lemma {:induction false} QuietBits(r: Register, d: nat)
    requires Quiet(r, d)
    ensures forall i :: 0 <= i < 16 && Stored(i) + d >= 16 ==> !r[i]
  {
    forall i | 0 <= i < 16 && Stored(i) + d >= 16
      ensures !r[i]
    {
      assert Stored(Stored(i)) == i;
    }
  }

  /** Seven, nine or eleven message bits at the end, or eight with nine quiet bits behind
      them, cannot go unnoticed. */
  lemma {:induction false} WindowDetected(bits: seq<bool>, d: nat)
    requires Quiet(Feed(ZERO, bits), d)
    requires (|bits| == d && (d == 7 || d == 9 || d == 11)) || (|bits| == 8 && 9 <= d < 16)
    ensures forall k :: 0 <= k < |bits| ==> !bits[k]
  {
    hide Feed, Feedback, Quiet;
    FeedIsSum(bits);
    var r, f := Feed(ZERO, bits), Feedback(bits);
    QuietBits(r, d);
    assert !r[1] && !r[2] && !r[3] && !r[4] && !r[5] && !r[6] && !r[7];
    assert d != 7 ==> !r[0] && !r[15];
    assert d == 11 ==> !r[13] && !r[14];
    forall k | 0 <= k < |bits|
      ensures !f[k]
    {
      assert !Behind(f, |bits| - 1 - k);
    }
    NoFeedbackNoBits(bits);
  }

  /** Which feedback, counted from the back, an undetected window of `d` message bits has. */
  predicate Evasion(d: nat, m: int) {
    if d <= 4 then m == 0
    else if d == 5 then m == 1
    else if d == 6 then m == 2
    else if d == 8 then m == 0 || m == 7
    else if d == 10 then m == 2 || m == 4 || m == 9
    else if d <= 14 then m == 6 || m == 11
    else m == 7 || m == 12
  }

  lemma {:induction false} NoBitsNoFeedback(bits: seq<bool>)
    requires forall k :: 0 <= k < |bits| ==> !bits[k]
    ensures forall k :: 0 <= k < |bits| ==> !Feedback(bits)[k]
    decreases |bits|
  {
    hide Feed;
    if bits != [] {
      var n := |bits| - 1;
      NoBitsNoFeedback(bits[..n]);
      ZerosLeaveZero(bits[..n]);
    }
  }

  lemma {:induction false} EvasionIsQuiet(r: Register, f: seq<bool>, d: nat)
    requires 0 < d < 16 && d != 7 && d != 9 && d != 11 && |f| == d && SumOf(r, f)
    requires forall k :: 0 <= k < d ==> f[k] == Evasion(d, d - 1 - k)
    ensures Quiet(r, d)
  {
    assert forall m :: Behind(f, m) <==> 0 <= m < d && Evasion(d, m);
  }

  /** Every other number of message bits has an error that goes unnoticed. */
  lemma {:induction false} WindowEvades(d: nat) returns (bits: seq<bool>)
    requires 0 < d < 16 && d != 7 && d != 9 && d != 11
    ensures |bits| == d && Quiet(Feed(ZERO, bits), d)
    ensures exists k :: 0 <= k < d && bits[k]
  {
    hide Feed, Feedback, Quiet;
    var f := seq(d, k requires 0 <= k < d => Evasion(d, d - 1 - k));
    bits := BitsWith(f);
    FeedbackOfBitsWith(f);
    FeedIsSum(bits);
    EvasionIsQuiet(Feed(ZERO, bits), f, d);
    var m := if d <= 4 || d == 8 then 0 else if d == 5 then 1 else if d == 6 || d == 10 then 2 else if d <= 14 then 6 else 7;
    assert f[d - 1 - m];
    if forall k :: 0 <= k < d ==> !bits[k] {
      NoBitsNoFeedback(bits);
    }
  }

  // ---- what a window decides ------------------------------------------------------

  /** What the bits that two messages differ in leave in the register is decided by the last
      of them. */
  lemma {:induction false} OnlyTheEnd(bits: seq<bool>, start: nat)
    requires start <= |bits|
    requires forall k :: 0 <= k < start ==> !bits[k]
    ensures Feed(ZERO, bits) == Feed(ZERO, bits[start..])
  {
    hide Feed;
    ZerosLeaveZero(bits[..start]);
    FeedSplits(ZERO, bits[..start], bits[start..]);
    assert bits == bits[..start] + bits[start..];
  }

  /** The bits in which two messages differ, and where their stored checksums differ. */
  lemma {:induction false} EncodedDifference(a: Packet, b: Packet) returns (error: seq<bool>, r: Register)
    requires |a.payload| == |b.payload| <= MAX_PAYLOAD_LEN
    ensures error == XorBits(MessageBits(Body(a)), MessageBits(Body(b))) && r == Feed(ZERO, error)
    ensures var x, y := MessageBits(EncodedPacket(a)), MessageBits(EncodedPacket(b));
            && (forall k :: 0 <= k < |error| ==> (x[k] != y[k]) == error[k])
            && (forall j :: 0 <= j < 16 ==> (x[|error| + j] != y[|error| + j]) == r[Stored(j)])
  {
    hide Feed, MessageBits, Header, Low, Checksum;
    var p, q := Body(a), Body(b);
    error, r := XorBits(MessageBits(p), MessageBits(q)), Feed(ZERO, XorBits(MessageBits(p), MessageBits(q)));
    ChecksumDifference(p, q);
    MessageBitsSplit(p, Le16(Checksum(p)));
    MessageBitsSplit(q, Le16(Checksum(q)));
    var x, y := MessageBits(EncodedPacket(a)), MessageBits(EncodedPacket(b));
    forall j | 0 <= j < 16
      ensures (x[|error| + j] != y[|error| + j]) == r[Stored(j)]
    {
      StoredBits(Checksum(p), j);
      StoredBits(Checksum(q), j);
      assert x[|error| + j] == MessageBits(Le16(Checksum(p)))[j];
      assert y[|error| + j] == MessageBits(Le16(Checksum(q)))[j];
    }
  }

  /** The windows in which no burst is missed, for a payload of `n` bytes: those on one side
      of the boundary, those with seven, nine or eleven bits of the message in front of it,
      and for payloads of at most a byte those that reach back into the length field. */
  predicate DetectedWindow(n: nat, start: nat) {
    var end := 8 * (HEADER_LEN + n);
    || start + 16 <= end
    || end <= start
    || end - start == 7 || end - start == 9 || end - start == 11
    || n == 0
    || (n == 1 && end - start > 8)
  }

  ghost predicate AllBurstsRejected(sent: Packet, start: nat)
    requires |sent.payload| <= MAX_PAYLOAD_LEN
  {
    forall received ::
      |received| == |EncodedPacket(sent)| && received != EncodedPacket(sent) && Burst(EncodedPacket(sent), received, start) ==>
        DecodedPacket(received).Err?
  }

  /** Packets of one length agree in their length bytes. */
  lemma {:induction false} LengthBitsAgree(a: Packet, b: Packet, k: nat)
    requires |a.payload| == |b.payload| <= MAX_PAYLOAD_LEN && 64 <= k < 80
    ensures MessageBits(Body(a))[k] == MessageBits(Body(b))[k]
  {
    hide MessageBits, Le16, Le32, Low;
    BitsOfByte(Body(a), k / 8, k % 8);
    BitsOfByte(Body(b), k / 8, k % 8);
    assert Body(a)[8..10] == Le16(|a.payload|) == Body(b)[8..10];
    assert Body(a)[k / 8] == Body(a)[8..10][k / 8 - 8] && Body(b)[k / 8] == Body(b)[8..10][k / 8 - 8];
  }

  /** In a detected window across the boundary no other packet can be received. */
  lemma {:induction false} StraddleDetected(a: Packet, b: Packet, start: nat)
    requires |a.payload| == |b.payload| <= MAX_PAYLOAD_LEN
    requires var end := 8 * (HEADER_LEN + |a.payload|); start < end < start + 16
    requires DetectedWindow(|a.payload|, start) && Burst(EncodedPacket(a), EncodedPacket(b), start)
    ensures EncodedPacket(a) == EncodedPacket(b)
  {
    hide Feed, MessageBits, Body, Checksum, Le16;
    var error, r := EncodedDifference(a, b);
    var n, d := |a.payload|, |error| - start;
    var x, y := MessageBits(EncodedPacket(a)), MessageBits(EncodedPacket(b));
    assert forall k :: 0 <= k < |x| && x[k] != y[k] ==> start <= k < start + 16;
    assert Quiet(r, d) by {
      forall j | 16 - d <= j < 16
        ensures !r[Stored(j)]
      {
        assert x[|error| + j] == y[|error| + j];
      }
    }
    forall k | start <= k < 80
      ensures !error[k]
    {
      LengthBitsAgree(a, b, k);
    }
    var from := if n == 0 then 80 else if n == 1 && d > 8 then 80 else start;
    assert forall k :: 0 <= k < from ==> !error[k];
    OnlyTheEnd(error, from);
    if n > 0 {
      WindowDetected(error[from..], d);
    }
    forall k | 0 <= k < |error|
      ensures MessageBits(Body(a))[k] == MessageBits(Body(b))[k]
    {
      assert from <= k ==> error[k] == error[from..][k - from];
      assert !error[k];
    }
    BitsDetermine(Body(a), Body(b));
  }

  /** The bytes with given bits. */
  lemma {:induction false} BytesWith(bits: seq<bool>) returns (bytes: seq<Byte>)
    requires |bits| % 8 == 0
    ensures 8 * |bytes| == |bits| && MessageBits(bytes) == bits
    decreases |bits|
  {
    hide Low, Value;
    if bits == [] {
      return [];
    }
    var n := |bits| - 8;
    var front := BytesWith(bits[..n]);
    WordSize();
    LowOfValue(bits[n..]);
    var last: Byte := Value(bits[n..]);
    bytes := front + [last];
    assert bytes[..|front|] == front;
    assert bits == bits[..n] + bits[n..];
  }

  lemma {:induction false} HeadersAgree(packet: Packet, other: Packet)
    requires |packet.payload| == |other.payload| <= MAX_PAYLOAD_LEN && other == packet.(payload := other.payload)
    ensures Header(packet) == Header(other)
  {
  }

  lemma {:induction false} EvasionMeaning(sent: Packet, other: Packet, start: nat, error: seq<bool>, r: Register)
    requires |sent.payload| == |other.payload| <= MAX_PAYLOAD_LEN
    requires |error| == 8 * (HEADER_LEN + |sent.payload|) && start <= |error| < start + 16
    requires var x, y := MessageBits(EncodedPacket(sent)), MessageBits(EncodedPacket(other));
             && (forall k :: 0 <= k < |error| ==> (x[k] != y[k]) == error[k])
             && (forall j :: 0 <= j < 16 ==> (x[|error| + j] != y[|error| + j]) == r[Stored(j)])
    requires Quiet(r, |error| - start)
    requires exists k :: 0 <= k < |error| && error[k]
    requires forall k :: 0 <= k < start ==> !error[k]
    ensures EncodedPacket(other) != EncodedPacket(sent) && Burst(EncodedPacket(sent), EncodedPacket(other), start)
  {
    hide MessageBits, EncodedPacket;
    var x, y := MessageBits(EncodedPacket(sent)), MessageBits(EncodedPacket(other));
    forall k | 0 <= k < |x| && x[k] != y[k]
      ensures start <= k < start + 16
    {
      if k >= |error| {
        var j := k - |error|;
        assert x[|error| + j] != y[|error| + j];
        assert r[Stored(j)];
      }
    }
  }

  /** In every other window there is, for every packet, another one that can be received in
      its place. */
  lemma {:induction false} StraddleEvades(sent: Packet, start: nat) returns (other: Packet)
    requires |sent.payload| <= MAX_PAYLOAD_LEN && !DetectedWindow(|sent.payload|, start)
    ensures other == sent.(payload := other.payload) && |other.payload| == |sent.payload|
    ensures EncodedPacket(other) != EncodedPacket(sent) && Burst(EncodedPacket(sent), EncodedPacket(other), start)
  {
    hide Feed, MessageBits, Checksum, Header, Quiet, Le16;
    var n := |sent.payload|;
    var d := 8 * (HEADER_LEN + n) - start;
    var tail := WindowEvades(d);
    var flips := Zeros(8 * n - d) + tail;
    var payload := BytesWith(XorBits(MessageBits(sent.payload), flips));
    other := sent.(payload := payload);
    var error, r := EncodedDifference(sent, other);
    HeadersAgree(sent, other);
    MessageBitsSplit(Header(sent), sent.payload);
    MessageBitsSplit(Header(sent), payload);
    forall k | 0 <= k < |error|
      ensures error[k] == (k >= start && tail[k - start])
    {
      if k >= 80 {
        assert MessageBits(payload)[k - 80] == (MessageBits(sent.payload)[k - 80] != flips[k - 80]);
      }
    }
    OnlyTheEnd(error, start);
    assert error[start..] == tail;
    EvasionMeaning(sent, other, start, error, r);
  }

  lemma {:induction false} WindowRejects(sent: Packet, received: seq<Byte>, start: nat)
    requires |sent.payload| <= MAX_PAYLOAD_LEN && |received| == |EncodedPacket(sent)| && received != EncodedPacket(sent)
    requires Burst(EncodedPacket(sent), received, start) && DetectedWindow(|sent.payload|, start)
    ensures DecodedPacket(received).Err?
  {
    hide DecodedPacket, EncodedPacket, Burst;
    var n := HEADER_LEN + |sent.payload|;
    if start + 16 <= 8 * n {
      OutsideWindow(EncodedPacket(sent), received, n, n + 2, start);
      assert received[n..] == received[n..n + 2] && EncodedPacket(sent)[n..] == EncodedPacket(sent)[n..n + 2];
      BurstRejected(sent, received, start);
    } else if 8 * n <= start {
      OutsideWindow(EncodedPacket(sent), received, 0, n, start);
      assert received[..n] == received[0..n] && EncodedPacket(sent)[..n] == EncodedPacket(sent)[0..n];
      BurstRejected(sent, received, start);
    } else if DecodedPacket(received).Ok? {
      AcceptedIsEncoding(received);
      StraddleDetected(sent, DecodedPacket(received).value, start);
    }
  }

  /** For every packet and every window of sixteen bits: all corruption within the window is
      rejected if and only if the window is a detected one. */
  lemma {:induction false} BurstDetectedExactly(sent: Packet, start: nat)
    requires |sent.payload| <= MAX_PAYLOAD_LEN
    ensures AllBurstsRejected(sent, start) <==> DetectedWindow(|sent.payload|, start)
  {
    hide DecodedPacket, EncodedPacket, Burst;
    if DetectedWindow(|sent.payload|, start) {
      forall received | |received| == |EncodedPacket(sent)| && received != EncodedPacket(sent) && Burst(EncodedPacket(sent), received, start)
        ensures DecodedPacket(received).Err?
      {
        WindowRejects(sent, received, start);
      }
    } else {
      var other := StraddleEvades(sent, start);
      PacketRoundTrip(other);
      assert DecodedPacket(EncodedPacket(other)).Ok?;
    }
  }
}
