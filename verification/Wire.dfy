/** Packets and frames of the robot link. */
module Wire {
  import opened Bits
  import opened Crc
  import Cobs

  const PROTOCOL_VERSION: Byte := 1
  const HEADER_LEN := 10
  const CRC_LEN := 2
  const MAX_PAYLOAD_LEN := 1024
  const MAX_PACKET_LEN := HEADER_LEN + MAX_PAYLOAD_LEN + CRC_LEN
  const MAX_UART_FRAME_LEN := MAX_PACKET_LEN + MAX_PACKET_LEN / 254 + 2
  const UART_DELIMITER: Byte := 0

  datatype MessageKind = Request | Response | Event

  type RequestId = n: nat | n < 0x1_0000_0000

  datatype Packet = Packet(kind: MessageKind, opcode: Word, requestId: RequestId, payload: seq<Byte>)

  datatype WireError =
    | OutputTooSmall
    | PayloadTooLarge
    | PacketTooShort
    | UnsupportedVersion(version: Byte)
    | UnknownMessageKind(code: Byte)
    | LengthMismatch
    | CrcMismatch(expected: Word, actual: Word)
    | MissingUartDelimiter
    | MalformedCobs

  datatype Result<+T> = Ok(value: T) | Err(error: WireError)

  // ---- what a packet looks like ---------------------------------------------------

  function KindByte(kind: MessageKind): Byte {
    match kind
    case Request => 1
    case Response => 2
    case Event => 3
  }

  /** Low byte first. */
  function Le16(w: Word): (r: seq<Byte>)
    ensures |r| == 2
  {
    [w % 0x100, w / 0x100]
  }

  function From16(low: Byte, high: Byte): Word {
    var h: nat := high;
    low + 0x100 * h
  }

  function Le32(n: RequestId): (r: seq<Byte>)
    ensures |r| == 4
  {
    Le16(n % 0x1_0000) + Le16(n / 0x1_0000)
  }

  function From32(a: Byte, b: Byte, c: Byte, d: Byte): RequestId {
    var low: nat, high: nat := From16(a, b), From16(c, d);
    low + 0x1_0000 * high
  }

  function Header(packet: Packet): (r: seq<Byte>)
    requires |packet.payload| <= MAX_PAYLOAD_LEN
    ensures |r| == HEADER_LEN
  {
    [PROTOCOL_VERSION, KindByte(packet.kind)] + Le16(packet.opcode) + Le32(packet.requestId) + Le16(|packet.payload|)
  }

  function Body(packet: Packet): (r: seq<Byte>)
    requires |packet.payload| <= MAX_PAYLOAD_LEN
    ensures |r| == HEADER_LEN + |packet.payload|
  {
    Header(packet) + packet.payload
  }

  function EncodedPacket(packet: Packet): (r: seq<Byte>)
    requires |packet.payload| <= MAX_PAYLOAD_LEN
    ensures |r| == HEADER_LEN + |packet.payload| + CRC_LEN
  {
    Body(packet) + Le16(Checksum(Body(packet)))
  }

  function KindOf(code: Byte): Result<MessageKind> {
    if code == 1 then Ok(Request)
    else if code == 2 then Ok(Response)
    else if code == 3 then Ok(Event)
    else Err(UnknownMessageKind(code))
  }

  /** The checks of the decoder, in its order. */
  function DecodedPacket(input: seq<Byte>): Result<Packet> {
    if |input| < HEADER_LEN + CRC_LEN then Err(PacketTooShort)
    else if input[0] != PROTOCOL_VERSION then Err(UnsupportedVersion(input[0]))
    else
      var payloadLen := From16(input[8], input[9]);
      if payloadLen > MAX_PAYLOAD_LEN then Err(PayloadTooLarge)
      else if |input| != HEADER_LEN + payloadLen + CRC_LEN then Err(LengthMismatch)
      else
        var crcOffset := HEADER_LEN + payloadLen;
        var expected := From16(input[crcOffset], input[crcOffset + 1]);
        var actual := Checksum(input[..crcOffset]);
        if expected != actual then Err(CrcMismatch(expected, actual))
        else if KindOf(input[1]).Err? then Err(KindOf(input[1]).error)
        else Ok(Packet(KindOf(input[1]).value, From16(input[2], input[3]),
                       From32(input[4], input[5], input[6], input[7]), input[HEADER_LEN..crcOffset]))
  }

  // ---- packets round trip ---------------------------------------------------------

  lemma {:induction false} WordRoundTrip(w: Word)
    ensures From16(Le16(w)[0], Le16(w)[1]) == w
  {
  }

  lemma {:induction false} BytesRoundTrip(low: Byte, high: Byte)
    ensures Le16(From16(low, high)) == [low, high]
  {
  }

  lemma {:induction false} IdRoundTrip(n: RequestId)
    ensures var s := Le32(n); From32(s[0], s[1], s[2], s[3]) == n
  {
    WordRoundTrip(n % 0x1_0000);
    WordRoundTrip(n / 0x1_0000);
  }

  lemma {:induction false} IdBytesRoundTrip(a: Byte, b: Byte, c: Byte, d: Byte)
    ensures Le32(From32(a, b, c, d)) == [a, b, c, d]
  {
    BytesRoundTrip(a, b);
    BytesRoundTrip(c, d);
    var low: nat, high: nat := From16(a, b), From16(c, d);
    assert From32(a, b, c, d) % 0x1_0000 == low && From32(a, b, c, d) / 0x1_0000 == high;
  }

  /** Decoding undoes encoding, for every packet that fits. */
  lemma {:induction false} PacketRoundTrip(packet: Packet)
    requires |packet.payload| <= MAX_PAYLOAD_LEN
    ensures DecodedPacket(EncodedPacket(packet)) == Ok(packet)
  {
    hide Le16, From16, Le32, From32, Checksum;
    var bytes, n := EncodedPacket(packet), |packet.payload|;
    assert bytes[..HEADER_LEN + n] == Body(packet);
    assert bytes[HEADER_LEN..HEADER_LEN + n] == packet.payload;
    assert bytes[2..4] == Le16(packet.opcode) && bytes[4..8] == Le32(packet.requestId) && bytes[8..10] == Le16(n);
    assert bytes[HEADER_LEN + n..] == Le16(Checksum(Body(packet)));
    assert bytes[2] == bytes[2..4][0] && bytes[3] == bytes[2..4][1];
    assert bytes[8] == bytes[8..10][0] && bytes[9] == bytes[8..10][1];
    assert bytes[4] == bytes[4..8][0] && bytes[5] == bytes[4..8][1] && bytes[6] == bytes[4..8][2] && bytes[7] == bytes[4..8][3];
    assert bytes[HEADER_LEN + n] == bytes[HEADER_LEN + n..][0] && bytes[HEADER_LEN + n + 1] == bytes[HEADER_LEN + n..][1];
    WordRoundTrip(packet.opcode);
    WordRoundTrip(n);
    IdRoundTrip(packet.requestId);
    WordRoundTrip(Checksum(Body(packet)));
  }

  /** Encoding undoes decoding: there is one encoding for each packet, and nothing else is
      accepted. */
  lemma {:induction false} AcceptedIsEncoding(input: seq<Byte>)
    requires DecodedPacket(input).Ok?
    ensures |DecodedPacket(input).value.payload| <= MAX_PAYLOAD_LEN
    ensures EncodedPacket(DecodedPacket(input).value) == input
  {
    hide Le16, From16, Le32, From32, Checksum;
    var packet := DecodedPacket(input).value;
    var n := |packet.payload|;
    BytesRoundTrip(input[2], input[3]);
    IdBytesRoundTrip(input[4], input[5], input[6], input[7]);
    BytesRoundTrip(input[8], input[9]);
    BytesRoundTrip(input[HEADER_LEN + n], input[HEADER_LEN + n + 1]);
    assert Header(packet) == input[..HEADER_LEN];
    assert Body(packet) == input[..HEADER_LEN + n];
    assert input == input[..HEADER_LEN + n] + [input[HEADER_LEN + n], input[HEADER_LEN + n + 1]];
  }

  /** The layout of protocol version 1, byte by byte. */
  lemma {:induction false} PacketLayout(packet: Packet)
    requires |packet.payload| <= 1024
    ensures var b, n := EncodedPacket(packet), |packet.payload|;
            && |b| == 12 + n
            && b[0] == 1
            && b[1] == (match packet.kind case Request => 1 case Response => 2 case Event => 3)
            && b[2] as int + 0x100 * b[3] as int == packet.opcode
            && b[4] as int + 0x100 * b[5] as int + 0x1_0000 * b[6] as int + 0x100_0000 * b[7] as int == packet.requestId
            && b[8] as int + 0x100 * b[9] as int == n
            && b[10..10 + n] == packet.payload
            && b[10 + n] as int + 0x100 * b[11 + n] as int == Checksum(b[..10 + n])
  {
    hide Checksum, Le16, Le32;
    var b, n := EncodedPacket(packet), |packet.payload|;
    var body := Body(packet);
    assert b[..10 + n] == body && b[10 + n..] == Le16(Checksum(body)) && b[10..10 + n] == packet.payload;
    assert b[..10] == Header(packet);
    HeaderLayout(packet);
    LittleEndian(Checksum(body));
    assert b[10 + n] == b[10 + n..][0] && b[11 + n] == b[10 + n..][1];
    assert forall i :: 0 <= i < 10 ==> b[i] == b[..10][i];
  }

  lemma {:induction false} LittleEndian(w: Word)
    ensures Le16(w)[0] as int + 0x100 * Le16(w)[1] as int == w
  {
  }

  lemma {:induction false} HeaderLayout(packet: Packet)
    requires |packet.payload| <= 1024
    ensures var h := Header(packet);
            && h[0] == 1
            && h[1] == (match packet.kind case Request => 1 case Response => 2 case Event => 3)
            && h[2] as int + 0x100 * h[3] as int == packet.opcode
            && h[4] as int + 0x100 * h[5] as int + 0x1_0000 * h[6] as int + 0x100_0000 * h[7] as int == packet.requestId
            && h[8] as int + 0x100 * h[9] as int == |packet.payload|
  {
    hide Le16;
    var id := packet.requestId;
    LittleEndian(packet.opcode);
    LittleEndian(id % 0x1_0000);
    LittleEndian(id / 0x1_0000);
    LittleEndian(|packet.payload|);
  }

  // ---- corruption -----------------------------------------------------------------

  lemma {:induction false} MessageBitsSplit(a: seq<Byte>, b: seq<Byte>)
    ensures MessageBits(a + b) == MessageBits(a) + MessageBits(b)
    decreases |b|
  {
    hide Low;
    if b == [] {
      assert a + b == a;
    } else {
      assert (a + b)[..|a + b| - 1] == a + b[..|b| - 1];
      MessageBitsSplit(a, b[..|b| - 1]);
    }
  }

  lemma {:induction false} ValueSplits(a: seq<bool>, b: seq<bool>)
    ensures Value(a + b) == Value(a) * Pow2(|b|) + Value(b)
    decreases |b|
  {
    if b == [] {
      assert a + b == a;
    } else {
      var n := |b| - 1;
      assert (a + b)[..|a + b| - 1] == a + b[..n];
      ValueSplits(a, b[..n]);
      DoubleProduct(Value(a), Pow2(n));
    }
  }

  lemma {:induction false} DoubleProduct(x: nat, y: nat)
    ensures 2 * (x * y) == x * (2 * y)
  {
  }

  /** A word is its high byte and its low byte. */
  lemma {:induction false} LowSplits(w: Word)
    ensures Low(w, 16) == Low(w / 0x100, 8) + Low(w % 0x100, 8)
  {
    hide Low, Value, Pow2;
    var bits := Low(w, 16);
    var a, b := bits[..8], bits[8..];
    assert bits == a + b;
    WordSize();
    ValueOfLow(w, 16);
    ValueSplits(a, b);
    LowOfValue(a);
    LowOfValue(b);
  }

  /** The stored checksum has the parity of the checksum. */
  lemma {:induction false} StoredParity(w: Word)
    ensures Odd(MessageBits(Le16(w))) == Odd(Low(w, 16))
  {
    hide Low, Odd;
    var low, high: Byte := w % 0x100, w / 0x100;
    WordSize();
    LowSplits(w);
    OddSplits(Low(high, 8), Low(low, 8));
    OddSplits(Low(low, 8), Low(high, 8));
    assert Le16(w)[..1] == [low] && [low][..0] == [];
    assert MessageBits([low]) == [] + Low(low, 8);
    assert MessageBits(Le16(w)) == Low(low, 8) + Low(high, 8);
  }

  /** Every encoded packet has an even number of ones; and the decoder accepts nothing but
      encoded packets. */
  lemma {:induction false} EncodedIsEven(packet: Packet)
    requires |packet.payload| <= MAX_PAYLOAD_LEN
    ensures !Odd(MessageBits(EncodedPacket(packet)))
  {
    hide Low, Odd, Le16, Checksum, MessageBits;
    var body := Body(packet);
    MessageBitsSplit(body, Le16(Checksum(body)));
    OddSplits(MessageBits(body), MessageBits(Le16(Checksum(body))));
    StoredParity(Checksum(body));
    ChecksumBalances(body);
  }

  /** Corruption that flips an odd number of bits, anywhere in a packet, is rejected. */
  lemma {:induction false} OddCorruptionRejected(sent: Packet, received: seq<Byte>)
    requires |sent.payload| <= MAX_PAYLOAD_LEN && |received| == |EncodedPacket(sent)|
    requires Odd(XorBits(MessageBits(EncodedPacket(sent)), MessageBits(received)))
    ensures DecodedPacket(received).Err?
  {
    hide DecodedPacket, EncodedPacket, Odd, MessageBits;
    EncodedIsEven(sent);
    OddOfXor(MessageBits(EncodedPacket(sent)), MessageBits(received));
    if DecodedPacket(received).Ok? {
      AcceptedIsEncoding(received);
      EncodedIsEven(DecodedPacket(received).value);
    }
  }

  lemma {:induction false} BitsOfByte(bytes: seq<Byte>, i: nat, j: nat)
    requires i < |bytes| && j < 8
    ensures MessageBits(bytes)[8 * i + j] == Low(bytes[i], 8)[j]
    decreases |bytes|
  {
    hide Low;
    if i < |bytes| - 1 {
      BitsOfByte(bytes[..|bytes| - 1], i, j);
    }
  }

  /** Messages with the same bits are the same. */
  lemma {:induction false} BitsDetermine(a: seq<Byte>, b: seq<Byte>)
    requires |a| == |b| && MessageBits(a) == MessageBits(b)
    ensures a == b
  {
    forall i | 0 <= i < |a|
      ensures a[i] == b[i]
    {
      forall j | 0 <= j < 8
        ensures Low(a[i], 8)[j] == Low(b[i], 8)[j]
      {
        BitsOfByte(a, i, j);
        BitsOfByte(b, i, j);
      }
      assert Low(a[i], 8) == Low(b[i], 8);
      WordSize();
      ValueOfLow(a[i], 8);
      ValueOfLow(b[i], 8);
    }
  }

  // ---- frames ---------------------------------------------------------------------

  function UartFrame(packet: Packet): seq<Byte>
    requires |packet.payload| <= MAX_PAYLOAD_LEN
  {
    Cobs.Encoded(EncodedPacket(packet)) + [UART_DELIMITER]
  }

  function FromCobs(error: Cobs.CobsError): WireError {
    match error
    case OutputTooSmall => OutputTooSmall
    case MalformedCobs => MalformedCobs
  }

  /** What the receiver makes of a frame when its decode buffer has `room` bytes. */
  function ParsedFrame(frame: seq<Byte>, room: nat): Result<Packet> {
    if frame == [] || frame[|frame| - 1] != UART_DELIMITER then Err(MissingUartDelimiter)
    else
      var text := frame[..|frame| - 1];
      if text == [] then Err(MalformedCobs)
      else
        match Cobs.DecodedWithin(text, room)
        case Bytes(bytes) => DecodedPacket(bytes)
        case Bad(error) => Err(FromCobs(error))
  }

  /** The room that the sender asks for before it frames a packet. */
  function FrameRoom(packet: Packet): nat
    requires |packet.payload| <= MAX_PAYLOAD_LEN
  {
    Cobs.MaxEncodedLen(|EncodedPacket(packet)|) + 1
  }

  /** Every packet fits the public buffer sizes as a frame, has its only zero at the end,
      and comes back. */
  lemma {:induction false} FrameRoundTrip(packet: Packet)
    requires |packet.payload| <= MAX_PAYLOAD_LEN
    ensures |UartFrame(packet)| <= FrameRoom(packet) <= MAX_UART_FRAME_LEN
    ensures Cobs.NoZeros(UartFrame(packet)[..|UartFrame(packet)| - 1]) && |UartFrame(packet)| > 1
    ensures ParsedFrame(UartFrame(packet), MAX_PACKET_LEN) == Ok(packet)
  {
    hide EncodedPacket, DecodedPacket, Cobs.Encoded, Cobs.Decoded, Cobs.DecodedWithin, Cobs.NoZeros;
    var bytes := EncodedPacket(packet);
    var text := Cobs.Encoded(bytes);
    assert UartFrame(packet)[..|UartFrame(packet)| - 1] == text;
    Cobs.EncodedLength(bytes);
    Cobs.EncodedHasNoZeros(bytes);
    Cobs.RoundTrip(bytes);
    Cobs.DecodingMeaning(text, MAX_PACKET_LEN);
    PacketRoundTrip(packet);
  }

  // ---- the programs ---------------------------------------------------------------

  method EncodePacket(packet: Packet, output: array<Byte>) returns (r: Result<nat>)
    modifies output
    ensures |packet.payload| > MAX_PAYLOAD_LEN ==> r == Err(PayloadTooLarge)
    ensures |packet.payload| <= MAX_PAYLOAD_LEN ==>
              if output.Length < |EncodedPacket(packet)| then r == Err(OutputTooSmall)
              else r == Ok(|EncodedPacket(packet)|) && output[..r.value] == EncodedPacket(packet)
  {
    hide Checksum, Le16, Le32;
    if |packet.payload| > MAX_PAYLOAD_LEN || |packet.payload| > 0xffff {
      return Err(PayloadTooLarge);
    }
    var packetLen := HEADER_LEN + |packet.payload| + CRC_LEN;
    if output.Length < packetLen {
      return Err(OutputTooSmall);
    }
    output[0] := PROTOCOL_VERSION;
    output[1] := KindByte(packet.kind);
    var opcode, id, len := Le16(packet.opcode), Le32(packet.requestId), Le16(|packet.payload|);
    output[2], output[3] := opcode[0], opcode[1];
    output[4], output[5], output[6], output[7] := id[0], id[1], id[2], id[3];
    output[8], output[9] := len[0], len[1];
    assert output[..HEADER_LEN] == Header(packet);
    Cobs.CopyBlock(packet.payload, 0, output, HEADER_LEN, |packet.payload|);
    assert packet.payload[0..0 + |packet.payload|] == packet.payload;
    var crcOffset := HEADER_LEN + |packet.payload|;
    assert output[..crcOffset] == Body(packet);
    var crc := Crc16(output[..crcOffset]);
    var stored := Le16(crc);
    output[crcOffset], output[crcOffset + 1] := stored[0], stored[1];
    assert output[..packetLen] == output[..crcOffset] + stored;
    assert output[..crcOffset] == Body(packet);
    r := Ok(packetLen);
  }

  method FrameUart(packet: Packet, scratch: array<Byte>, output: array<Byte>) returns (r: Result<nat>)
    requires scratch != output
    modifies scratch, output
    ensures |packet.payload| > MAX_PAYLOAD_LEN ==> r == Err(PayloadTooLarge)
    ensures |packet.payload| <= MAX_PAYLOAD_LEN ==>
              if scratch.Length < |EncodedPacket(packet)| || output.Length < FrameRoom(packet) then r == Err(OutputTooSmall)
              else r == Ok(|UartFrame(packet)|) && |UartFrame(packet)| <= output.Length && output[..r.value] == UartFrame(packet)
  {
    hide EncodedPacket, Cobs.Encoded, Cobs.MaxEncodedLen;
    var packetLen := EncodePacket(packet, scratch);
    if packetLen.Err? {
      return packetLen;
    }
    var encodedMax := Cobs.MaxEncodedLen(packetLen.value);
    if output.Length < encodedMax + 1 {
      return Err(OutputTooSmall);
    }
    Cobs.EncodedLength(scratch[..packetLen.value]);
    var encoded := Cobs.Encode(scratch[..packetLen.value], output);
    var encodedLen := encoded.length;
    output[encodedLen] := UART_DELIMITER;
    assert output[..encodedLen + 1] == output[..encodedLen] + [UART_DELIMITER];
    r := Ok(encodedLen + 1);
  }

  method ParseUartFrame(frame: seq<Byte>, decoded: array<Byte>) returns (r: Result<Packet>)
    modifies decoded
    ensures r == ParsedFrame(frame, decoded.Length)
  {
    hide DecodedPacket, Cobs.DecodedWithin;
    if frame == [] || frame[|frame| - 1] != UART_DELIMITER {
      return Err(MissingUartDelimiter);
    }
    var text := frame[..|frame| - 1];
    var decodedLen := Cobs.Decode(text, decoded);
    if decodedLen.Failed? {
      return Err(FromCobs(decodedLen.error));
    }
    r := DecodedPacket(decoded[..decodedLen.length]);
  }

  /** The public buffers are large enough for every packet: framing never fails. */
  method FramePublicSizes(packet: Packet) returns (frame: seq<Byte>)
    requires |packet.payload| <= MAX_PAYLOAD_LEN
    ensures frame == UartFrame(packet) && ParsedFrame(frame, MAX_PACKET_LEN) == Ok(packet)
  {
    var scratch := new Byte[MAX_PACKET_LEN];
    var output := new Byte[MAX_UART_FRAME_LEN];
    FrameRoundTrip(packet);
    var r := FrameUart(packet, scratch, output);
    frame := output[..r.value];
  }
}
