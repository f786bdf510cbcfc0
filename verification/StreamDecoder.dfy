/** Recovering frames from a byte stream, as the robot daemon and the gateway do it. */
module StreamDecoder {
  import opened Bits
  import opened Options
  import opened Wire
  import Cobs

  /** What one delimiter can bring: a packet, a rejected frame, or too much data. */
  datatype Received = Received(packet: Packet) | Rejected(error: WireError) | FrameTooLong

  const LONGEST_TEXT := MAX_UART_FRAME_LEN - 1

  // ---- the reference: cut the stream at zeros -------------------------------------

  /** What becomes of the bytes between two delimiters. */
  function Report(text: seq<Byte>): seq<Received> {
    if text == [] then []
    else if |text| > LONGEST_TEXT then [FrameTooLong]
    else
      match ParsedFrame(text + [UART_DELIMITER], MAX_PACKET_LEN)
      case Ok(packet) => [Received(packet)]
      case Err(error) => [Rejected(error)]
  }

  /** The bytes after the last delimiter. */
  function Unfinished(stream: seq<Byte>): seq<Byte> {
    if stream == [] || stream[|stream| - 1] == UART_DELIMITER then []
    else Unfinished(stream[..|stream| - 1]) + [stream[|stream| - 1]]
  }

  /** Everything that a stream brings, delimiter by delimiter. */
  function Reports(stream: seq<Byte>): seq<Received> {
    if stream == [] then []
    else
      var before := stream[..|stream| - 1];
      if stream[|stream| - 1] == UART_DELIMITER then Reports(before) + Report(Unfinished(before)) else Reports(before)
  }

  // ---- the program ----------------------------------------------------------------

  class UartStreamDecoder {
    const encoded: array<Byte>
    const decoded: array<Byte>
    var encodedLen: nat
    var overflowed: bool

    ghost predicate Valid()
      reads this
    {
      encoded != decoded && encoded.Length == MAX_UART_FRAME_LEN && decoded.Length == MAX_PACKET_LEN
      && encodedLen <= LONGEST_TEXT && (overflowed ==> encodedLen == LONGEST_TEXT)
    }

    /** The bytes seen since the last delimiter, as far as the decoder knows them. */
    ghost predicate Holds(text: seq<Byte>)
      reads this, encoded
      requires Valid()
    {
      if overflowed then |text| > LONGEST_TEXT else text == encoded[..encodedLen]
    }

    constructor ()
      ensures Valid() && Holds([]) && fresh(encoded) && fresh(decoded)
    {
      encoded := new Byte[MAX_UART_FRAME_LEN](_ => 0);
      decoded := new Byte[MAX_PACKET_LEN](_ => 0);
      encodedLen := 0;
      overflowed := false;
    }

    /** One byte in; a result exactly when it ends a non-empty piece of the stream. */
    method Push(byte: Byte, ghost text: seq<Byte>) returns (r: Option<Received>)
      requires Valid() && Holds(text)
      modifies this, encoded, decoded
      ensures Valid()
      ensures byte != UART_DELIMITER ==> r == None && Holds(text + [byte])
      ensures byte == UART_DELIMITER ==> Holds([]) && (if r.Some? then [r.value] else []) == Report(text)
    {
      hide ParsedFrame;
      if byte != UART_DELIMITER {
        if overflowed {
          return None;
        }
        if encodedLen >= MAX_UART_FRAME_LEN - 1 {
          overflowed := true;
          return None;
        }
        encoded[encodedLen] := byte;
        encodedLen := encodedLen + 1;
        assert encoded[..encodedLen] == text + [byte];
        return None;
      }
      if overflowed {
        ResetFrame();
        return Some(FrameTooLong);
      }
      if encodedLen == 0 {
        return None;
      }
      encoded[encodedLen] := UART_DELIMITER;
      var frameLen := encodedLen + 1;
      assert encoded[..frameLen] == text + [UART_DELIMITER];
      var parsed := ParseUartFrame(encoded[..frameLen], decoded);
      ResetFrame();
      r := Some(match parsed
                case Ok(packet) => Received(packet)
                case Err(error) => Rejected(error));
    }

    method ResetFrame()
      requires encoded != decoded && encoded.Length == MAX_UART_FRAME_LEN && decoded.Length == MAX_PACKET_LEN
      modifies this
      ensures Valid() && Holds([])
    {
      encodedLen := 0;
      overflowed := false;
    }

    /** Any number of bytes: the results are those of cutting the stream at its zeros. */
    method PushAll(stream: seq<Byte>, ghost seen: seq<Byte>) returns (r: seq<Received>)
      requires Valid() && Holds(Unfinished(seen))
      modifies this, encoded, decoded
      ensures Valid() && Holds(Unfinished(seen + stream))
      ensures Reports(seen + stream) == Reports(seen) + r
    {
      hide ParsedFrame, Report, Unfinished, Reports;
      r := [];
      assert seen + stream[..0] == seen;
      for i := 0 to |stream|
        invariant Valid() && Holds(Unfinished(seen + stream[..i]))
        invariant Reports(seen + stream[..i]) == Reports(seen) + r
      {
        ghost var before := seen + stream[..i];
        assert seen + stream[..i + 1] == before + [stream[i]];
        StreamGrows(before, stream[i]);
        var result := Push(stream[i], Unfinished(before));
        ghost var sofar := r;
        r := r + if result.Some? then [result.value] else [];
        assert Reports(seen) + r == Reports(seen) + sofar + if result.Some? then [result.value] else [];
      }
      assert stream[..|stream|] == stream;
    }
  }

  lemma {:induction false} StreamGrows(stream: seq<Byte>, byte: Byte)
    ensures byte == UART_DELIMITER ==>
              Unfinished(stream + [byte]) == [] && Reports(stream + [byte]) == Reports(stream) + Report(Unfinished(stream))
    ensures byte != UART_DELIMITER ==>
              Unfinished(stream + [byte]) == Unfinished(stream) + [byte] && Reports(stream + [byte]) == Reports(stream)
  {
    assert (stream + [byte])[..|stream + [byte]| - 1] == stream;
  }

  // ---- resynchronisation ----------------------------------------------------------

  /** Bytes without a delimiter only accumulate. */
  lemma {:induction false} TextAccumulates(stream: seq<Byte>, text: seq<Byte>)
    requires Cobs.NoZeros(text)
    ensures Unfinished(stream + text) == Unfinished(stream) + text && Reports(stream + text) == Reports(stream)
    decreases |text|
  {
    if text == [] {
      assert stream + text == stream;
    } else {
      var n := |text| - 1;
      assert stream + text == stream + text[..n] + [text[n]];
      TextAccumulates(stream, text[..n]);
      StreamGrows(stream + text[..n], text[n]);
    }
  }

  /** Where no piece is unfinished, a frame brings exactly its packet. */
  lemma {:induction false} FrameArrives(stream: seq<Byte>, packet: Packet)
    requires Unfinished(stream) == [] && |packet.payload| <= MAX_PAYLOAD_LEN
    ensures Unfinished(stream + UartFrame(packet)) == []
    ensures Reports(stream + UartFrame(packet)) == Reports(stream) + [Received(packet)]
  {
    hide UartFrame, ParsedFrame, Cobs.NoZeros, Unfinished, Reports;
    var frame := UartFrame(packet);
    FrameRoundTrip(packet);
    FrameEndsInZero(packet);
    var text := frame[..|frame| - 1];
    assert text + [UART_DELIMITER] == frame;
    TextAccumulates(stream, text);
    StreamGrows(stream + text, UART_DELIMITER);
    assert stream + text + [UART_DELIMITER] == stream + frame;
    assert [] + text == text;
  }

  lemma {:induction false} FrameEndsInZero(packet: Packet)
    requires |packet.payload| <= MAX_PAYLOAD_LEN
    ensures UartFrame(packet) != [] && UartFrame(packet)[|UartFrame(packet)| - 1] == UART_DELIMITER
  {
  }

  predicate AllFit(packets: seq<Packet>) {
    forall i :: 0 <= i < |packets| ==> |packets[i].payload| <= MAX_PAYLOAD_LEN
  }

  function Frames(packets: seq<Packet>): seq<Byte>
    requires AllFit(packets)
  {
    if packets == [] then [] else Frames(packets[..|packets| - 1]) + UartFrame(packets[|packets| - 1])
  }

  function AsReceived(packets: seq<Packet>): seq<Received> {
    seq(|packets|, i requires 0 <= i < |packets| => Received(packets[i]))
  }

  /** After any bytes that end in a delimiter, every list of packets comes through exactly. */
  lemma {:induction false} ResumesAfterGarbage(garbage: seq<Byte>, packets: seq<Packet>)
    requires garbage == [] || garbage[|garbage| - 1] == UART_DELIMITER
    requires AllFit(packets)
    ensures Reports(garbage + Frames(packets)) == Reports(garbage) + AsReceived(packets)
    ensures Unfinished(garbage + Frames(packets)) == []
    decreases |packets|
  {
    hide UartFrame, Reports;
    if packets == [] {
      assert garbage + Frames(packets) == garbage && Reports(garbage) + AsReceived(packets) == Reports(garbage);
    } else {
      var n := |packets| - 1;
      ResumesAfterGarbage(garbage, packets[..n]);
      FrameArrives(garbage + Frames(packets[..n]), packets[n]);
      assert garbage + Frames(packets) == garbage + Frames(packets[..n]) + UartFrame(packets[n]);
      assert AsReceived(packets) == AsReceived(packets[..n]) + [Received(packets[n])];
      assert Reports(garbage) + AsReceived(packets) == Reports(garbage) + AsReceived(packets[..n]) + [Received(packets[n])];
    }
  }

  /** A delimiter that closes a piece which is not empty. */
  predicate Closes(stream: seq<Byte>, i: nat) {
    0 < i < |stream| && stream[i] == UART_DELIMITER && stream[i - 1] != UART_DELIMITER
  }

  function Closings(stream: seq<Byte>): set<nat> {
    set i: nat | i < |stream| && Closes(stream, i)
  }

  /** A stream brings exactly one result for each non-empty piece that a delimiter closes,
      however long or broken the piece is. */
  lemma {:induction false} OneReportPerPiece(stream: seq<Byte>)
    ensures |Reports(stream)| == |Closings(stream)|
    decreases |stream|
  {
    hide ParsedFrame;
    if stream != [] {
      var n: nat := |stream| - 1;
      var before := stream[..n];
      OneReportPerPiece(before);
      if n > 0 && stream[n] == UART_DELIMITER && stream[n - 1] != UART_DELIMITER {
        assert Closings(stream) == Closings(before) + {n};
        assert before[n - 1] != UART_DELIMITER && Unfinished(before) != [];
      } else {
        assert Closings(stream) == Closings(before);
      }
    } else {
      assert Closings(stream) == {};
    }
  }

  // ---- the gateway's copy ---------------------------------------------------------

  /** The gateway keeps packets as bytes: it encodes again what it has just decoded. The
      stored bytes are exactly the bytes that were on the wire. */
  lemma {:induction false} GatewayStoresWireBytes(text: seq<Byte>)
    requires Report(text) != [] && Report(text)[0].Received?
    ensures var packet := Report(text)[0].packet;
            && |packet.payload| <= MAX_PAYLOAD_LEN && DecodedPacket(EncodedPacket(packet)) == Ok(packet)
            && Cobs.DecodedWithin(text, MAX_PACKET_LEN) == Cobs.Bytes(EncodedPacket(packet))
  {
    hide DecodedPacket, EncodedPacket, Cobs.DecodedWithin;
    assert (text + [UART_DELIMITER])[..|text + [UART_DELIMITER]| - 1] == text;
    var bytes := Cobs.DecodedWithin(text, MAX_PACKET_LEN).bytes;
    AcceptedIsEncoding(bytes);
  }
}
