/** Consistent Overhead Byte Stuffing (Cheshire and Baker): any bytes, without zeros, cut
    into blocks whose code says where the next zero was. */
module Cobs {
  import opened Bits
  import opened Options

  const FULL := 0xff
  const LONGEST := 254

  datatype CobsError = OutputTooSmall | MalformedCobs

  datatype Written = Written(length: nat) | Failed(error: CobsError)

  function MaxEncodedLen(inputLen: nat): nat {
    inputLen + inputLen / LONGEST + 1
  }

  // ---- what the encoding is -------------------------------------------------------

  predicate NoZeros(s: seq<Byte>) {
    forall i :: 0 <= i < |s| ==> s[i] != 0
  }

  /** Length of the leading run without zeros, at most a given limit. */
  function Run(input: seq<Byte>, limit: nat): (r: nat)
    ensures r <= |input| && r <= limit && NoZeros(input[..r])
    ensures r < limit && r < |input| ==> input[r] == 0
    decreases limit
  {
    if limit == 0 || input == [] || input[0] == 0 then 0
    else
      var rest := Run(input[1..], limit - 1);
      assert input[..1 + rest] == [input[0]] + input[1..][..rest];
      1 + rest
  }

  /** One block: its code counts itself and the bytes that follow. */
  function Block(data: seq<Byte>): (r: seq<Byte>)
    requires |data| <= LONGEST
    ensures |r| == |data| + 1
  {
    var code: Byte := |data| + 1;
    [code] + data
  }

  /** The encoding: a full block stands for its bytes alone, any other block for its bytes
      and a zero, except the last one. */
  function Encoded(input: seq<Byte>): seq<Byte>
    decreases |input|
  {
    var n := Run(input, LONGEST);
    if n == LONGEST then Block(input[..n]) + Encoded(input[n..])
    else if n == |input| then Block(input)
    else Block(input[..n]) + Encoded(input[n + 1..])
  }

  /** What an encoded text stands for, if it is well formed. */
  function Decoded(text: seq<Byte>): Option<seq<Byte>>
    decreases |text|
  {
    if text == [] then Some([])
    else if text[0] == 0 || text[0] > |text| then None
    else
      var n := text[0];
      var rest := Decoded(text[n..]);
      if rest.None? then None
      else Some(text[1..n] + (if n != FULL && n < |text| then [0] else []) + rest.value)
  }

  // ---- properties of the encoding -------------------------------------------------

  lemma {:induction false} RunStops(data: seq<Byte>, tail: seq<Byte>, limit: nat)
    requires NoZeros(data) && |data| <= limit
    requires |data| == limit || tail == [] || tail[0] == 0
    ensures Run(data + tail, limit) == |data|
    decreases limit
  {
    if data == [] {
      assert data + tail == tail;
    } else {
      assert (data + tail)[1..] == data[1..] + tail;
      RunStops(data[1..], tail, limit - 1);
    }
  }

  /** An open block that is closed by a zero, by being full, or by the end of the input. */
  lemma {:induction false} ClosedByZero(data: seq<Byte>, rest: seq<Byte>)
    requires NoZeros(data) && |data| < LONGEST
    ensures Encoded(data + [0] + rest) == Block(data) + Encoded(rest)
  {
    var input := data + [0] + rest;
    assert input == data + ([0] + rest);
    RunStops(data, [0] + rest, LONGEST);
    assert input[..|data|] == data && input[|data| + 1..] == rest;
  }

  lemma {:induction false} ClosedByLength(data: seq<Byte>, rest: seq<Byte>)
    requires NoZeros(data) && |data| == LONGEST
    ensures Encoded(data + rest) == Block(data) + Encoded(rest)
  {
    RunStops(data, rest, LONGEST);
    assert (data + rest)[..LONGEST] == data && (data + rest)[LONGEST..] == rest;
  }

  lemma {:induction false} ClosedByEnd(data: seq<Byte>)
    requires NoZeros(data) && |data| < LONGEST
    ensures Encoded(data) == Block(data)
  {
    assert data + [] == data;
    RunStops(data, [], LONGEST);
  }

  lemma {:induction false} BlocksHaveNoZeros(data: seq<Byte>, rest: seq<Byte>)
    requires NoZeros(data) && |data| <= LONGEST && NoZeros(rest)
    ensures NoZeros(Block(data) + rest)
  {
  }

  lemma {:induction false} NothingHasNoZeros()
    ensures NoZeros([])
  {
  }

  /** Encoded text has no zero byte. */
  lemma {:induction false} EncodedHasNoZeros(input: seq<Byte>)
    ensures NoZeros(Encoded(input))
    decreases |input|
  {
    hide Run, Block, NoZeros;
    var n := Run(input, LONGEST);
    if n == LONGEST {
      EncodedHasNoZeros(input[n..]);
      BlocksHaveNoZeros(input[..n], Encoded(input[n..]));
    } else if n == |input| {
      assert input[..n] == input && Block(input) + [] == Block(input);
      NothingHasNoZeros();
      BlocksHaveNoZeros(input, []);
    } else {
      EncodedHasNoZeros(input[n + 1..]);
      BlocksHaveNoZeros(input[..n], Encoded(input[n + 1..]));
    }
  }

  /** The overhead is at least one byte and at most one for every 254 and one more. */
  lemma {:induction false} EncodedLength(input: seq<Byte>)
    ensures |input| < |Encoded(input)| <= MaxEncodedLen(|input|)
    decreases |input|
  {
    hide Run;
    var n := Run(input, LONGEST);
    if n == LONGEST {
      EncodedLength(input[n..]);
      assert |Encoded(input)| == LONGEST + 1 + |Encoded(input[n..])|;
    } else if n == |input| {
      assert |Encoded(input)| == n + 1;
    } else {
      EncodedLength(input[n + 1..]);
      assert |Encoded(input)| == n + 1 + |Encoded(input[n + 1..])|;
    }
  }

  /** Decoding a block in front of a text. */
  lemma {:induction false} DecodedBlock(data: seq<Byte>, text: seq<Byte>)
    requires |data| <= LONGEST && Decoded(text).Some?
    ensures Decoded(Block(data) + text)
         == Some(data + (if |data| < LONGEST && text != [] then [0] else []) + Decoded(text).value)
  {
    var whole := Block(data) + text;
    assert whole[0] == |data| + 1 && whole[1..|data| + 1] == data && whole[|data| + 1..] == text;
  }

  lemma {:induction false} DecodedAlone(data: seq<Byte>)
    requires |data| <= LONGEST
    ensures Decoded(Block(data)) == Some(data)
  {
    DecodedBlock(data, []);
    assert Block(data) + [] == Block(data) && data + [] + [] == data;
  }

  /** Decoding undoes encoding. */
  lemma {:induction false} RoundTrip(input: seq<Byte>)
    ensures Decoded(Encoded(input)) == Some(input)
    decreases |input|
  {
    hide Decoded, Block, Run;
    var n := Run(input, LONGEST);
    if n == LONGEST {
      RoundTrip(input[n..]);
      DecodedBlock(input[..n], Encoded(input[n..]));
      assert input == input[..n] + [] + input[n..];
    } else if n == |input| {
      DecodedAlone(input);
    } else {
      RoundTrip(input[n + 1..]);
      EncodedLength(input[n + 1..]);
      DecodedBlock(input[..n], Encoded(input[n + 1..]));
      assert input == input[..n] + [0] + input[n + 1..];
    }
  }

  /** A text whose last block is full. */
  predicate EndsFull(text: seq<Byte>)
    decreases |text|
  {
    text != [] && 0 < text[0] <= |text|
    && (if text[0] == |text| then text[0] == FULL else EndsFull(text[text[0]..]))
  }

  lemma {:induction false} EncodedNeverEndsFull(input: seq<Byte>)
    ensures !EndsFull(Encoded(input))
    decreases |input|
  {
    var n := Run(input, LONGEST);
    if n == LONGEST {
      var rest := Encoded(input[n..]);
      EncodedNeverEndsFull(input[n..]);
      EncodedLength(input[n..]);
      assert (Block(input[..n]) + rest)[n + 1..] == rest;
    } else if n < |input| {
      var rest := Encoded(input[n + 1..]);
      EncodedNeverEndsFull(input[n + 1..]);
      EncodedLength(input[n + 1..]);
      assert (Block(input[..n]) + rest)[n + 1..] == rest;
    }
  }

  /** The decoder accepts texts that the encoder never writes. Encoding what it decoded
      gives the text back exactly when the text has no zero and its last block is not full. */
  lemma {:induction false} CanonicalTexts(text: seq<Byte>)
    requires text != [] && Decoded(text).Some?
    ensures Encoded(Decoded(text).value) == text <==> NoZeros(text) && !EndsFull(text)
  {
    var input := Decoded(text).value;
    if NoZeros(text) && !EndsFull(text) {
      CanonicalReencodes(text);
    } else if Encoded(input) == text {
      EncodedHasNoZeros(input);
      EncodedNeverEndsFull(input);
    }
  }

  lemma {:induction false} CanonicalReencodes(text: seq<Byte>)
    requires text != [] && Decoded(text).Some? && NoZeros(text) && !EndsFull(text)
    ensures Encoded(Decoded(text).value) == text
    decreases |text|
  {
    hide Encoded;
    var n := text[0];
    var data, rest := text[1..n], text[n..];
    assert text == Block(data) + rest;
    assert NoZeros(data) && NoZeros(rest);
    if n == |text| {
      assert data + [] + [] == data && Block(data) + [] == Block(data);
      ClosedByEnd(data);
    } else {
      CanonicalReencodes(rest);
      if n == FULL {
        assert data + [] + Decoded(rest).value == data + Decoded(rest).value;
        ClosedByLength(data, Decoded(rest).value);
      } else {
        ClosedByZero(data, Decoded(rest).value);
      }
    }
  }

  /** Such texts exist, of both kinds. */
  lemma {:induction false} NonCanonicalTexts(data: seq<Byte>)
    requires NoZeros(data) && |data| == LONGEST
    ensures Decoded(Block(data)) == Some(data) && Encoded(data) != Block(data)
    ensures Decoded([3, 0, 5]) == Some([0, 5]) && Encoded([0, 5]) != [3, 0, 5]
  {
    DecodedAlone(data);
    EncodedNeverEndsFull(data);
    assert EndsFull(Block(data));
    DecodedAlone([0, 5]);
    assert Block([0, 5]) == [3, 0, 5];
    EncodedHasNoZeros([0, 5]);
    assert [3, 0, 5][1] == 0;
  }

  // ---- the program ----------------------------------------------------------------

  /** The bytes written so far and the open block account for the input read so far. */
  ghost predicate Accounts(input: seq<Byte>, read: nat, done: seq<Byte>, open: seq<Byte>)
    requires read <= |input|
  {
    NoZeros(open) && |open| < LONGEST && done + Encoded(open + input[read..]) == Encoded(input)
  }

  lemma {:induction false} AccountsFirst(input: seq<Byte>)
    ensures Accounts(input, 0, [], []) && 0 < |Encoded(input)| <= MaxEncodedLen(|input|)
  {
    EncodedLength(input);
    assert [] + input[0..] == input && [] + Encoded(input) == Encoded(input);
  }

  lemma {:induction false} AccountsZero(input: seq<Byte>, read: nat, done: seq<Byte>, open: seq<Byte>)
    requires read < |input| && input[read] == 0 && Accounts(input, read, done, open)
    ensures Accounts(input, read + 1, done + Block(open), [])
    ensures |done| + |open| + 1 < |Encoded(input)|
  {
    hide Encoded;
    var rest := input[read + 1..];
    assert open + input[read..] == open + [0] + rest && [] + rest == rest;
    ClosedByZero(open, rest);
    EncodedLength(rest);
    assert done + (Block(open) + Encoded(rest)) == (done + Block(open)) + Encoded(rest);
  }

  lemma {:induction false} AccountsByte(input: seq<Byte>, read: nat, done: seq<Byte>, open: seq<Byte>)
    requires read < |input| && input[read] != 0 && Accounts(input, read, done, open)
    ensures var grown := open + [input[read]];
            if |grown| < LONGEST then Accounts(input, read + 1, done, grown)
            else Accounts(input, read + 1, done + Block(grown), []) && |done| + |grown| + 1 < |Encoded(input)|
    ensures |done| + |open| + 1 < |Encoded(input)|
  {
    hide Encoded;
    var rest, grown := input[read + 1..], open + [input[read]];
    assert open + input[read..] == grown + rest;
    EncodedLength(grown + rest);
    if |grown| == LONGEST {
      ClosedByLength(grown, rest);
      EncodedLength(rest);
      assert [] + rest == rest;
      assert done + (Block(grown) + Encoded(rest)) == (done + Block(grown)) + Encoded(rest);
    }
  }

  lemma {:induction false} AccountsEnd(input: seq<Byte>, done: seq<Byte>, open: seq<Byte>)
    requires Accounts(input, |input|, done, open)
    ensures done + Block(open) == Encoded(input)
  {
    assert open + input[|input|..] == open;
    ClosedByEnd(open);
  }

  /** Adds a byte to the open block. */
  method PutByte(output: array<Byte>, ghost codeIndex: nat, write: nat, b: Byte, ghost done: seq<Byte>, ghost open: seq<Byte>)
    requires codeIndex < write < output.Length && output[..codeIndex] == done && output[codeIndex + 1..write] == open
    modifies output
    ensures output[..codeIndex] == done && output[codeIndex + 1..write + 1] == open + [b]
  {
    output[write] := b;
  }

  /** Writes the code of the open block into the byte reserved for it. */
  method CloseBlock(output: array<Byte>, codeIndex: nat, code: Byte, ghost write: nat, ghost done: seq<Byte>, ghost open: seq<Byte>)
    requires 0 < code == |open| + 1 && write == codeIndex + code <= output.Length
    requires output[..codeIndex] == done && output[codeIndex + 1..write] == open
    modifies output
    ensures output[..write] == done + Block(open)
  {
    output[codeIndex] := code;
    BlockWritten(output[..], codeIndex, write, done, open);
  }

  /** The encoder reserves a code byte, fills the block behind it, and writes the code when
      the block is closed. */
  method Encode(input: seq<Byte>, output: array<Byte>) returns (r: Written)
    modifies output
    ensures output.Length < MaxEncodedLen(|input|) ==> r == Failed(OutputTooSmall) && output[..] == old(output[..])
    ensures output.Length >= MaxEncodedLen(|input|) ==>
              r.Written? && r.length <= output.Length && output[..r.length] == Encoded(input)
  {
    hide Encoded, MaxEncodedLen, Accounts, Block, NoZeros, Run;
    if output.Length < MaxEncodedLen(|input|) {
      return Failed(OutputTooSmall);
    }
    AccountsFirst(input);
    ghost var done, open := [], [];
    var read: nat, write: nat, codeIndex: nat, code: Byte := 0, 1, 0, 1;
    while read < |input|
      invariant read <= |input| && Accounts(input, read, done, open)
      invariant |open| == code - 1 < LONGEST && write == codeIndex + code <= output.Length
      invariant output[..codeIndex] == done && output[codeIndex + 1..write] == open
    {
      if input[read] == 0 {
        AccountsZero(input, read, done, open);
        CloseBlock(output, codeIndex, code, write, done, open);
        done, open := done + Block(open), [];
        codeIndex, code := write, 1;
        write := write + 1;
      } else {
        AccountsByte(input, read, done, open);
        PutByte(output, codeIndex, write, input[read], done, open);
        open := open + [input[read]];
        write := write + 1;
        code := code + 1;
        if code == FULL {
          CloseBlock(output, codeIndex, code, write, done, open);
          done, open := done + Block(open), [];
          codeIndex, code := write, 1;
          write := write + 1;
          }
      }
      read := read + 1;
    }
    AccountsEnd(input, done, open);
    CloseBlock(output, codeIndex, code, write, done, open);
    r := Written(write);
  }

  lemma {:induction false} BlockWritten(bytes: seq<Byte>, from: nat, to: nat, done: seq<Byte>, open: seq<Byte>)
    requires from < to <= |bytes| && |open| < FULL && bytes[from] == |open| + 1
    requires bytes[..from] == done && bytes[from + 1..to] == open
    ensures bytes[..to] == done + Block(open)
  {
    assert bytes[..to] == bytes[..from] + [bytes[from]] + bytes[from + 1..to];
  }

  /** What the decoder makes of a text when it may write `room` bytes. */
  datatype Decoding = Bytes(bytes: seq<Byte>) | Bad(error: CobsError)

  function Gap(text: seq<Byte>): seq<Byte>
    requires text != []
  {
    if text[0] != FULL && text[0] < |text| then [0] else []
  }

  function DecodedWithin(text: seq<Byte>, room: nat): Decoding
    decreases |text|
  {
    if text == [] then Bytes([])
    else if text[0] == 0 || text[0] > |text| then Bad(MalformedCobs)
    else
      var head := text[1..text[0]] + Gap(text);
      if |head| > room then Bad(OutputTooSmall)
      else
        var rest := DecodedWithin(text[text[0]..], room - |head|);
        if rest.Bad? then rest else Bytes(head + rest.bytes)
  }

  /** The decoder's answer in terms of the text alone. */
  lemma {:induction false} DecodingMeaning(text: seq<Byte>, room: nat)
    ensures DecodedWithin(text, room).Bytes? <==> Decoded(text).Some? && |Decoded(text).value| <= room
    ensures DecodedWithin(text, room).Bytes? ==> Decoded(text) == Some(DecodedWithin(text, room).bytes)
    ensures DecodedWithin(text, room) == Bad(MalformedCobs) ==> Decoded(text).None?
    ensures |text| <= room + 1 ==> DecodedWithin(text, room) != Bad(OutputTooSmall)
    decreases |text|
  {
    if text != [] && 0 < text[0] <= |text| {
      var head := text[1..text[0]] + Gap(text);
      if |head| <= room {
        DecodingMeaning(text[text[0]..], room - |head|);
      }
    }
  }

  function Prepend(front: seq<Byte>, rest: Decoding): Decoding {
    if rest.Bad? then rest else Bytes(front + rest.bytes)
  }

  lemma {:induction false} PrependNothing(rest: Decoding)
    ensures Prepend([], rest) == rest
  {
    if rest.Bytes? {
      assert [] + rest.bytes == rest.bytes;
    }
  }

  /** One block of a text. */
  lemma {:induction false} DecodedStep(text: seq<Byte>, room: nat, before: seq<Byte>)
    requires text != []
    ensures text[0] == 0 || text[0] > |text| ==> DecodedWithin(text, room) == Bad(MalformedCobs)
    ensures 0 < text[0] <= |text| ==>
              var head := text[1..text[0]] + Gap(text);
              if |head| > room then DecodedWithin(text, room) == Bad(OutputTooSmall)
              else Prepend(before, DecodedWithin(text, room))
                   == Prepend(before + head, DecodedWithin(text[text[0]..], room - |head|))
  {
    if 0 < text[0] <= |text| {
      var head := text[1..text[0]] + Gap(text);
      if |head| <= room && DecodedWithin(text[text[0]..], room - |head|).Bytes? {
        var rest := DecodedWithin(text[text[0]..], room - |head|).bytes;
        assert before + (head + rest) == before + head + rest;
      }
    }
  }

  method CopyBlock(input: seq<Byte>, read: nat, output: array<Byte>, write: nat, n: nat)
    requires read + n <= |input| && write + n <= output.Length
    modifies output
    ensures output[..write + n] == old(output[..write]) + input[read..read + n]
  {
    for k := 0 to n
      invariant forall j :: 0 <= j < write ==> output[j] == old(output[j])
      invariant forall j :: write <= j < write + k ==> output[j] == input[read + j - write]
    {
      output[write + k] := input[read + k];
    }
    assert output[..write] == old(output[..write]) && output[write..write + n] == input[read..read + n];
    assert output[..write + n] == output[..write] + output[write..write + n];
  }

  /** The decoder copies block after block and stays within both buffers on any input. */
  method Decode(input: seq<Byte>, output: array<Byte>) returns (r: Written)
    modifies output
    ensures input == [] ==> r == Failed(MalformedCobs)
    ensures input != [] ==>
              match DecodedWithin(input, output.Length)
              case Bytes(bytes) => r == Written(|bytes|) && |bytes| <= output.Length && output[..|bytes|] == bytes
              case Bad(error) => r == Failed(error)
  {
    hide DecodedWithin;
    if input == [] {
      return Failed(MalformedCobs);
    }
    var read: nat, write: nat := 0, 0;
    assert input[0..] == input;
    PrependNothing(DecodedWithin(input, output.Length));
    while read < |input|
      invariant read <= |input| && write <= output.Length
      invariant DecodedWithin(input, output.Length)
             == Prepend(output[..write], DecodedWithin(input[read..], output.Length - write))
    {
      ghost var before, text := output[..write], input[read..];
      DecodedStep(text, output.Length - write, before);
      var code := input[read];
      if code == 0 {
        return Failed(MalformedCobs);
      }
      read := read + 1;
      var blockLen := code - 1;
      if read + blockLen > |input| || write + blockLen > output.Length {
        return Failed(if read + blockLen > |input| then MalformedCobs else OutputTooSmall);
      }
      CopyBlock(input, read, output, write, blockLen);
      assert text[1..code] == input[read..read + blockLen];
      read := read + blockLen;
      write := write + blockLen;
      assert text[code..] == input[read..];
      if code != FULL && read < |input| {
        if write == output.Length {
          return Failed(OutputTooSmall);
        }
        output[write] := 0;
        write := write + 1;
      }
      assert output[..write] == before + (text[1..code] + Gap(text));
    }
    DecodedNothing(output.Length - write);
    assert input[read..] == [] && output[..write] + [] == output[..write];
    r := Written(write);
  }

  lemma {:induction false} DecodedNothing(room: nat)
    ensures DecodedWithin([], room) == Bytes([])
  {
  }
}
