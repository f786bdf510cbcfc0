/** From bytes to packets: the gateway fed byte by byte runs exactly as if it were fed the
    packets of the two streams, so everything proved of its runs holds of its wires. */
module GatewayStreams {
  import opened Bits
  import opened Options
  import opened Wire
  import opened PacketQueue
  import G = Gateway
  import GR = GatewayRuns
  import GL = GatewayLink
  import SD = StreamDecoder

  /** What reaches the gateway from outside: bytes of either stream, a packet of the
      network, or something that is already an input of its core. */
  datatype Signal = UsbByte(byte: Byte) | DuoByte(byte: Byte) | NetworkBytes(bytes: seq<Byte>) | Otherwise(input: GR.Input)

  function UsbStream(signals: seq<Signal>): seq<Byte> {
    if signals == [] then []
    else
      var s := signals[|signals| - 1];
      UsbStream(signals[..|signals| - 1]) + if s.UsbByte? then [s.byte] else []
  }

  function DuoStream(signals: seq<Signal>): seq<Byte> {
    if signals == [] then []
    else
      var s := signals[|signals| - 1];
      DuoStream(signals[..|signals| - 1]) + if s.DuoByte? then [s.byte] else []
  }

  /** The packet that one more byte of a stream completes, if any. */
  function Completed(text: seq<Byte>, byte: Byte): (r: seq<Stored>)
    ensures |r| <= 1
  {
    if byte == UART_DELIMITER && SD.Report(text) != [] && SD.Report(text)[0].Received? then
      GL.ReportFits(text);
      [SD.Report(text)[0].packet]
    else []
  }

  /** What one signal means to the core, given the unfinished text of its stream. */
  function Meaning(usb: seq<Byte>, duo: seq<Byte>, signal: Signal): seq<GR.Input> {
    match signal
    case UsbByte(byte) =>
      var done := Completed(usb, byte);
      if done == [] then [] else [GR.FromUpstream(done[0], Usb)]
    case DuoByte(byte) =>
      var done := Completed(duo, byte);
      if done == [] then [] else [GR.FromDuo(done[0])]
    case NetworkBytes(bytes) =>
      if DecodedPacket(bytes).Err? then []
      else
        AcceptedIsEncoding(bytes);
        [GR.FromUpstream(DecodedPacket(bytes).value, Network)]
    case Otherwise(input) => [input]
  }

  /** The inputs of the core that a sequence of signals amounts to. */
  function Inputs(signals: seq<Signal>): seq<GR.Input> {
    if signals == [] then []
    else
      var before := signals[..|signals| - 1];
      Inputs(before) + Meaning(SD.Unfinished(UsbStream(before)), SD.Unfinished(DuoStream(before)), signals[|signals| - 1])
  }

  function FromUsb(inputs: seq<GR.Input>): seq<Packet> {
    if inputs == [] then []
    else
      var i := inputs[|inputs| - 1];
      FromUsb(inputs[..|inputs| - 1]) + if i.FromUpstream? && i.upstream == Usb then [i.packet] else []
  }

  function FromRobot(inputs: seq<GR.Input>): seq<Packet> {
    if inputs == [] then []
    else
      var i := inputs[|inputs| - 1];
      FromRobot(inputs[..|inputs| - 1]) + if i.FromDuo? then [i.packet] else []
  }

  function Packets(reports: seq<SD.Received>): seq<Packet> {
    if reports == [] then []
    else
      var r := reports[|reports| - 1];
      Packets(reports[..|reports| - 1]) + if r.Received? then [r.packet] else []
  }

  /** Only the two streams carry packets of the USB host and of the robot. */
  predicate WiresOnly(signals: seq<Signal>) {
    forall i :: 0 <= i < |signals| && signals[i].Otherwise? ==> !signals[i].input.FromUpstream? && !signals[i].input.FromDuo?
  }

  lemma {:induction false} LastInput(inputs: seq<GR.Input>, input: GR.Input)
    ensures FromUsb(inputs + [input]) == FromUsb(inputs) + if input.FromUpstream? && input.upstream == Usb then [input.packet] else []
    ensures FromRobot(inputs + [input]) == FromRobot(inputs) + if input.FromDuo? then [input.packet] else []
  {
    assert (inputs + [input])[..|inputs + [input]| - 1] == inputs;
  }

  lemma {:induction false} PacketsAppend(a: seq<SD.Received>, b: seq<SD.Received>)
    requires |b| <= 1
    ensures Packets(a + b) == Packets(a) + if b != [] && b[0].Received? then [b[0].packet] else []
  {
    if b == [] {
      assert a + b == a;
    } else {
      assert (a + b)[..|a + b| - 1] == a;
    }
  }

  /** One more byte adds to the packets of a stream what it completes. */
  lemma {:induction false} OneMoreByte(stream: seq<Byte>, byte: Byte)
    ensures Packets(SD.Reports(stream + [byte])) == Packets(SD.Reports(stream)) + Completed(SD.Unfinished(stream), byte)
  {
    hide SD.Report, SD.Reports, SD.Unfinished, Packets;
    SD.StreamGrows(stream, byte);
    if byte == UART_DELIMITER {
      var report := SD.Report(SD.Unfinished(stream));
      ReportIsOne(SD.Unfinished(stream));
      PacketsAppend(SD.Reports(stream), report);
    }
  }

  lemma {:induction false} ReportIsOne(text: seq<Byte>)
    ensures |SD.Report(text)| <= 1
  {
  }

  /** Whatever bytes arrive, interleaved in any way: the requests of the USB host are exactly
      the packets of its stream, and the packets of the robot those of the other. */
  lemma {:induction false} StreamsAreRouted(signals: seq<Signal>)
    requires WiresOnly(signals)
    ensures FromUsb(Inputs(signals)) == Packets(SD.Reports(UsbStream(signals)))
    ensures FromRobot(Inputs(signals)) == Packets(SD.Reports(DuoStream(signals)))
  {
    hide SD.Reports, SD.Unfinished, Packets, Completed, FromUsb, FromRobot, DecodedPacket;
    if signals == [] {
      NothingArrives();
    } else {
      var n := |signals| - 1;
      var before, s := signals[..n], signals[n];
      StreamsAreRouted(before);
      var meaning := Meaning(SD.Unfinished(UsbStream(before)), SD.Unfinished(DuoStream(before)), s);
      if s.UsbByte? {
        OneMoreByte(UsbStream(before), s.byte);
      } else if s.DuoByte? {
        OneMoreByte(DuoStream(before), s.byte);
      } else {
        assert UsbStream(signals) == UsbStream(before) && DuoStream(signals) == DuoStream(before);
      }
      assert UsbStream(before) + [] == UsbStream(before) && DuoStream(before) + [] == DuoStream(before);
      if meaning == [] {
        assert Inputs(signals) == Inputs(before);
      } else {
        assert meaning == [meaning[0]];
        LastInput(Inputs(before), meaning[0]);
      }
    }
  }

  lemma {:induction false} NothingArrives()
    ensures FromUsb([]) == [] && FromRobot([]) == [] && Packets(SD.Reports([])) == []
  {
  }

  /** A host that frames its requests, after any garbage that ends in a delimiter, has
      exactly them routed, whatever else arrives in between. */
  lemma {:induction false} FramedRequestsAreRouted(signals: seq<Signal>, garbage: seq<Byte>, requests: seq<Packet>)
    requires WiresOnly(signals) && SD.AllFit(requests)
    requires garbage == [] || garbage[|garbage| - 1] == UART_DELIMITER
    requires UsbStream(signals) == garbage + SD.Frames(requests)
    ensures FromUsb(Inputs(signals)) == Packets(SD.Reports(garbage)) + requests
  {
    hide SD.Reports, SD.Frames, FromUsb, Inputs, Packets;
    StreamsAreRouted(signals);
    SD.ResumesAfterGarbage(garbage, requests);
    PacketsOfReceived(SD.Reports(garbage), requests);
  }

  lemma {:induction false} PacketsOfReceived(reports: seq<SD.Received>, packets: seq<Packet>)
    ensures Packets(reports + SD.AsReceived(packets)) == Packets(reports) + packets
    decreases |packets|
  {
    if packets == [] {
      assert reports + SD.AsReceived(packets) == reports;
    } else {
      var n := |packets| - 1;
      PacketsOfReceived(reports, packets[..n]);
      assert reports + SD.AsReceived(packets) == reports + SD.AsReceived(packets[..n]) + [SD.Received(packets[n])];
      PacketsAppend(reports + SD.AsReceived(packets[..n]), [SD.Received(packets[n])]);
    }
  }

  /** What the host reads back: the frames of the packets it has collected, and nothing
      else. */
  lemma {:induction false} CollectedFramesDecode(inputs: seq<GR.Input>, upstream: Upstream)
    ensures var collected := GR.Collected(inputs, upstream);
            && SD.AllFit(collected) && SD.Reports(SD.Frames(collected)) == SD.AsReceived(collected)
            && collected <= GR.Deliveries(inputs, upstream)
  {
    hide SD.Reports;
    var collected := GR.Collected(inputs, upstream);
    SD.ResumesAfterGarbage([], collected);
    assert [] + SD.Frames(collected) == SD.Frames(collected);
    NothingArrivesYet();
    assert [] + SD.AsReceived(collected) == SD.AsReceived(collected);
    GR.DeliveredInOrder(inputs, upstream);
  }

  lemma {:induction false} NothingArrivesYet()
    ensures SD.Reports([]) == []
  {
  }

  // ---- the program ----------------------------------------------------------------

  /** The running gateway is where its signals have brought the core. */
  ghost predicate Tracks(link: GL.Link, signals: seq<Signal>)
    reads link, link.gateway, link.gateway.Footprint(), link.DecoderParts()
  {
    && link.Valid() && link.gateway.Value() == GR.Run(Inputs(signals))
    && link.usbDecoder.Holds(SD.Unfinished(UsbStream(signals)))
    && link.duoDecoder.Holds(SD.Unfinished(DuoStream(signals)))
  }

  lemma {:induction false} OneMoreSignal(signals: seq<Signal>, s: Signal)
    ensures UsbStream(signals + [s]) == UsbStream(signals) + if s.UsbByte? then [s.byte] else []
    ensures DuoStream(signals + [s]) == DuoStream(signals) + if s.DuoByte? then [s.byte] else []
    ensures var meaning := Meaning(SD.Unfinished(UsbStream(signals)), SD.Unfinished(DuoStream(signals)), s);
            GR.Run(Inputs(signals + [s])) ==
              if meaning == [] then GR.Run(Inputs(signals)) else GR.Step(GR.Run(Inputs(signals)), meaning[0])
  {
    hide SD.Unfinished, GR.Step, Completed, DecodedPacket;
    assert (signals + [s])[..|signals + [s]| - 1] == signals;
    var meaning := Meaning(SD.Unfinished(UsbStream(signals)), SD.Unfinished(DuoStream(signals)), s);
    if meaning == [] {
      assert Inputs(signals) + meaning == Inputs(signals);
    } else {
      assert (Inputs(signals) + meaning)[..|Inputs(signals) + meaning| - 1] == Inputs(signals);
    }
  }

  /** Hears one byte from the USB host. */
  method HearUsb(link: GL.Link, byte: Byte, ghost signals: seq<Signal>)
    requires Tracks(link, signals)
    modifies link.gateway.Footprint(), link.DecoderParts()
    ensures Tracks(link, signals + [UsbByte(byte)])
  {
    hide SD.Report, SD.Unfinished, SD.Reports, GR.Run, Inputs, UsbStream, DuoStream, G.RouteRequest;
    ghost var text := SD.Unfinished(UsbStream(signals));
    OneMoreSignal(signals, UsbByte(byte));
    SD.StreamGrows(UsbStream(signals), byte);
    assert DuoStream(signals) + [] == DuoStream(signals);
    var _ := link.PushUsbByte(byte, text);
  }

  /** Hears one byte from the robot. */
  method HearDuo(link: GL.Link, byte: Byte, ghost signals: seq<Signal>)
    requires Tracks(link, signals)
    modifies link.gateway.Footprint(), link.DecoderParts()
    ensures Tracks(link, signals + [DuoByte(byte)])
  {
    hide SD.Report, SD.Unfinished, SD.Reports, GR.Run, Inputs, UsbStream, DuoStream, G.RouteDuo;
    ghost var text := SD.Unfinished(DuoStream(signals));
    OneMoreSignal(signals, DuoByte(byte));
    SD.StreamGrows(DuoStream(signals), byte);
    assert UsbStream(signals) + [] == UsbStream(signals);
    var _ := link.PushDuoByte(byte, text);
  }

  /** Takes a packet of the network host; what does not decode changes nothing. */
  method HearNetwork(link: GL.Link, bytes: seq<Byte>, ghost signals: seq<Signal>) returns (r: Result<G.RouteOutcome>)
    requires Tracks(link, signals)
    modifies link.gateway.Footprint()
    ensures Tracks(link, signals + [NetworkBytes(bytes)])
    ensures r.Err? <==> DecodedPacket(bytes).Err?
  {
    hide SD.Unfinished, GR.Run, Inputs, UsbStream, DuoStream, G.RouteRequest, DecodedPacket;
    OneMoreSignal(signals, NetworkBytes(bytes));
    OtherSignal(signals, NetworkBytes(bytes));
    r := link.PushNetworkPacket(bytes);
  }

  /** A signal that is no byte leaves both streams where they are. */
  lemma {:induction false} OtherSignal(signals: seq<Signal>, s: Signal)
    requires !s.UsbByte? && !s.DuoByte?
    ensures UsbStream(signals + [s]) == UsbStream(signals) && DuoStream(signals + [s]) == DuoStream(signals)
  {
    assert (signals + [s])[..|signals + [s]| - 1] == signals;
  }

  /** Sends the next frame to the robot. */
  method SendDuo(link: GL.Link, now: nat, output: array<Byte>, ghost signals: seq<Signal>) returns (r: Result<Option<nat>>)
    requires Tracks(link, signals) && output !in link.gateway.Footprint() && output !in link.DecoderParts()
    modifies link.gateway.Footprint(), output
    ensures Tracks(link, signals + [Otherwise(GR.TakeForDuo(now))])
    ensures var next := G.NextForDuo(GR.Run(Inputs(signals)), now);
            if next.None? then r == Ok(None) else G.IsFramed(next.value, output, r)
  {
    hide SD.Unfinished, GR.Run, Inputs, UsbStream, DuoStream, G.DequeueDuo, G.NextForDuo, UartFrame, FrameRoom;
    OneMoreSignal(signals, Otherwise(GR.TakeForDuo(now)));
    OtherSignal(signals, Otherwise(GR.TakeForDuo(now)));
    r := link.gateway.DequeueDuoUartFrame(now, output);
  }

  /** Hands the next frame to the USB host. */
  method SendUsb(link: GL.Link, output: array<Byte>, ghost signals: seq<Signal>) returns (r: Result<Option<nat>>)
    requires Tracks(link, signals) && output !in link.gateway.Footprint() && output !in link.DecoderParts()
    modifies link.gateway.Footprint(), output
    ensures Tracks(link, signals + [Otherwise(GR.TakeForUsb)])
    ensures var queue := GR.Run(Inputs(signals)).toUsb;
            if queue == [] then r == Ok(None) else G.IsFramed(queue[0], output, r)
  {
    hide SD.Unfinished, GR.Run, Inputs, UsbStream, DuoStream, UartFrame, FrameRoom;
    OneMoreSignal(signals, Otherwise(GR.TakeForUsb));
    OtherSignal(signals, Otherwise(GR.TakeForUsb));
    r := link.gateway.DequeueUsbFrame(output);
  }

  /** Hands the next packet to the network host. */
  method SendNetwork(link: GL.Link, output: array<Byte>, ghost signals: seq<Signal>) returns (r: Result<Option<nat>>)
    requires Tracks(link, signals) && output !in link.gateway.Footprint() && output !in link.DecoderParts()
    modifies link.gateway.Footprint(), output
    ensures Tracks(link, signals + [Otherwise(GR.TakeForNetwork(output.Length))])
    ensures var queue := GR.Run(Inputs(signals)).toNetwork;
            if queue == [] then r == Ok(None)
            else if output.Length < |EncodedPacket(queue[0])| then r == Err(OutputTooSmall)
            else r == Ok(Some(|EncodedPacket(queue[0])|)) && output[..|EncodedPacket(queue[0])|] == EncodedPacket(queue[0])
  {
    hide SD.Unfinished, GR.Run, Inputs, UsbStream, DuoStream, EncodedPacket;
    OneMoreSignal(signals, Otherwise(GR.TakeForNetwork(output.Length)));
    OtherSignal(signals, Otherwise(GR.TakeForNetwork(output.Length)));
    r := link.gateway.DequeueNetworkPacket(output);
  }

  /** Gives up a request of the network host. */
  method CancelNetwork(link: GL.Link, id: RequestId, ghost signals: seq<Signal>) returns (r: bool)
    requires Tracks(link, signals)
    modifies link.gateway.Footprint()
    ensures Tracks(link, signals + [Otherwise(GR.CancelRequest(id))])
    ensures r == G.Cancel(GR.Run(Inputs(signals)), id).1
  {
    hide SD.Unfinished, GR.Run, Inputs, UsbStream, DuoStream, G.Cancel;
    OneMoreSignal(signals, Otherwise(GR.CancelRequest(id)));
    OtherSignal(signals, Otherwise(GR.CancelRequest(id)));
    r := link.gateway.CancelNetworkRequest(id);
  }
}
