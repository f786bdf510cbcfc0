/** The gateway with its two byte streams: what arrives on a wire is cut into frames, and
    every packet found is routed. */
module GatewayLink {
  import opened Bits
  import opened Options
  import opened Wire
  import opened PacketQueue
  import G = Gateway
  import SD = StreamDecoder

  datatype UsbResult = Routed(outcome: G.RouteOutcome) | UsbRejected(report: SD.Received)

  datatype DuoResult = Delivered | NotDelivered(error: G.GatewayError) | DuoRejected(report: SD.Received)

  /** A packet that the decoder reports fits the gateway's slots. */
  lemma {:induction false} ReportFits(text: seq<Byte>)
    requires SD.Report(text) != [] && SD.Report(text)[0].Received?
    ensures |SD.Report(text)[0].packet.payload| <= MAX_PAYLOAD_LEN && |SD.Report(text)| == 1
  {
    hide DecodedPacket, EncodedPacket;
    SD.GatewayStoresWireBytes(text);
  }

  class Link {
    const gateway: G.Gateway
    const usbDecoder: SD.UartStreamDecoder
    const duoDecoder: SD.UartStreamDecoder

    ghost function DecoderParts(): set<object>
    {
      {usbDecoder, usbDecoder.encoded, usbDecoder.decoded, duoDecoder, duoDecoder.encoded, duoDecoder.decoded}
    }

    ghost predicate Valid()
      reads gateway, gateway.Footprint(), DecoderParts()
    {
      && gateway.Valid() && usbDecoder.Valid() && duoDecoder.Valid()
      && DecoderParts() !! gateway.Footprint()
      && usbDecoder != duoDecoder
      && {usbDecoder.encoded, usbDecoder.decoded} !! {duoDecoder.encoded, duoDecoder.decoded}
    }

    constructor ()
      ensures Valid() && gateway.Value() == G.IDLE && usbDecoder.Holds([]) && duoDecoder.Holds([])
    {
      hide Ring, Represents;
      var core := new G.Gateway();
      ghost var footprint := core.Footprint();
      var usb := new SD.UartStreamDecoder();
      assert {usb, usb.encoded, usb.decoded} !! footprint;
      var duo := new SD.UartStreamDecoder();
      assert {duo, duo.encoded, duo.decoded} !! footprint;
      gateway, usbDecoder, duoDecoder := core, usb, duo;
    }

    /** One byte from the USB host. */
    method PushUsbByte(byte: Byte, ghost text: seq<Byte>) returns (r: Option<UsbResult>)
      requires Valid() && usbDecoder.Holds(text)
      modifies gateway.Footprint(), DecoderParts()
      ensures Valid() && forall other: seq<Byte> :: old(duoDecoder.Holds(other)) ==> duoDecoder.Holds(other)
      ensures byte != UART_DELIMITER ==>
                r == None && usbDecoder.Holds(text + [byte]) && gateway.Value() == old(gateway.Value())
      ensures byte == UART_DELIMITER ==>
                var reports := SD.Report(text);
                && usbDecoder.Holds([])
                && if reports != [] && reports[0].Received? then
                     |reports[0].packet.payload| <= MAX_PAYLOAD_LEN
                     && var (after, outcome) := G.RouteRequest(old(gateway.Value()), reports[0].packet, Usb);
                        gateway.Value() == after && r == Some(Routed(outcome))
                   else gateway.Value() == old(gateway.Value()) && r == if reports == [] then None else Some(UsbRejected(reports[0]))
    {
      hide SD.Report, G.RouteRequest;
      var result := usbDecoder.Push(byte, text);
      if result.None? {
        return None;
      }
      if !result.value.Received? {
        return Some(UsbRejected(result.value));
      }
      assert SD.Report(text)[0] == result.value;
      ReportFits(text);
      var outcome := gateway.RouteUpstreamRequest(result.value.packet, Usb);
      r := Some(Routed(outcome));
    }

    /** One byte from the robot. */
    method PushDuoByte(byte: Byte, ghost text: seq<Byte>) returns (r: Option<DuoResult>)
      requires Valid() && duoDecoder.Holds(text)
      modifies gateway.Footprint(), DecoderParts()
      ensures Valid() && forall other: seq<Byte> :: old(usbDecoder.Holds(other)) ==> usbDecoder.Holds(other)
      ensures byte != UART_DELIMITER ==>
                r == None && duoDecoder.Holds(text + [byte]) && gateway.Value() == old(gateway.Value())
      ensures byte == UART_DELIMITER ==>
                var reports := SD.Report(text);
                && duoDecoder.Holds([])
                && if reports != [] && reports[0].Received? then
                     |reports[0].packet.payload| <= MAX_PAYLOAD_LEN
                     && var (after, error) := G.RouteDuo(old(gateway.Value()), reports[0].packet);
                        gateway.Value() == after && r == Some(if error.Some? then NotDelivered(error.value) else Delivered)
                   else gateway.Value() == old(gateway.Value()) && r == if reports == [] then None else Some(DuoRejected(reports[0]))
    {
      hide SD.Report, G.RouteDuo;
      var result := duoDecoder.Push(byte, text);
      if result.None? {
        return None;
      }
      if !result.value.Received? {
        return Some(DuoRejected(result.value));
      }
      assert SD.Report(text)[0] == result.value;
      ReportFits(text);
      var error := gateway.RouteDuoPacket(result.value.packet);
      r := Some(if error.Some? then NotDelivered(error.value) else Delivered);
    }

    /** One packet from the network; anything that does not decode is refused. */
    method PushNetworkPacket(bytes: seq<Byte>) returns (r: Result<G.RouteOutcome>)
      requires Valid()
      modifies gateway.Footprint()
      ensures Valid()
      ensures DecodedPacket(bytes).Err? ==> r == Err(DecodedPacket(bytes).error) && gateway.Value() == old(gateway.Value())
      ensures DecodedPacket(bytes).Ok? ==>
                |DecodedPacket(bytes).value.payload| <= MAX_PAYLOAD_LEN
                && var (after, outcome) := G.RouteRequest(old(gateway.Value()), DecodedPacket(bytes).value, Network);
                   gateway.Value() == after && r == Ok(outcome)
    {
      hide DecodedPacket, EncodedPacket, G.RouteRequest;
      var packet := DecodedPacket(bytes);
      if packet.Err? {
        return Err(packet.error);
      }
      AcceptedIsEncoding(bytes);
      var outcome := gateway.RouteUpstreamRequest(packet.value, Network);
      r := Ok(outcome);
    }
  }
}
