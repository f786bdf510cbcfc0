/** The forwarding core between the upstreams and the robot. The functions say what each
    operation does to the queues, the routes and the pending abort; the class does it. */
module Gateway {
  import opened Bits
  import opened Options
  import opened Wire
  import opened PacketQueue

  const NORMAL_QUEUE_CAPACITY := 4
  const URGENT_QUEUE_CAPACITY := 2
  const UPSTREAM_QUEUE_CAPACITY := 4
  const ABORT_RETRY_INTERVAL_MS := 100
  const LAST_MS := 0xffff_ffff_ffff_ffff

  const ABORT_OPCODE := 0x00ff
  const ACCEPTED_OPCODE := 0x1000
  const OPERATION_COMPLETED := 0x2006
  const ABORTED := 0x2007
  const OPERATION_FAILED := 0x2009
  const FAULT := 0x20ff

  datatype QueueKind = NormalToDuo | UrgentToDuo | ToUsb | ToNetwork | Routes

  datatype GatewayError =
    | UpstreamPacketMustBeRequest
    | UpstreamRequestIdMustBeNonZero
    | DuoPacketMustBeResponseOrEvent
    | DuplicateId(requestId: RequestId)
    | UnmatchedResponse(requestId: RequestId)
    | QueueFull(kind: QueueKind)

  datatype RouteOutcome = Queued | DuplicateAbortIgnored | Refused(error: GatewayError)

  datatype PendingAbort = PendingAbort(packet: Stored, nextRetryMs: nat)

  /** The state of the gateway, as values. */
  datatype Core = Core(
    urgent: seq<Stored>,
    normal: seq<Stored>,
    toUsb: seq<Stored>,
    toNetwork: seq<Stored>,
    routes: map<RequestId, Upstream>,
    eventUpstream: Option<Upstream>,
    pendingAbort: Option<PendingAbort>)

  const IDLE := Core([], [], [], [], map[], None, None)

  predicate IsAbort(p: Stored) {
    p.kind == Request && p.opcode == ABORT_OPCODE
  }

  predicate PendingIs(c: Core, id: RequestId) {
    c.pendingAbort.Some? && c.pendingAbort.value.packet.requestId == id
  }

  // ---- what each operation does ---------------------------------------------------

  function RouteRequest(c: Core, p: Stored, upstream: Upstream): (Core, RouteOutcome) {
    var id := p.requestId;
    if p.kind != Request then (c, Refused(UpstreamPacketMustBeRequest))
    else if id == 0 then (c, Refused(UpstreamRequestIdMustBeNonZero))
    else if IsAbort(p) && (PendingIs(c, id) || Has(c.urgent, id)) then (c, DuplicateAbortIgnored)
    else if id in c.routes then (c, Refused(DuplicateId(id)))
    else if |c.routes| == REQUEST_ROUTE_CAPACITY then (c, Refused(QueueFull(Routes)))
    else if IsAbort(p) then
      if |c.urgent| == URGENT_QUEUE_CAPACITY then (c, Refused(QueueFull(UrgentToDuo)))
      else (c.(routes := c.routes[id := upstream], urgent := c.urgent + [p]), Queued)
    else if |c.normal| == NORMAL_QUEUE_CAPACITY then (c, Refused(QueueFull(NormalToDuo)))
    else (c.(routes := c.routes[id := upstream], normal := c.normal + [p]), Queued)
  }

  function QueueUpstream(c: Core, upstream: Upstream, p: Stored): (Core, Option<GatewayError>) {
    match upstream
    case Usb =>
      if |c.toUsb| == UPSTREAM_QUEUE_CAPACITY then (c, Some(QueueFull(ToUsb))) else (c.(toUsb := c.toUsb + [p]), None)
    case Network =>
      if |c.toNetwork| == UPSTREAM_QUEUE_CAPACITY then (c, Some(QueueFull(ToNetwork)))
      else (c.(toNetwork := c.toNetwork + [p]), None)
  }

  function Forget(c: Core, id: RequestId): Core {
    if PendingIs(c, id) then c.(pendingAbort := None) else c
  }

  function RouteResponse(c: Core, p: Stored): (Core, Option<GatewayError>) {
    var heard := Forget(c, p.requestId);
    if p.requestId !in c.routes then (heard, Some(UnmatchedResponse(p.requestId)))
    else
      var upstream := c.routes[p.requestId];
      var freed := heard.(routes := c.routes - {p.requestId});
      QueueUpstream(if p.opcode == ACCEPTED_OPCODE then freed.(eventUpstream := Some(upstream)) else freed, upstream, p)
  }

  predicate EndsOperation(opcode: Word) {
    opcode == OPERATION_COMPLETED || opcode == ABORTED || opcode == OPERATION_FAILED || opcode == FAULT
  }

  function RouteEvent(c: Core, p: Stored): (Core, Option<GatewayError>) {
    var (owner, error) := if c.eventUpstream == Some(Usb) then QueueUpstream(c, Usb, p) else (c, None);
    if error.Some? then (owner, error)
    else
      var (published, failure) := QueueUpstream(owner, Network, p);
      if failure.Some? then (published, failure)
      else (if EndsOperation(p.opcode) then published.(eventUpstream := None) else published, None)
  }

  function RouteDuo(c: Core, p: Stored): (Core, Option<GatewayError>) {
    match p.kind
    case Request => (c, Some(DuoPacketMustBeResponseOrEvent))
    case Response => RouteResponse(c, p)
    case Event => RouteEvent(c, p)
  }

  function SaturatingAdd(a: nat, b: nat): nat {
    if a + b > LAST_MS then LAST_MS else a + b
  }

  predicate RetryDue(c: Core, now: nat) {
    c.pendingAbort.Some? && now >= c.pendingAbort.value.nextRetryMs
  }

  /** The next packet for the robot. */
  function NextForDuo(c: Core, now: nat): Option<Stored> {
    if c.urgent != [] then Some(c.urgent[0])
    else if RetryDue(c, now) then Some(c.pendingAbort.value.packet)
    else if c.normal != [] then Some(c.normal[0])
    else None
  }

  function DequeueDuo(c: Core, now: nat): Core {
    var popped :=
      if c.urgent != [] then c.(urgent := c.urgent[1..])
      else if RetryDue(c, now) || c.normal == [] then c
      else c.(normal := c.normal[1..]);
    var next := NextForDuo(c, now);
    if next.Some? && IsAbort(next.value) then
      popped.(pendingAbort := Some(PendingAbort(next.value, SaturatingAdd(now, ABORT_RETRY_INTERVAL_MS))))
    else popped
  }

  function Cancel(c: Core, id: RequestId): (Core, bool) {
    if id !in c.routes || c.routes[id] != Network then (c, false)
    else
      (Forget(c.(routes := c.routes - {id}, normal := RemoveFirst(c.normal, id), urgent := RemoveFirst(c.urgent, id)), id), true)
  }

  /** The frame of the packet is in the output, or the output has too little room. */
  ghost predicate IsFramed(packet: Stored, output: array<Byte>, r: Result<Option<nat>>)
    reads output
  {
    if output.Length < FrameRoom(packet) then r == Err(OutputTooSmall)
    else r == Ok(Some(|UartFrame(packet)|)) && |UartFrame(packet)| <= output.Length
         && output[..|UartFrame(packet)|] == UartFrame(packet)
  }

  // ---- the class ------------------------------------------------------------------

  class Gateway {
    const urgentToDuo: PacketQueue
    const normalToDuo: PacketQueue
    const usbQueue: PacketQueue
    const networkQueue: PacketQueue
    const requestRoutes: RequestRoutes
    const scratch: array<Byte>
    var eventUpstream: Option<Upstream>
    var pendingAbort: Option<PendingAbort>

    ghost predicate Apart()
      reads this
    {
      && urgentToDuo != normalToDuo && urgentToDuo != usbQueue && urgentToDuo != networkQueue
      && normalToDuo != usbQueue && normalToDuo != networkQueue && usbQueue != networkQueue
      && urgentToDuo.slots != normalToDuo.slots && urgentToDuo.slots != usbQueue.slots
      && urgentToDuo.slots != networkQueue.slots && normalToDuo.slots != usbQueue.slots
      && normalToDuo.slots != networkQueue.slots && usbQueue.slots != networkQueue.slots
      && scratch.Length == MAX_PACKET_LEN
    }

    ghost function Footprint(): set<object>
      reads this
    {
      {this, urgentToDuo, urgentToDuo.slots, normalToDuo, normalToDuo.slots, usbQueue, usbQueue.slots,
       networkQueue, networkQueue.slots, requestRoutes, requestRoutes.slots, scratch}
    }

    ghost predicate Valid()
      reads Footprint()
    {
      && Apart()
      && urgentToDuo.Valid() && normalToDuo.Valid() && usbQueue.Valid() && networkQueue.Valid() && requestRoutes.Valid()
      && urgentToDuo.slots.Length == URGENT_QUEUE_CAPACITY && normalToDuo.slots.Length == NORMAL_QUEUE_CAPACITY
      && usbQueue.slots.Length == UPSTREAM_QUEUE_CAPACITY && networkQueue.slots.Length == UPSTREAM_QUEUE_CAPACITY
    }

    ghost function Value(): Core
      reads Footprint()
      requires Valid()
    {
      Core(urgentToDuo.Contents(), normalToDuo.Contents(), usbQueue.Contents(), networkQueue.Contents(),
           requestRoutes.routes, eventUpstream, pendingAbort)
    }

    constructor ()
      ensures Valid() && fresh(Footprint()) && Value() == IDLE
    {
      hide Ring, Represents;
      urgentToDuo := new PacketQueue(URGENT_QUEUE_CAPACITY);
      normalToDuo := new PacketQueue(NORMAL_QUEUE_CAPACITY);
      usbQueue := new PacketQueue(UPSTREAM_QUEUE_CAPACITY);
      networkQueue := new PacketQueue(UPSTREAM_QUEUE_CAPACITY);
      requestRoutes := new RequestRoutes();
      scratch := new Byte[MAX_PACKET_LEN](_ => 0);
      eventUpstream := None;
      pendingAbort := None;
    }

    method RouteUpstreamRequest(packet: Stored, upstream: Upstream) returns (r: RouteOutcome)
      requires Valid()
      modifies Footprint()
      ensures Valid() && (Value(), r) == RouteRequest(old(Value()), packet, upstream)
    {
      hide Ring, Represents, Has;
      if packet.kind != Request {
        return Refused(UpstreamPacketMustBeRequest);
      }
      if packet.requestId == 0 {
        return Refused(UpstreamRequestIdMustBeNonZero);
      }
      if packet.kind == Request && packet.opcode == ABORT_OPCODE {
        var duplicatePending := pendingAbort.Some? && pendingAbort.value.packet.requestId == packet.requestId;
        var queuedAlready := urgentToDuo.ContainsRequestId(packet.requestId);
        if duplicatePending || queuedAlready {
          return DuplicateAbortIgnored;
        }
      }
      r := InsertRoute(Route(packet.requestId, upstream));
      if r != Queued {
        return;
      }
      ghost var was := old(Value()).routes;
      assert was[packet.requestId := upstream] - {packet.requestId} == was;
      r := EnqueueForDuo(packet);
    }

    method InsertRoute(route: Route) returns (r: RouteOutcome)
      requires Valid()
      modifies Footprint()
      ensures Valid()
      ensures r == if route.requestId in old(Value()).routes then Refused(DuplicateId(route.requestId))
                   else if |old(Value()).routes| == REQUEST_ROUTE_CAPACITY then Refused(QueueFull(Routes)) else Queued
      ensures Value() == if r != Queued then old(Value())
                         else old(Value()).(routes := old(Value()).routes[route.requestId := route.upstream])
    {
      hide Ring, Represents;
      var inserted := requestRoutes.Insert(route);
      r := match inserted
           case Inserted => Queued
           case DuplicateRequestId => Refused(DuplicateId(route.requestId))
           case TableFull => Refused(QueueFull(Routes));
    }

    /** Queues a routed request; when its queue is full the route is taken back. */
    method EnqueueForDuo(packet: Stored) returns (r: RouteOutcome)
      requires Valid() && packet.requestId in Value().routes
      modifies Footprint()
      ensures Valid()
      ensures var c, abort := old(Value()), IsAbort(packet);
              var full := if abort then |c.urgent| == URGENT_QUEUE_CAPACITY else |c.normal| == NORMAL_QUEUE_CAPACITY;
              && r == (if full then Refused(QueueFull(if abort then UrgentToDuo else NormalToDuo)) else Queued)
              && Value() == if full then c.(routes := c.routes - {packet.requestId})
                            else if abort then c.(urgent := c.urgent + [packet]) else c.(normal := c.normal + [packet])
    {
      hide Ring, Represents;
      var abort := packet.kind == Request && packet.opcode == ABORT_OPCODE;
      var pushed;
      if abort {
        pushed := urgentToDuo.Push(packet);
      } else {
        pushed := normalToDuo.Push(packet);
      }
      if !pushed {
        var removed := requestRoutes.Remove(packet.requestId);
        return Refused(QueueFull(if abort then UrgentToDuo else NormalToDuo));
      }
      r := Queued;
    }

    method PushUpstream(upstream: Upstream, packet: Stored) returns (r: Option<GatewayError>)
      requires Valid()
      modifies Footprint()
      ensures Valid() && (Value(), r) == QueueUpstream(old(Value()), upstream, packet)
    {
      var pushed;
      if upstream == Usb {
        pushed := usbQueue.Push(packet);
      } else {
        pushed := networkQueue.Push(packet);
      }
      r := if pushed then None else Some(QueueFull(if upstream == Usb then ToUsb else ToNetwork));
    }

    method RouteDuoPacket(packet: Stored) returns (r: Option<GatewayError>)
      requires Valid()
      modifies Footprint()
      ensures Valid() && (Value(), r) == RouteDuo(old(Value()), packet)
    {
      match packet.kind
      case Request => r := Some(DuoPacketMustBeResponseOrEvent);
      case Response => r := RouteDuoResponse(packet);
      case Event => r := RouteDuoEvent(packet);
    }

    method RouteDuoResponse(packet: Stored) returns (r: Option<GatewayError>)
      requires Valid()
      modifies Footprint()
      ensures Valid() && (Value(), r) == RouteResponse(old(Value()), packet)
    {
      hide Ring, Represents;
      if pendingAbort.Some? && pendingAbort.value.packet.requestId == packet.requestId {
        pendingAbort := None;
      }
      var upstream := requestRoutes.Remove(packet.requestId);
      if upstream.None? {
        assert old(requestRoutes.routes) - {packet.requestId} == old(requestRoutes.routes);
        return Some(UnmatchedResponse(packet.requestId));
      }
      if packet.opcode == ACCEPTED_OPCODE {
        eventUpstream := upstream;
      }
      r := PushUpstream(upstream.value, packet);
    }

    method RouteDuoEvent(packet: Stored) returns (r: Option<GatewayError>)
      requires Valid()
      modifies Footprint()
      ensures Valid() && (Value(), r) == RouteEvent(old(Value()), packet)
    {
      hide Ring, Represents;
      if eventUpstream == Some(Usb) {
        r := PushUpstream(Usb, packet);
        if r.Some? {
          return;
        }
      }
      r := PushUpstream(Network, packet);
      if r.Some? {
        return;
      }
      if EndsOperation(packet.opcode) {
        eventUpstream := None;
      }
    }

    /** The next packet for the robot; aborts overtake and are kept for a retry. */
    method TakeForDuo(now: nat) returns (r: Option<Stored>)
      requires Valid()
      modifies Footprint()
      ensures Valid() && Value() == DequeueDuo(old(Value()), now) && r == NextForDuo(old(Value()), now)
    {
      hide Ring, Represents;
      r := urgentToDuo.Pop();
      if r.None? {
        if pendingAbort.Some? && now >= pendingAbort.value.nextRetryMs {
          r := Some(pendingAbort.value.packet);
        } else {
          r := normalToDuo.Pop();
        }
      }
      if r.Some? && r.value.kind == Request && r.value.opcode == ABORT_OPCODE {
        pendingAbort := Some(PendingAbort(r.value, SaturatingAdd(now, ABORT_RETRY_INTERVAL_MS)));
      }
    }

    /** The same, framed for the wire. A packet that finds too little room is gone; a public
        frame buffer is never too small. */
    method DequeueDuoUartFrame(now: nat, output: array<Byte>) returns (r: Result<Option<nat>>)
      requires Valid() && output !in Footprint()
      modifies Footprint(), output
      ensures Valid() && Value() == DequeueDuo(old(Value()), now)
      ensures NextForDuo(old(Value()), now).None? ==> r == Ok(None)
      ensures NextForDuo(old(Value()), now).Some? ==> IsFramed(NextForDuo(old(Value()), now).value, output, r)
      ensures output.Length >= MAX_UART_FRAME_LEN ==> r.Ok?
    {
      hide UartFrame, FrameRoom;
      var packet := TakeForDuo(now);
      if packet.None? {
        return Ok(None);
      }
      r := Framed(packet.value, output);
    }

    method Framed(packet: Stored, output: array<Byte>) returns (r: Result<Option<nat>>)
      requires scratch.Length == MAX_PACKET_LEN && scratch != output
      modifies scratch, output
      ensures IsFramed(packet, output, r)
      ensures output.Length >= MAX_UART_FRAME_LEN ==> r.Ok?
    {
      hide UartFrame, EncodedPacket, FrameRoom;
      FrameRoundTrip(packet);
      var len := FrameUart(packet, scratch, output);
      r := if len.Ok? then Ok(Some(len.value)) else Err(len.error);
    }

    /** The next packet for the USB host, framed; gone in the same way when it does not fit. */
    method DequeueUsbFrame(output: array<Byte>) returns (r: Result<Option<nat>>)
      requires Valid() && output !in Footprint()
      modifies Footprint(), output
      ensures Valid()
      ensures old(Value()).toUsb == [] ==> r == Ok(None) && Value() == old(Value())
      ensures old(Value()).toUsb != [] ==>
                IsFramed(old(Value()).toUsb[0], output, r) && Value() == old(Value()).(toUsb := old(Value()).toUsb[1..])
      ensures output.Length >= MAX_UART_FRAME_LEN ==> r.Ok?
    {
      hide UartFrame, FrameRoom;
      var packet := usbQueue.Pop();
      if packet.None? {
        return Ok(None);
      }
      r := Framed(packet.value, output);
    }

    /** A packet stays queued when the caller's buffer is too small for it. */
    method DequeueNetworkPacket(output: array<Byte>) returns (r: Result<Option<nat>>)
      requires Valid() && output !in Footprint()
      modifies Footprint(), output
      ensures Valid()
      ensures old(Value()).toNetwork == [] ==> r == Ok(None) && Value() == old(Value())
      ensures old(Value()).toNetwork != [] ==>
                var bytes := EncodedPacket(old(Value()).toNetwork[0]);
                if output.Length < |bytes| then r == Err(OutputTooSmall) && Value() == old(Value())
                else r == Ok(Some(|bytes|)) && output[..|bytes|] == bytes
                     && Value() == old(Value()).(toNetwork := old(Value()).toNetwork[1..])
    {
      hide EncodedPacket;
      var packet := networkQueue.Peek();
      if packet.None? {
        return Ok(None);
      }
      if output.Length < |EncodedPacket(packet.value)| {
        return Err(OutputTooSmall);
      }
      var taken := networkQueue.Pop();
      var len := EncodePacket(taken.value, output);
      r := Ok(Some(len.value));
    }

    method CancelNetworkRequest(id: RequestId) returns (r: bool)
      requires Valid()
      modifies Footprint()
      ensures Valid() && (Value(), r) == Cancel(old(Value()), id)
    {
      hide Ring, Represents, RemoveFirst;
      r := requestRoutes.RemoveFor(id, Network);
      if !r {
        return;
      }
      var fromNormal := normalToDuo.RemoveRequestId(id);
      var fromUrgent := urgentToDuo.RemoveRequestId(id);
      if pendingAbort.Some? && pendingAbort.value.packet.requestId == id {
        pendingAbort := None;
      }
    }
  }
}
