/** What holds over whole runs of the gateway, whatever the upstreams ask, the robot sends
    and the clock shows. */
module GatewayRuns {
  import opened Options
  import opened Wire
  import opened PacketQueue
  import opened Gateway

  datatype Input =
    | FromUpstream(packet: Stored, upstream: Upstream)
    | FromDuo(packet: Stored)
    | TakeForDuo(now: nat)
    | TakeForUsb
    | TakeForNetwork(room: nat)
    | CancelRequest(requestId: RequestId)

  /** What an outside observer of the gateway sees happen. */
  datatype Fact =
    | Accepted(packet: Stored, upstream: Upstream)
    | Heard(requestId: RequestId)
    | Answered(packet: Stored, upstream: Upstream)
    | Cancelled(requestId: RequestId)
    | Sent(packet: Stored, now: nat)

  function Step(c: Core, input: Input): Core {
    match input
    case FromUpstream(p, upstream) => RouteRequest(c, p, upstream).0
    case FromDuo(p) => RouteDuo(c, p).0
    case TakeForDuo(now) => DequeueDuo(c, now)
    case TakeForUsb => if c.toUsb == [] then c else c.(toUsb := c.toUsb[1..])
    case TakeForNetwork(room) =>
      if c.toNetwork == [] || room < |EncodedPacket(c.toNetwork[0])| then c else c.(toNetwork := c.toNetwork[1..])
    case CancelRequest(id) => Cancel(c, id).0
  }

  function Facts(c: Core, input: Input): seq<Fact> {
    match input
    case FromUpstream(p, upstream) => if RouteRequest(c, p, upstream).1 == Queued then [Accepted(p, upstream)] else []
    case FromDuo(p) =>
      if p.kind != Response then []
      else [Heard(p.requestId)] + if p.requestId in c.routes then [Answered(p, c.routes[p.requestId])] else []
    case TakeForDuo(now) => if NextForDuo(c, now).None? then [] else [Sent(NextForDuo(c, now).value, now)]
    case TakeForUsb => []
    case TakeForNetwork(_) => []
    case CancelRequest(id) => if Cancel(c, id).1 then [Cancelled(id)] else []
  }

  function Run(inputs: seq<Input>): Core {
    if inputs == [] then IDLE else Step(Run(inputs[..|inputs| - 1]), inputs[|inputs| - 1])
  }

  function History(inputs: seq<Input>): seq<Fact> {
    if inputs == [] then []
    else History(inputs[..|inputs| - 1]) + Facts(Run(inputs[..|inputs| - 1]), inputs[|inputs| - 1])
  }

  // ---- responses go where they belong ---------------------------------------------

  /** Requests accepted and neither answered nor cancelled since. */
  function Outstanding(h: seq<Fact>): map<RequestId, Upstream> {
    if h == [] then map[] else AfterFact(Outstanding(h[..|h| - 1]), h[|h| - 1])
  }

  function AfterFact(before: map<RequestId, Upstream>, f: Fact): map<RequestId, Upstream> {
    match f
    case Accepted(p, upstream) => before[p.requestId := upstream]
    case Answered(p, _) => before - {p.requestId}
    case Cancelled(id) => before - {id}
    case _ => before
  }

  /** A request is accepted only under a free identifier, answered only while it is
      outstanding, to the upstream that asked, and cancelled only for the network. */
  ghost predicate Lawful(h: seq<Fact>) {
    h == [] || (Lawful(h[..|h| - 1]) && LawfulFact(Outstanding(h[..|h| - 1]), h[|h| - 1]))
  }

  predicate LawfulFact(before: map<RequestId, Upstream>, f: Fact) {
    match f
    case Accepted(p, _) => p.kind == Request && p.requestId != 0 && p.requestId !in before
    case Answered(p, upstream) => p.kind == Response && p.requestId in before && before[p.requestId] == upstream
    case Cancelled(id) => id in before && before[id] == Network
    case _ => true
  }

  lemma {:induction false} OneFact(h: seq<Fact>, f: Fact)
    ensures Outstanding(h + [f]) == AfterFact(Outstanding(h), f)
    ensures Lawful(h + [f]) == (Lawful(h) && LawfulFact(Outstanding(h), f))
    ensures AcceptedNormals(h + [f]) == AcceptedNormals(h) + (if f.Accepted? && !IsAbort(f.packet) then [f.packet] else [])
    ensures SentNormals(h + [f]) == SentNormals(h) + (if f.Sent? && !IsAbort(f.packet) then [f.packet] else [])
    ensures LatestAbort(h + [f]) == AbortAfter(LatestAbort(h), f)
  {
    hide AfterFact, LawfulFact, AbortAfter;
    assert (h + [f])[..|h + [f]| - 1] == h && (h + [f])[|h + [f]| - 1] == f;
  }

  /** Every input brings at most two facts, the first of two being a response heard. */
  lemma {:induction false} FewFacts(c: Core, input: Input)
    ensures var fs := Facts(c, input);
            |fs| <= 2 && (|fs| == 2 ==> fs[0].Heard? && fs[1].Answered? && fs[1].packet.requestId == fs[0].requestId)
  {
    hide RouteRequest, RouteDuo, Cancel, NextForDuo;
  }

  /** Facts taken one by one. */
  lemma {:induction false} FactsOneByOne(h: seq<Fact>, fs: seq<Fact>)
    requires |fs| <= 2
    ensures fs == [] ==> h + fs == h
    ensures |fs| == 1 ==> h + fs == h + [fs[0]]
    ensures |fs| == 2 ==> h + fs == (h + [fs[0]]) + [fs[1]]
  {
  }

  lemma {:induction false} FactsExtend(h: seq<Fact>, c: Core, input: Input)
    requires Lawful(h) && c.routes == Outstanding(h)
    ensures Lawful(h + Facts(c, input)) && Step(c, input).routes == Outstanding(h + Facts(c, input))
  {
    hide Has, RemoveFirst, Lawful, Outstanding, Step, RouteDuo, RouteRequest, Cancel;
    var fs := Facts(c, input);
    FewFacts(c, input);
    FactsOneByOne(h, fs);
    RoutesOfStep(c, input);
    FactsAreLawful(c, input);
    if fs != [] {
      OneFact(h, fs[0]);
      if |fs| == 2 {
        OneFact(h + [fs[0]], fs[1]);
      }
    }
  }

  lemma {:induction false} FactsAreLawful(c: Core, input: Input)
    ensures forall i :: 0 <= i < |Facts(c, input)| ==> LawfulFact(c.routes, Facts(c, input)[i])
  {
    hide Has, RemoveFirst;
  }

  /** The routes change as the facts say. */
  lemma {:induction false} RoutesOfStep(c: Core, input: Input)
    ensures Step(c, input).routes ==
              var fs := Facts(c, input);
              if fs == [] then c.routes else if |fs| == 1 then AfterFact(c.routes, fs[0]) else AfterFact(c.routes, fs[1])
  {
    hide Has, RemoveFirst, EncodedPacket, SaturatingAdd, RetryDue, EndsOperation, IsAbort, PendingIs, NextForDuo;
    match input {
      case FromUpstream(p, upstream) => hide RouteDuo, DequeueDuo, Cancel;
      case FromDuo(p) => hide RouteRequest, DequeueDuo, Cancel;
      case TakeForDuo(now) => hide RouteRequest, RouteDuo, Cancel;
      case CancelRequest(id) => hide RouteRequest, RouteDuo, DequeueDuo;
      case _ => hide RouteRequest, RouteDuo, DequeueDuo, Cancel;
    }
  }

  /** Structure that every reachable state keeps. */
  ghost predicate Bounded(c: Core) {
    && |c.urgent| <= URGENT_QUEUE_CAPACITY && |c.normal| <= NORMAL_QUEUE_CAPACITY
    && |c.toUsb| <= UPSTREAM_QUEUE_CAPACITY && |c.toNetwork| <= UPSTREAM_QUEUE_CAPACITY
    && |c.routes| <= REQUEST_ROUTE_CAPACITY
    && (forall i :: 0 <= i < |c.urgent| ==> IsAbort(c.urgent[i]))
    && (forall i :: 0 <= i < |c.normal| ==> c.normal[i].kind == Request && !IsAbort(c.normal[i]))
    && (c.pendingAbort.Some? ==> IsAbort(c.pendingAbort.value.packet) && c.pendingAbort.value.nextRetryMs <= LAST_MS)
  }

  lemma {:induction false} RemovalKeeps(s: seq<Stored>, id: RequestId)
    ensures |RemoveFirst(s, id)| <= |s|
    ensures forall p :: p in RemoveFirst(s, id) ==> p in s
    decreases |s|
  {
    if s != [] {
      RemovalKeeps(s[..|s| - 1], id);
    }
  }

  lemma {:induction false} RoutesShrink(routes: map<RequestId, Upstream>, id: RequestId)
    ensures |routes - {id}| <= |routes|
  {
    if id in routes {
      assert routes == (routes - {id})[id := routes[id]];
      assert (routes - {id}).Keys == routes.Keys - {id};
    } else {
      assert routes - {id} == routes;
    }
  }

  lemma {:induction false} RoutesGrow(routes: map<RequestId, Upstream>, id: RequestId, upstream: Upstream)
    requires id !in routes
    ensures |routes[id := upstream]| == |routes| + 1
  {
  }

  lemma {:induction false} StepStaysBounded(c: Core, input: Input)
    requires Bounded(c)
    ensures Bounded(Step(c, input))
  {
    match input {
      case FromUpstream(p, upstream) => RequestStaysBounded(c, p, upstream);
      case FromDuo(p) => DuoStaysBounded(c, p);
      case TakeForDuo(now) => DequeueStaysBounded(c, now);
      case CancelRequest(id) => CancelStaysBounded(c, id);
      case _ => hide Has, RemoveFirst, RouteRequest, RouteDuo, DequeueDuo, Cancel, EncodedPacket;
    }
  }

  lemma {:induction false} RequestStaysBounded(c: Core, p: Stored, upstream: Upstream)
    requires Bounded(c)
    ensures Bounded(RouteRequest(c, p, upstream).0)
  {
    hide Has;
    if p.requestId !in c.routes {
      RoutesGrow(c.routes, p.requestId, upstream);
    }
  }

  lemma {:induction false} QueueingStaysBounded(c: Core, upstream: Upstream, p: Stored)
    requires Bounded(c)
    ensures Bounded(QueueUpstream(c, upstream, p).0)
  {
  }

  lemma {:induction false} FreedStaysBounded(c: Core, id: RequestId, eventUpstream: Option<Upstream>)
    requires Bounded(c)
    ensures Bounded(Forget(c, id)) && Bounded(Forget(c, id).(routes := c.routes - {id}))
    ensures Bounded(Forget(c, id).(routes := c.routes - {id}, eventUpstream := eventUpstream))
    ensures Bounded(c.(eventUpstream := eventUpstream))
  {
    RoutesShrink(c.routes, id);
  }

  lemma {:induction false} DuoStaysBounded(c: Core, p: Stored)
    requires Bounded(c)
    ensures Bounded(RouteDuo(c, p).0)
  {
    hide Bounded, Forget, QueueUpstream;
    match p.kind {
      case Request =>
      case Response =>
        if p.requestId in c.routes {
          var upstream := c.routes[p.requestId];
          FreedStaysBounded(c, p.requestId, Some(upstream));
          var freed := Forget(c, p.requestId).(routes := c.routes - {p.requestId});
          QueueingStaysBounded(if p.opcode == ACCEPTED_OPCODE then freed.(eventUpstream := Some(upstream)) else freed, upstream, p);
        } else {
          FreedStaysBounded(c, p.requestId, None);
        }
      case Event =>
        var owner := if c.eventUpstream == Some(Usb) then QueueUpstream(c, Usb, p).0 else c;
        QueueingStaysBounded(c, Usb, p);
        QueueingStaysBounded(owner, Network, p);
        FreedStaysBounded(QueueUpstream(owner, Network, p).0, 0, None);
    }
  }

  lemma {:induction false} CancelStaysBounded(c: Core, id: RequestId)
    requires Bounded(c)
    ensures Bounded(Cancel(c, id).0)
  {
    hide Has, RemoveFirst;
    RoutesShrink(c.routes, id);
    RemovalKeeps(c.normal, id);
    RemovalKeeps(c.urgent, id);
    var r := Cancel(c, id).0;
    forall i | 0 <= i < |r.urgent|
      ensures IsAbort(r.urgent[i])
    {
      assert r.urgent[i] in c.urgent;
    }
    forall i | 0 <= i < |r.normal|
      ensures r.normal[i].kind == Request && !IsAbort(r.normal[i])
    {
      assert r.normal[i] in c.normal;
    }
  }

  /** In every run: the route table is exactly the outstanding requests, so every response
      that reaches an upstream answers a request accepted from it and not since answered or
      cancelled, each accepted request gets at most one, and identifiers stay distinct and
      within capacity. */
  lemma {:induction false} ResponsesAnswerRequests(inputs: seq<Input>)
    ensures Lawful(History(inputs)) && Run(inputs).routes == Outstanding(History(inputs))
    ensures Bounded(Run(inputs))
  {
    hide Has, RemoveFirst, Step, Facts;
    if inputs != [] {
      var n := |inputs| - 1;
      ResponsesAnswerRequests(inputs[..n]);
      FactsExtend(History(inputs[..n]), Run(inputs[..n]), inputs[n]);
      StepStaysBounded(Run(inputs[..n]), inputs[n]);
    }
  }

  // ---- normal requests ------------------------------------------------------------

  /** `a` is `b` with some elements left out. */
  ghost predicate Sub(a: seq<Stored>, b: seq<Stored>) {
    if b == [] then a == []
    else
      || Sub(a, b[..|b| - 1])
      || (a != [] && a[|a| - 1] == b[|b| - 1] && Sub(a[..|a| - 1], b[..|b| - 1]))
  }

  lemma {:induction false} SubSelf(a: seq<Stored>)
    ensures Sub(a, a)
  {
    if a != [] {
      SubSelf(a[..|a| - 1]);
    }
  }

  lemma {:induction false} SubGrows(a: seq<Stored>, b: seq<Stored>, p: Stored)
    requires Sub(a, b)
    ensures Sub(a, b + [p]) && Sub(a + [p], b + [p])
  {
    assert (b + [p])[..|b + [p]| - 1] == b && (a + [p])[..|a + [p]| - 1] == a;
  }

  lemma {:induction false} SubExtends(a: seq<Stored>, b: seq<Stored>, more: seq<Stored>)
    requires Sub(a, b)
    ensures Sub(a, b + more)
    decreases |more|
  {
    if more == [] {
      assert b + more == b;
    } else {
      var n := |more| - 1;
      SubExtends(a, b, more[..n]);
      assert (b + more)[..|b + more| - 1] == b + more[..n];
    }
  }

  lemma {:induction false} SubTransitive(a: seq<Stored>, b: seq<Stored>, c: seq<Stored>)
    requires Sub(a, b) && Sub(b, c)
    ensures Sub(a, c)
    decreases |b| + |c|
  {
    if c == [] {
    } else if Sub(b, c[..|c| - 1]) {
      SubTransitive(a, b, c[..|c| - 1]);
    } else if Sub(a, b[..|b| - 1]) {
      SubTransitive(a, b[..|b| - 1], c[..|c| - 1]);
    } else {
      SubTransitive(a[..|a| - 1], b[..|b| - 1], c[..|c| - 1]);
    }
  }

  lemma {:induction false} SubPrefixed(front: seq<Stored>, a: seq<Stored>, b: seq<Stored>)
    requires Sub(a, b)
    ensures Sub(front + a, front + b)
    decreases |b|
  {
    if b == [] {
      SubSelf(front);
      assert front + a == front && front + b == front;
    } else {
      var n := |b| - 1;
      assert (front + b)[..|front + b| - 1] == front + b[..n];
      if Sub(a, b[..n]) {
        SubPrefixed(front, a, b[..n]);
      } else {
        SubPrefixed(front, a[..|a| - 1], b[..n]);
        assert (front + a)[..|front + a| - 1] == front + a[..|a| - 1];
      }
    }
  }

  lemma {:induction false} RemovalIsSub(s: seq<Stored>, id: RequestId)
    ensures Sub(RemoveFirst(s, id), s)
    decreases |s|
  {
    hide Has;
    if s != [] {
      var n := |s| - 1;
      RemovalIsSub(s[..n], id);
      SubSelf(s[..n]);
      SubSelf(s);
      assert s == s[..n] + [s[n]];
      SubGrows(RemoveFirst(s[..n], id), s[..n], s[n]);
    }
  }

  /** Normal requests in the order in which they were accepted. */
  function AcceptedNormals(h: seq<Fact>): seq<Stored> {
    if h == [] then []
    else
      var before, last := AcceptedNormals(h[..|h| - 1]), h[|h| - 1];
      if last.Accepted? && !IsAbort(last.packet) then before + [last.packet] else before
  }

  /** Normal requests in the order in which they left for the robot. */
  function SentNormals(h: seq<Fact>): seq<Stored> {
    if h == [] then []
    else
      var before, last := SentNormals(h[..|h| - 1]), h[|h| - 1];
      if last.Sent? && !IsAbort(last.packet) then before + [last.packet] else before
  }

  predicate Cancels(h: seq<Fact>) {
    exists i :: 0 <= i < |h| && h[i].Cancelled?
  }

  lemma {:induction false} NormalsOfStep(h: seq<Fact>, c: Core, input: Input)
    ensures AcceptedNormals(h + Facts(c, input)) ==
              if input.FromUpstream? && RouteRequest(c, input.packet, input.upstream).1 == Queued && !IsAbort(input.packet)
              then AcceptedNormals(h) + [input.packet] else AcceptedNormals(h)
    ensures SentNormals(h + Facts(c, input)) ==
              if input.TakeForDuo? && NextForDuo(c, input.now).Some? && !IsAbort(NextForDuo(c, input.now).value)
              then SentNormals(h) + [NextForDuo(c, input.now).value] else SentNormals(h)
  {
    hide Has, RemoveFirst, RouteRequest, RouteDuo, Cancel, NextForDuo, AcceptedNormals, SentNormals, IsAbort;
    var fs := Facts(c, input);
    FewFacts(c, input);
    FactsOneByOne(h, fs);
    if fs != [] {
      OneFact(h, fs[0]);
      if |fs| == 2 {
        OneFact(h + [fs[0]], fs[1]);
      }
    }
  }

  /** How each input changes the normal queue. */
  lemma {:induction false} NormalQueueOfStep(c: Core, input: Input)
    requires Bounded(c)
    ensures Step(c, input).normal ==
              match input
              case FromUpstream(p, upstream) =>
                if RouteRequest(c, p, upstream).1 == Queued && !IsAbort(p) then c.normal + [p] else c.normal
              case TakeForDuo(now) =>
                if NextForDuo(c, now).Some? && !IsAbort(NextForDuo(c, now).value) then c.normal[1..] else c.normal
              case CancelRequest(id) => if Cancel(c, id).1 then RemoveFirst(c.normal, id) else c.normal
              case _ => c.normal
    ensures input.TakeForDuo? && NextForDuo(c, input.now).Some? && !IsAbort(NextForDuo(c, input.now).value) ==>
              c.normal != [] && c.normal[0] == NextForDuo(c, input.now).value
  {
    hide Has, RemoveFirst;
  }

  /** In every run, the normal requests that have left, followed by those still queued, are
      accepted ones in acceptance order, each at most once; without cancellations they are
      all of them. */
  lemma {:induction false} NormalsLeaveInOrder(inputs: seq<Input>)
    ensures Sub(SentNormals(History(inputs)) + Run(inputs).normal, AcceptedNormals(History(inputs)))
    ensures !Cancels(History(inputs)) ==>
              SentNormals(History(inputs)) + Run(inputs).normal == AcceptedNormals(History(inputs))
  {
    hide Has, RemoveFirst, Step, Facts, Bounded, Cancels, Sub;
    if inputs == [] {
      SubSelf([]);
      assert SentNormals(History(inputs)) + Run(inputs).normal == [] == AcceptedNormals(History(inputs));
    } else {
      var n := |inputs| - 1;
      var h, c := History(inputs[..n]), Run(inputs[..n]);
      NormalsLeaveInOrder(inputs[..n]);
      ResponsesAnswerRequests(inputs[..n]);
      NormalsOfStep(h, c, inputs[n]);
      NormalQueueOfStep(c, inputs[n]);
      CancelsLater(h, c, inputs[n]);
      NormalsStep(SentNormals(h), AcceptedNormals(h), c, inputs[n]);
    }
  }

  lemma {:induction false} CancelsLater(h: seq<Fact>, c: Core, input: Input)
    ensures Cancels(h) ==> Cancels(h + Facts(c, input))
    ensures input.CancelRequest? && Cancel(c, input.requestId).1 ==> Cancels(h + Facts(c, input))
  {
    var facts := Facts(c, input);
    if Cancels(h) {
      var i :| 0 <= i < |h| && h[i].Cancelled?;
      assert (h + facts)[i].Cancelled?;
    }
    if input.CancelRequest? && Cancel(c, input.requestId).1 {
      assert (h + facts)[|h|].Cancelled?;
    }
  }

  /** One step of the account of normal requests. */
  lemma {:induction false} NormalsStep(sent: seq<Stored>, accepted: seq<Stored>, c: Core, input: Input)
    requires Sub(sent + c.normal, accepted)
    ensures input.FromUpstream? ==> Sub(sent + (c.normal + [input.packet]), accepted + [input.packet])
    ensures input.FromUpstream? && sent + c.normal == accepted ==> sent + (c.normal + [input.packet]) == accepted + [input.packet]
    ensures c.normal != [] ==> (sent + [c.normal[0]]) + c.normal[1..] == sent + c.normal
    ensures input.CancelRequest? ==> Sub(sent + RemoveFirst(c.normal, input.requestId), accepted)
  {
    hide Has, RemoveFirst, Sub;
    match input {
      case FromUpstream(p, _) =>
        SubGrows(sent + c.normal, accepted, p);
        assert sent + (c.normal + [p]) == sent + c.normal + [p];
      case CancelRequest(id) =>
        RemovalIsSub(c.normal, id);
        SubPrefixed(sent, RemoveFirst(c.normal, id), c.normal);
        SubTransitive(sent + RemoveFirst(c.normal, id), sent + c.normal, accepted);
      case _ =>
    }
  }

  // ---- deliveries -----------------------------------------------------------------

  function QueueOf(c: Core, upstream: Upstream): seq<Stored> {
    match upstream
    case Usb => c.toUsb
    case Network => c.toNetwork
  }

  /** What a packet from the robot puts on the way to an upstream: an answer to that
      upstream's own request, or an event. The network sees every event, the USB host those
      of its own operation; a full queue loses the packet. */
  lemma {:induction false} DeliveryIsOwned(c: Core, p: Stored, upstream: Upstream)
    ensures var before, after := QueueOf(c, upstream), QueueOf(RouteDuo(c, p).0, upstream);
            && (after == before || after == before + [p])
            && (after != before ==>
                  (p.kind == Event && (upstream == Network || c.eventUpstream == Some(Usb)))
                  || (p.kind == Response && p.requestId in c.routes && c.routes[p.requestId] == upstream))
  {
  }

  /** Packets put on the way to an upstream, in order. */
  function Deliveries(inputs: seq<Input>, upstream: Upstream): seq<Stored> {
    if inputs == [] then []
    else
      var before, input := inputs[..|inputs| - 1], inputs[|inputs| - 1];
      Deliveries(before, upstream) + Added(Run(before), input, upstream)
  }

  function Added(c: Core, input: Input, upstream: Upstream): seq<Stored> {
    if input.FromDuo? && QueueOf(RouteDuo(c, input.packet).0, upstream) != QueueOf(c, upstream) then [input.packet] else []
  }

  /** Packets that an upstream has collected. */
  function Collected(inputs: seq<Input>, upstream: Upstream): seq<Stored> {
    if inputs == [] then []
    else
      var before, input := inputs[..|inputs| - 1], inputs[|inputs| - 1];
      Collected(before, upstream) + Handed(Run(before), input, upstream)
  }

  function Handed(c: Core, input: Input, upstream: Upstream): seq<Stored> {
    if input.TakeForUsb? && upstream == Usb && c.toUsb != [] then [c.toUsb[0]]
    else if input.TakeForNetwork? && upstream == Network && c.toNetwork != [] && input.room >= |EncodedPacket(c.toNetwork[0])|
    then [c.toNetwork[0]]
    else []
  }

  function ResponsesOf(s: seq<Stored>): seq<Stored> {
    if s == [] then []
    else ResponsesOf(s[..|s| - 1]) + if s[|s| - 1].kind == Response then [s[|s| - 1]] else []
  }

  /** Answers that the history records for an upstream. */
  function AnswersTo(h: seq<Fact>, upstream: Upstream): seq<Stored> {
    if h == [] then []
    else
      var f := h[|h| - 1];
      AnswersTo(h[..|h| - 1], upstream) + if f.Answered? && f.upstream == upstream then [f.packet] else []
  }

  /** How one input changes the queue of an upstream. */
  lemma {:induction false} QueueOfStep(c: Core, input: Input, upstream: Upstream)
    ensures Handed(c, input, upstream) + QueueOf(Step(c, input), upstream)
         == QueueOf(c, upstream) + Added(c, input, upstream)
  {
    hide Has, RemoveFirst, EncodedPacket;
    match input {
      case FromDuo(p) =>
        DeliveryIsOwned(c, p, upstream);
        hide RouteDuo;
      case TakeForDuo(now) => hide NextForDuo, RetryDue;
      case _ =>
    }
  }

  /** In every run an upstream collects what is delivered to it, in order and once each. */
  lemma {:induction false} DeliveredInOrder(inputs: seq<Input>, upstream: Upstream)
    ensures Collected(inputs, upstream) + QueueOf(Run(inputs), upstream) == Deliveries(inputs, upstream)
  {
    hide Step, Handed, Added, QueueOf;
    if inputs == [] {
      NothingQueued(upstream);
    } else {
      var n := |inputs| - 1;
      var c := Run(inputs[..n]);
      DeliveredInOrder(inputs[..n], upstream);
      QueueOfStep(c, inputs[n], upstream);
      Regrouped(Collected(inputs[..n], upstream), Handed(c, inputs[n], upstream), QueueOf(Step(c, inputs[n]), upstream),
                QueueOf(c, upstream), Added(c, inputs[n], upstream));
    }
  }

  lemma {:induction false} NothingQueued(upstream: Upstream)
    ensures QueueOf(IDLE, upstream) == []
  {
  }

  lemma {:induction false} Regrouped(collected: seq<Stored>, handed: seq<Stored>, after: seq<Stored>, before: seq<Stored>, added: seq<Stored>)
    requires handed + after == before + added
    ensures collected + handed + after == collected + before + added
  {
    assert collected + handed + after == collected + (handed + after);
    assert collected + before + added == collected + (before + added);
  }

  /** In every run, whatever the robot sends: the responses delivered to an upstream are,
      in order, among the answers to that upstream's own requests. */
  lemma {:induction false} DeliveriesAreAnswers(inputs: seq<Input>, upstream: Upstream)
    ensures Sub(ResponsesOf(Deliveries(inputs, upstream)), AnswersTo(History(inputs), upstream))
  {
    hide Step, Sub, Added, Facts;
    if inputs == [] {
      SubSelf([]);
    } else {
      var n := |inputs| - 1;
      var c := Run(inputs[..n]);
      var before, facts := AnswersTo(History(inputs[..n]), upstream), Facts(c, inputs[n]);
      DeliveriesAreAnswers(inputs[..n], upstream);
      AnswersAppend(History(inputs[..n]), facts, upstream);
      var responses := ResponsesOf(Deliveries(inputs[..n], upstream));
      AddedIsAnswer(c, inputs[n], upstream);
      ResponsesAppend(Deliveries(inputs[..n], upstream), Added(c, inputs[n], upstream));
      if ResponsesOf(Added(c, inputs[n], upstream)) != [] {
        SubGrows(responses, before, inputs[n].packet);
      } else {
        assert responses + ResponsesOf(Added(c, inputs[n], upstream)) == responses;
        SubExtends(responses, before, AnswersTo(facts, upstream));
      }
    }
  }

  lemma {:induction false} AnswersAppend(h: seq<Fact>, fs: seq<Fact>, upstream: Upstream)
    ensures AnswersTo(h + fs, upstream) == AnswersTo(h, upstream) + AnswersTo(fs, upstream)
    decreases |fs|
  {
    if fs == [] {
      assert h + fs == h;
    } else {
      var n := |fs| - 1;
      assert (h + fs)[..|h + fs| - 1] == h + fs[..n];
      AnswersAppend(h, fs[..n], upstream);
    }
  }

  lemma {:induction false} ResponsesAppend(a: seq<Stored>, b: seq<Stored>)
    requires |b| <= 1
    ensures ResponsesOf(a + b) == ResponsesOf(a) + ResponsesOf(b)
  {
    if b == [] {
      assert a + b == a;
    } else {
      assert (a + b)[..|a + b| - 1] == a && b[..0] == [];
    }
  }

  /** A response that is put on the way is recorded as an answer. */
  lemma {:induction false} AddedIsAnswer(c: Core, input: Input, upstream: Upstream)
    ensures |Added(c, input, upstream)| <= 1
    ensures ResponsesOf(Added(c, input, upstream)) != [] ==>
              input.FromDuo? && ResponsesOf(Added(c, input, upstream)) == [input.packet]
              && AnswersTo(Facts(c, input), upstream) == [input.packet]
  {
    if input.FromDuo? {
      var p := input.packet;
      DeliveryIsOwned(c, p, upstream);
      hide RouteDuo;
      assert [p][..0] == [];
      if p.kind == Response && p.requestId in c.routes {
        var facts := [Heard(p.requestId), Answered(p, c.routes[p.requestId])];
        assert Facts(c, input) == facts;
        assert facts[..1] == [Heard(p.requestId)] && facts[..1][..0] == [];
        assert AnswersTo(facts[..1], upstream) == [];
        assert AnswersTo(facts, upstream) == AnswersTo(facts[..1], upstream)
                 + if c.routes[p.requestId] == upstream then [p] else [];
      }
    }
  }

  // ---- aborts ---------------------------------------------------------------------

  /** The latest abort that has left and has been neither answered nor cancelled since, and
      when it left last. */
  function LatestAbort(h: seq<Fact>): Option<(Stored, nat)> {
    if h == [] then None else AbortAfter(LatestAbort(h[..|h| - 1]), h[|h| - 1])
  }

  function AbortAfter(before: Option<(Stored, nat)>, f: Fact): Option<(Stored, nat)> {
    match f
    case Sent(p, now) => if IsAbort(p) then Some((p, now)) else before
    case Heard(id) => if before.Some? && before.value.0.requestId == id then None else before
    case Cancelled(id) => if before.Some? && before.value.0.requestId == id then None else before
    case _ => before
  }

  function Retry(latest: Option<(Stored, nat)>): Option<PendingAbort> {
    if latest.None? then None
    else Some(PendingAbort(latest.value.0, SaturatingAdd(latest.value.1, ABORT_RETRY_INTERVAL_MS)))
  }

  /** How each input changes the pending abort. */
  lemma {:induction false} PendingOfStep(c: Core, input: Input)
    ensures Step(c, input).pendingAbort ==
              match input
              case FromDuo(p) => if p.kind == Response && PendingIs(c, p.requestId) then None else c.pendingAbort
              case TakeForDuo(now) =>
                if NextForDuo(c, now).Some? && IsAbort(NextForDuo(c, now).value)
                then Some(PendingAbort(NextForDuo(c, now).value, SaturatingAdd(now, ABORT_RETRY_INTERVAL_MS)))
                else c.pendingAbort
              case CancelRequest(id) => if Cancel(c, id).1 && PendingIs(c, id) then None else c.pendingAbort
              case _ => c.pendingAbort
  {
    hide Has, RemoveFirst;
  }

  lemma {:induction false} AbortOfStep(h: seq<Fact>, c: Core, input: Input)
    requires c.pendingAbort == Retry(LatestAbort(h))
    ensures Step(c, input).pendingAbort == Retry(LatestAbort(h + Facts(c, input)))
  {
    hide Has, RemoveFirst, RouteRequest, RouteDuo, Cancel, SaturatingAdd, Step, LatestAbort, NextForDuo, IsAbort;
    PendingOfStep(c, input);
    var fs := Facts(c, input);
    FewFacts(c, input);
    FactsOneByOne(h, fs);
    if fs != [] {
      OneFact(h, fs[0]);
      if |fs| == 2 {
        OneFact(h + [fs[0]], fs[1]);
      }
    }
  }

  /** In every run the pending abort is the latest one that has left and has had no response
      and no cancellation since, due again 100 ms after it left last. */
  lemma {:induction false} PendingAbortIsLatest(inputs: seq<Input>)
    ensures Run(inputs).pendingAbort == Retry(LatestAbort(History(inputs)))
  {
    hide Step, Facts, LatestAbort, Retry;
    if inputs == [] {
      NoAbortYet();
    } else {
      var n := |inputs| - 1;
      PendingAbortIsLatest(inputs[..n]);
      AbortOfStep(History(inputs[..n]), Run(inputs[..n]), inputs[n]);
    }
  }

  lemma {:induction false} NoAbortYet()
    ensures Retry(LatestAbort([])) == None
  {
  }

  /** What leaves for the robot next, in every run: a queued abort if there is one; else the
      latest unanswered abort, if 100 ms have passed since it left; else a normal request. */
  lemma {:induction false} AbortsLeaveFirst(inputs: seq<Input>, now: nat)
    ensures var c, next := Run(inputs), NextForDuo(Run(inputs), now);
            var latest := LatestAbort(History(inputs));
            && (c.urgent != [] ==> next == Some(c.urgent[0]) && IsAbort(next.value))
            && (c.urgent == [] && next.Some? && IsAbort(next.value) ==>
                  latest.Some? && next.value == latest.value.0
                  && now >= SaturatingAdd(latest.value.1, ABORT_RETRY_INTERVAL_MS))
            && (c.urgent == [] && latest.Some? && now >= SaturatingAdd(latest.value.1, ABORT_RETRY_INTERVAL_MS) ==>
                  next == Some(latest.value.0))
            && (next.Some? && !IsAbort(next.value) ==> c.urgent == [] && c.normal != [] && next.value == c.normal[0])
  {
    hide History, LatestAbort;
    PendingAbortIsLatest(inputs);
    ResponsesAnswerRequests(inputs);
  }

  // ---- draining -------------------------------------------------------------------

  /** The gateway after `n` packets have been taken from it at one moment. */
  function After(c: Core, now: nat, n: nat): Core
    decreases n
  {
    if n == 0 then c else After(DequeueDuo(c, now), now, n - 1)
  }

  /** Before the last representable moment a retry is always put off past the present; at
      that moment it is due for ever. */
  predicate CanDrain(c: Core, now: nat) {
    now < LAST_MS || (c.urgent == [] && c.pendingAbort.None?)
  }

  /** All packets that leave when the gateway is drained at one moment. */
  function Drained(c: Core, now: nat): seq<Stored>
    requires Bounded(c) && CanDrain(c, now)
    decreases |c.urgent| + |c.normal| + (if RetryDue(c, now) then 1 else 0)
  {
    if NextForDuo(c, now).None? then []
    else
      DequeueStaysBounded(c, now);
      [NextForDuo(c, now).value] + Drained(DequeueDuo(c, now), now)
  }

  lemma {:induction false} DequeueStaysBounded(c: Core, now: nat)
    requires Bounded(c)
    ensures Bounded(DequeueDuo(c, now))
  {
  }

  /** A drain that can end does so within one frame for each queued packet and one retry. */
  lemma {:induction false} DrainEnds(c: Core, now: nat)
    requires Bounded(c) && CanDrain(c, now)
    ensures |Drained(c, now)| <= |c.urgent| + |c.normal| + 1
    ensures c.urgent == [] ==> |Drained(c, now)| == |c.normal| + if RetryDue(c, now) then 1 else 0
    ensures NextForDuo(After(c, now, |Drained(c, now)|), now).None?
    decreases |c.urgent| + |c.normal| + (if RetryDue(c, now) then 1 else 0)
  {
    if NextForDuo(c, now).Some? {
      DequeueStaysBounded(c, now);
      DrainEnds(DequeueDuo(c, now), now);
    }
  }

  /** At the last moment an abort, queued or pending, keeps the gateway sending. */
  lemma {:induction false} NeverDrains(c: Core, n: nat)
    requires Bounded(c) && !CanDrain(c, LAST_MS)
    ensures NextForDuo(After(c, LAST_MS, n), LAST_MS).Some?
    decreases n
  {
    if n > 0 {
      DequeueStaysBounded(c, LAST_MS);
      NeverDrains(DequeueDuo(c, LAST_MS), n - 1);
    }
  }

  /** Draining at one representable moment ends exactly when that moment is not the last
      one, or no abort is queued or pending. */
  lemma {:induction false} DrainEndsExactly(inputs: seq<Input>, now: nat)
    requires now <= LAST_MS
    ensures (exists n: nat :: NextForDuo(After(Run(inputs), now, n), now).None?) <==> CanDrain(Run(inputs), now)
  {
    var c := Run(inputs);
    ResponsesAnswerRequests(inputs);
    if CanDrain(c, now) {
      DrainEnds(c, now);
    } else {
      forall n: nat
        ensures NextForDuo(After(c, now, n), now).Some?
      {
        NeverDrains(c, n);
      }
    }
  }

  /** The failing moment is reached: an abort is accepted, leaves at the last moment, and is
      sent again without end. */
  lemma {:induction false} DrainAtLastMoment(p: Stored, upstream: Upstream, n: nat)
    requires IsAbort(p) && p.requestId != 0
    ensures NextForDuo(After(Run([FromUpstream(p, upstream), TakeForDuo(LAST_MS)]), LAST_MS, n), LAST_MS) == Some(p)
  {
    var inputs := [FromUpstream(p, upstream), TakeForDuo(LAST_MS)];
    assert inputs[..1] == [FromUpstream(p, upstream)] && inputs[..1][..0] == [];
    var accepted := Step(IDLE, FromUpstream(p, upstream));
    assert Run(inputs[..1]) == accepted;
    assert Run(inputs) == Step(accepted, TakeForDuo(LAST_MS));
    OnlyAbort(Run(inputs), p, n);
  }

  lemma {:induction false} OnlyAbort(c: Core, p: Stored, n: nat)
    requires c.urgent == [] && c.pendingAbort == Some(PendingAbort(p, LAST_MS)) && IsAbort(p)
    ensures NextForDuo(After(c, LAST_MS, n), LAST_MS) == Some(p)
    decreases n
  {
    if n > 0 {
      OnlyAbort(DequeueDuo(c, LAST_MS), p, n - 1);
    }
  }

  // ---- what the robot reads -------------------------------------------------------

  /** Whether a packet has been accepted. */
  ghost predicate Known(h: seq<Fact>, p: Stored) {
    exists i :: 0 <= i < |h| && h[i].Accepted? && h[i].packet == p
  }

  /** Everything that may still leave for the robot has been accepted. */
  ghost predicate HoldsAccepted(c: Core, h: seq<Fact>) {
    && (forall p :: p in c.urgent ==> Known(h, p))
    && (forall p :: p in c.normal ==> Known(h, p))
    && (c.pendingAbort.Some? ==> Known(h, c.pendingAbort.value.packet))
  }

  lemma {:induction false} KnownGrows(h: seq<Fact>, more: seq<Fact>, p: Stored)
    requires Known(h, p)
    ensures Known(h + more, p)
  {
    var i :| 0 <= i < |h| && h[i].Accepted? && h[i].packet == p;
    assert (h + more)[i] == h[i];
  }

  lemma {:induction false} RobotLeavesQueues(c: Core, p: Stored)
    ensures RouteDuo(c, p).0.urgent == c.urgent && RouteDuo(c, p).0.normal == c.normal
  {
  }

  lemma {:induction false} RequestEnters(c: Core, p: Stored, upstream: Upstream, other: Stored)
    requires var after := RouteRequest(c, p, upstream).0; other in after.urgent || other in after.normal
    ensures other in c.urgent || other in c.normal || (other == p && RouteRequest(c, p, upstream).1 == Queued)
  {
    hide Has, IsAbort, PendingIs;
  }

  lemma {:induction false} DequeueTakes(c: Core, now: nat, p: Stored)
    requires p in DequeueDuo(c, now).urgent || p in DequeueDuo(c, now).normal
    ensures p in c.urgent || p in c.normal
  {
    hide IsAbort, RetryDue, SaturatingAdd;
  }

  /** No input brings anything else into the queues than the packet that it has accepted. */
  lemma {:induction false} OnlyAcceptedEnter(c: Core, input: Input, p: Stored)
    requires p in Step(c, input).urgent || p in Step(c, input).normal
    ensures p in c.urgent || p in c.normal || (input.FromUpstream? && Facts(c, input) == [Accepted(p, input.upstream)])
  {
    hide Has, RemoveFirst, RouteRequest, RouteDuo, DequeueDuo, NextForDuo, EncodedPacket;
    match input {
      case FromUpstream(packet, upstream) => RequestEnters(c, packet, upstream, p);
      case FromDuo(packet) => RobotLeavesQueues(c, packet);
      case TakeForDuo(now) => DequeueTakes(c, now, p);
      case CancelRequest(id) =>
        RemovalKeeps(c.normal, id);
        RemovalKeeps(c.urgent, id);
      case _ =>
    }
  }

  lemma {:induction false} NextIsHeld(c: Core, h: seq<Fact>, now: nat)
    requires HoldsAccepted(c, h) && NextForDuo(c, now).Some?
    ensures Known(h, NextForDuo(c, now).value)
  {
    hide Known;
  }

  lemma {:induction false} StepHoldsAccepted(h: seq<Fact>, c: Core, input: Input)
    requires HoldsAccepted(c, h)
    ensures HoldsAccepted(Step(c, input), h + Facts(c, input))
  {
    hide Step, Facts, Known, NextForDuo, RouteDuo, Cancel, RouteRequest;
    var after, fs := Step(c, input), Facts(c, input);
    forall p | p in after.urgent || p in after.normal
      ensures Known(h + fs, p)
    {
      OnlyAcceptedEnter(c, input, p);
      if p in c.urgent || p in c.normal {
        KnownGrows(h, fs, p);
      } else {
        AcceptedIsKnown(h, p, input.upstream);
      }
    }
    PendingOfStep(c, input);
    if after.pendingAbort.Some? {
      if input.TakeForDuo? && NextForDuo(c, input.now).Some? {
        NextIsHeld(c, h, input.now);
      }
      KnownGrows(h, fs, after.pendingAbort.value.packet);
    }
  }

  lemma {:induction false} AcceptedIsKnown(h: seq<Fact>, p: Stored, upstream: Upstream)
    ensures Known(h + [Accepted(p, upstream)], p)
  {
    assert (h + [Accepted(p, upstream)])[|h|] == Accepted(p, upstream);
  }

  lemma {:induction false} RunHoldsAccepted(inputs: seq<Input>)
    ensures HoldsAccepted(Run(inputs), History(inputs))
  {
    hide Step, Facts, Known;
    if inputs != [] {
      var n := |inputs| - 1;
      RunHoldsAccepted(inputs[..n]);
      StepHoldsAccepted(History(inputs[..n]), Run(inputs[..n]), inputs[n]);
    }
  }

  lemma {:induction false} SentIsNext(c: Core, input: Input, i: nat)
    requires i < |Facts(c, input)| && Facts(c, input)[i].Sent?
    ensures i == 0 && input.TakeForDuo? && NextForDuo(c, input.now) == Some(Facts(c, input)[i].packet)
  {
    hide RouteRequest, RouteDuo, Cancel, NextForDuo;
  }

  lemma {:induction false} SentWasAccepted(inputs: seq<Input>, i: nat)
    requires i < |History(inputs)| && History(inputs)[i].Sent?
    ensures Known(History(inputs)[..i], History(inputs)[i].packet)
  {
    hide Step, Facts, Known;
    var n := |inputs| - 1;
    var before, c := History(inputs[..n]), Run(inputs[..n]);
    assert History(inputs) == before + Facts(c, inputs[n]);
    if i < |before| {
      SentWasAccepted(inputs[..n], i);
      assert History(inputs)[..i] == before[..i];
    } else {
      SentIsNext(c, inputs[n], i - |before|);
      RunHoldsAccepted(inputs[..n]);
      NextIsHeld(c, before, inputs[n].now);
      assert History(inputs)[..i] == before;
    }
  }

  /** In every run, whatever leaves for the robot is a packet that was accepted before, and
      its frame parses there to that packet. */
  lemma {:induction false} SentFramesDecode(inputs: seq<Input>, i: nat)
    requires i < |History(inputs)| && History(inputs)[i].Sent?
    ensures var p := History(inputs)[i].packet;
            && (exists j :: 0 <= j < i && History(inputs)[j].Accepted? && History(inputs)[j].packet == p)
            && |UartFrame(p)| <= MAX_UART_FRAME_LEN && ParsedFrame(UartFrame(p), MAX_PACKET_LEN) == Ok(p)
  {
    hide History, UartFrame, ParsedFrame;
    var p := History(inputs)[i].packet;
    SentWasAccepted(inputs, i);
    var j :| 0 <= j < |History(inputs)[..i]| && History(inputs)[..i][j].Accepted? && History(inputs)[..i][j].packet == p;
    assert History(inputs)[j] == History(inputs)[..i][j];
    FrameRoundTrip(p);
  }

  // ---- who owns the events --------------------------------------------------------

  /** Whether an event that arrives after the inputs finds room with everyone who is to have
      it; the USB host comes first. */
  predicate EventFits(inputs: seq<Input>)
    decreases |inputs|, 1
  {
    && (Owner(inputs) == Some(Usb) ==> |QueueOf(Run(inputs), Usb)| < 4)
    && |QueueOf(Run(inputs), Network)| < 4
  }

  /** The upstream whose operation was accepted last, until an event that ends it has been
      passed on. */
  function Owner(inputs: seq<Input>): Option<Upstream>
    decreases |inputs|, 0
  {
    if inputs == [] then None
    else
      var before, input := inputs[..|inputs| - 1], inputs[|inputs| - 1];
      var outstanding := Outstanding(History(before));
      if input.FromDuo? && input.packet.kind == Response && input.packet.opcode == 0x1000 && input.packet.requestId in outstanding then
        Some(outstanding[input.packet.requestId])
      else if input.FromDuo? && input.packet.kind == Event && input.packet.opcode in {0x2006, 0x2007, 0x2009, 0x20ff}
              && EventFits(before) then None
      else Owner(before)
  }

  /** How the robot's packets change the owner. */
  lemma {:induction false} OwnerOfStep(c: Core, input: Input)
    ensures Step(c, input).eventUpstream ==
              if input.FromDuo? && input.packet.kind == Response && input.packet.opcode == 0x1000 && input.packet.requestId in c.routes then
                Some(c.routes[input.packet.requestId])
              else if input.FromDuo? && input.packet.kind == Event && input.packet.opcode in {0x2006, 0x2007, 0x2009, 0x20ff}
                      && (c.eventUpstream == Some(Usb) ==> |c.toUsb| != 4) && |c.toNetwork| != 4 then None
              else c.eventUpstream
  {
    hide Has, RemoveFirst, EncodedPacket, SaturatingAdd, RetryDue, IsAbort, PendingIs, NextForDuo;
    match input {
      case FromUpstream(p, upstream) => hide RouteDuo, DequeueDuo, Cancel;
      case FromDuo(p) => hide RouteRequest, DequeueDuo, Cancel;
      case TakeForDuo(now) => hide RouteRequest, RouteDuo, Cancel;
      case CancelRequest(id) => hide RouteRequest, RouteDuo, DequeueDuo;
      case _ => hide RouteRequest, RouteDuo, DequeueDuo, Cancel;
    }
  }

  lemma {:induction false} OwnerIsTracked(inputs: seq<Input>)
    ensures Run(inputs).eventUpstream == Owner(inputs)
  {
    hide Step, Outstanding, History, Bounded, Lawful;
    if inputs != [] {
      var before := inputs[..|inputs| - 1];
      OwnerIsTracked(before);
      ResponsesAnswerRequests(before);
      QueuesAreShort(Run(before));
      OwnerOfStep(Run(before), inputs[|inputs| - 1]);
    }
  }

  lemma {:induction false} QueuesAreShort(c: Core)
    requires Bounded(c)
    ensures |c.toUsb| <= 4 && |c.toNetwork| <= 4
  {
  }

  // ---- what the robot's packets reach ---------------------------------------------

  lemma {:induction false} OneMoreInput(inputs: seq<Input>, input: Input)
    ensures Run(inputs + [input]) == Step(Run(inputs), input)
    ensures History(inputs + [input]) == History(inputs) + Facts(Run(inputs), input)
  {
    hide Step, Facts;
    assert (inputs + [input])[..|inputs + [input]| - 1] == inputs;
  }

  lemma {:induction false} ResponseGoes(c: Core, p: Stored, upstream: Upstream)
    requires p.kind == Response && Bounded(c)
    ensures QueueOf(RouteDuo(c, p).0, upstream) == QueueOf(c, upstream)
              + if p.requestId in c.routes && c.routes[p.requestId] == upstream && |QueueOf(c, upstream)| < 4 then [p] else []
    ensures p.requestId !in c.routes ==> RouteDuo(c, p).1 == Some(UnmatchedResponse(p.requestId))
    ensures p.requestId in c.routes && c.routes[p.requestId] == upstream ==>
              RouteDuo(c, p).1 == if |QueueOf(c, upstream)| < 4 then None else Some(QueueFull(if upstream == Usb then ToUsb else ToNetwork))
  {
    assert QueueOf(c, upstream) + [] == QueueOf(c, upstream);
  }

  /** In every run a response reaches the upstream whose outstanding request it answers, if
      fewer than four packets wait there, and nobody else; the robot's link is told of a
      response that is not wanted or does not fit. */
  lemma {:induction false} ResponseIsDelivered(inputs: seq<Input>, p: Stored, upstream: Upstream)
    requires p.kind == Response
    ensures var outstanding := Outstanding(History(inputs));
            var mine := p.requestId in outstanding && outstanding[p.requestId] == upstream;
            var queue := QueueOf(Run(inputs), upstream);
            && QueueOf(Run(inputs + [FromDuo(p)]), upstream) == (if mine && |queue| < 4 then queue + [p] else queue)
            && (p.requestId !in outstanding ==> RouteDuo(Run(inputs), p).1 == Some(UnmatchedResponse(p.requestId)))
            && (mine ==> RouteDuo(Run(inputs), p).1 ==
                           if |queue| < 4 then None else Some(QueueFull(if upstream == Usb then ToUsb else ToNetwork)))
            && (mine ==> p.requestId !in Outstanding(History(inputs + [FromDuo(p)])))
  {
    hide Outstanding, History, RouteDuo, Lawful, Bounded;
    ResponsesAnswerRequests(inputs);
    ResponsesAnswerRequests(inputs + [FromDuo(p)]);
    OneMoreInput(inputs, FromDuo(p));
    ResponseGoes(Run(inputs), p, upstream);
    RoutesOfStep(Run(inputs), FromDuo(p));
    assert QueueOf(Run(inputs), upstream) + [] == QueueOf(Run(inputs), upstream);
  }

  lemma {:induction false} EventGoes(c: Core, p: Stored)
    requires p.kind == Event && Bounded(c)
    ensures var usb, after := c.eventUpstream == Some(Usb), RouteDuo(c, p);
            && after.0.toUsb == c.toUsb + (if usb && |c.toUsb| < 4 then [p] else [])
            && after.0.toNetwork == c.toNetwork + (if |c.toNetwork| < 4 && (usb ==> |c.toUsb| < 4) then [p] else [])
            && after.1 == if usb && |c.toUsb| == 4 then Some(QueueFull(ToUsb))
                          else if |c.toNetwork| == 4 then Some(QueueFull(ToNetwork)) else None
  {
    assert c.toUsb + [] == c.toUsb && c.toNetwork + [] == c.toNetwork;
  }

  /** In every run an event reaches the USB host when the operation accepted last is its own
      and has not ended, and it reaches the network in any case, if fewer than four packets
      wait; only an event that does not fit with the USB host is lost to the network too. */
  lemma {:induction false} EventIsDelivered(inputs: seq<Input>, p: Stored)
    requires p.kind == Event
    ensures var usb, network := QueueOf(Run(inputs), Usb), QueueOf(Run(inputs), Network);
            var own, after := Owner(inputs) == Some(Usb), Run(inputs + [FromDuo(p)]);
            && QueueOf(after, Usb) == (if own && |usb| < 4 then usb + [p] else usb)
            && QueueOf(after, Network) == (if |network| < 4 && (own ==> |usb| < 4) then network + [p] else network)
            && RouteDuo(Run(inputs), p).1 == (if own && |usb| == 4 then Some(QueueFull(ToUsb))
                                              else if |network| == 4 then Some(QueueFull(ToNetwork)) else None)
  {
    hide RouteDuo, Lawful, Bounded, Owner;
    ResponsesAnswerRequests(inputs);
    OwnerIsTracked(inputs);
    OneMoreInput(inputs, FromDuo(p));
    EventGoes(Run(inputs), p);
    assert Run(inputs).toUsb + [] == Run(inputs).toUsb && Run(inputs).toNetwork + [] == Run(inputs).toNetwork;
  }

  // ---- no answer is lost while there is room --------------------------------------

  /** Whether every answer to the upstream has found room. */
  ghost predicate RoomForAnswers(inputs: seq<Input>, upstream: Upstream) {
    inputs == []
    || (var before, input := inputs[..|inputs| - 1], inputs[|inputs| - 1];
        && RoomForAnswers(before, upstream)
        && (input.FromDuo? && input.packet.kind == Response ==> |QueueOf(Run(before), upstream)| < 4))
  }

  lemma {:induction false} AnswerIsAdded(c: Core, input: Input, upstream: Upstream)
    requires Bounded(c) && (input.FromDuo? && input.packet.kind == Response ==> |QueueOf(c, upstream)| < 4)
    ensures ResponsesOf(Added(c, input, upstream)) == AnswersTo(Facts(c, input), upstream)
  {
    if input.FromDuo? {
      var p := input.packet;
      AddedIsAnswer(c, input, upstream);
      if p.kind == Response {
        ResponseGoes(c, p, upstream);
        hide RouteDuo;
        var queue := QueueOf(c, upstream);
        assert |queue + [p]| == |queue| + 1 && queue + [] == queue;
        assert [p][..0] == [];
        AnswersOfResponse(c, p, upstream);
      } else {
        DeliveryIsOwned(c, p, upstream);
      }
    } else {
      hide Has, RouteRequest, Cancel, NextForDuo;
      NoAnswers(c, input, upstream);
    }
  }

  lemma {:induction false} AnswersOfResponse(c: Core, p: Stored, upstream: Upstream)
    requires p.kind == Response
    ensures AnswersTo(Facts(c, FromDuo(p)), upstream)
         == if p.requestId in c.routes && c.routes[p.requestId] == upstream then [p] else []
  {
    var heard: seq<Fact> := [Heard(p.requestId)];
    assert heard[..0] == [];
    assert AnswersTo(heard, upstream) == [];
    if p.requestId in c.routes {
      var both := heard + [Answered(p, c.routes[p.requestId])];
      assert both[..1] == heard;
      assert Facts(c, FromDuo(p)) == both;
      assert AnswersTo(both, upstream) == AnswersTo(both[..1], upstream) + if c.routes[p.requestId] == upstream then [p] else [];
    } else {
      assert Facts(c, FromDuo(p)) == heard;
    }
  }

  lemma {:induction false} NoAnswers(c: Core, input: Input, upstream: Upstream)
    requires !input.FromDuo?
    ensures AnswersTo(Facts(c, input), upstream) == []
  {
    hide Has, RouteRequest, Cancel, NextForDuo;
    var fs := Facts(c, input);
    if fs != [] {
      assert fs[..0] == [] && |fs| == 1;
    }
  }

  /** In every run, while there is room for them, the responses delivered to an upstream are
      all the answers to its requests, in order and once each. */
  lemma {:induction false} AllAnswersDelivered(inputs: seq<Input>, upstream: Upstream)
    requires RoomForAnswers(inputs, upstream)
    ensures ResponsesOf(Deliveries(inputs, upstream)) == AnswersTo(History(inputs), upstream)
  {
    hide Step, Added, Facts, QueueOf, Bounded, Lawful;
    if inputs != [] {
      var before, input := inputs[..|inputs| - 1], inputs[|inputs| - 1];
      var c := Run(before);
      AllAnswersDelivered(before, upstream);
      ResponsesAnswerRequests(before);
      AnswerIsAdded(c, input, upstream);
      AddedIsAnswer(c, input, upstream);
      ResponsesAppend(Deliveries(before, upstream), Added(c, input, upstream));
      AnswersAppend(History(before), Facts(c, input), upstream);
    }
  }

  // ---- which requests are accepted ------------------------------------------------

  /** An abort with the identifier has left and waits for its answer, or waits to leave. */
  ghost predicate AbortKnown(inputs: seq<Input>, id: RequestId) {
    || (LatestAbort(History(inputs)).Some? && LatestAbort(History(inputs)).value.0.requestId == id)
    || (exists i :: 0 <= i < |Run(inputs).urgent| && Run(inputs).urgent[i].requestId == id)
  }

  /** In every run a request is accepted, and then queued behind the others of its kind,
      exactly when it has an identifier that is neither zero nor in use, fewer than six
      requests are outstanding, and fewer than four normal requests, or fewer than two
      aborts, wait to leave. A repeated abort is ignored; everything else is refused with the
      first reason against it, and changes nothing. */
  lemma {:induction false} RequestsAreAccepted(inputs: seq<Input>, p: Stored, upstream: Upstream)
    ensures var c, outstanding := Run(inputs), Outstanding(History(inputs));
            var (after, outcome) := RouteRequest(c, p, upstream);
            var abort := p.kind == Request && p.opcode == 0x00ff;
            var full := if abort then |c.urgent| == 2 else |c.normal| == 4;
            && outcome == (if p.kind != Request then Refused(UpstreamPacketMustBeRequest)
                           else if p.requestId == 0 then Refused(UpstreamRequestIdMustBeNonZero)
                           else if abort && AbortKnown(inputs, p.requestId) then DuplicateAbortIgnored
                           else if p.requestId in outstanding then Refused(DuplicateId(p.requestId))
                           else if |outstanding| == 6 then Refused(QueueFull(Routes))
                           else if full then Refused(QueueFull(if abort then UrgentToDuo else NormalToDuo))
                           else Queued)
            && (outcome != Queued ==> after == c)
            && (outcome == Queued ==>
                  && after.urgent == (if abort then c.urgent + [p] else c.urgent)
                  && after.normal == (if abort then c.normal else c.normal + [p])
                  && Outstanding(History(inputs + [FromUpstream(p, upstream)])) == outstanding[p.requestId := upstream])
  {
    hide Outstanding, History, LatestAbort, Lawful;
    ResponsesAnswerRequests(inputs);
    ResponsesAnswerRequests(inputs + [FromUpstream(p, upstream)]);
    OneMoreInput(inputs, FromUpstream(p, upstream));
    PendingAbortIsLatest(inputs);
  }

  // ---- cancellation ---------------------------------------------------------------

  /** `after` is `before` without its first packet of the identifier, if it has one. */
  ghost predicate Without(before: seq<Stored>, id: RequestId, after: seq<Stored>) {
    if Has(before, id) then exists k: nat :: CutAt(before, id, k, after) else after == before
  }

  lemma {:induction false} RemovedIsWithout(s: seq<Stored>, id: RequestId)
    ensures Without(s, id, RemoveFirst(s, id))
  {
    hide CutAt, Has, RemoveFirst;
    var k := RemoveFirstMeaning(s, id);
  }

  /** In every run a cancellation is heeded exactly when the request is outstanding for the
      network. It then waits for no answer, its abort is not repeated, and in each queue the
      first packet with its identifier, and no other, is gone. */
  lemma {:induction false} CancellationIsHeeded(inputs: seq<Input>, id: RequestId)
    ensures var c, outstanding := Run(inputs), Outstanding(History(inputs));
            var (after, heeded) := Cancel(c, id);
            && heeded == (id in outstanding && outstanding[id] == Network)
            && (!heeded ==> after == c)
            && (heeded ==>
                  && Outstanding(History(inputs + [CancelRequest(id)])) == outstanding - {id}
                  && (LatestAbort(History(inputs)).Some? && LatestAbort(History(inputs)).value.0.requestId == id ==> after.pendingAbort.None?)
                  && Without(c.normal, id, after.normal) && Without(c.urgent, id, after.urgent))
  {
    hide Outstanding, History, LatestAbort, Lawful, Bounded, Has, RemoveFirst, Without;
    ResponsesAnswerRequests(inputs);
    ResponsesAnswerRequests(inputs + [CancelRequest(id)]);
    OneMoreInput(inputs, CancelRequest(id));
    PendingAbortIsLatest(inputs);
    RemovedIsWithout(Run(inputs).normal, id);
    RemovedIsWithout(Run(inputs).urgent, id);
  }
}
