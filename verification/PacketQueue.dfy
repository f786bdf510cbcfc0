/** The gateway's bounded containers: a ring buffer of packets and the table of request
    routes. */
module PacketQueue {
  import opened Bits
  import opened Options
  import opened Wire

  /** A packet that the gateway stores has been decoded, and so fits. */
  type Stored = p: Packet | |p.payload| <= MAX_PAYLOAD_LEN witness EMPTY_SLOT

  const EMPTY_SLOT := Packet(Request, 0, 0, [])

  // ---- the ring buffer ------------------------------------------------------------

  predicate Has(s: seq<Stored>, id: RequestId) {
    exists i :: 0 <= i < |s| && s[i].requestId == id
  }

  /** Without the first packet of an identifier; everything else keeps its place. */
  function RemoveFirst(s: seq<Stored>, id: RequestId): seq<Stored> {
    if s == [] then []
    else
      var before, last := s[..|s| - 1], s[|s| - 1];
      if Has(before, id) then RemoveFirst(before, id) + [last]
      else if last.requestId == id then before
      else s
  }

  lemma {:induction false} HasGrows(s: seq<Stored>, p: Stored, id: RequestId)
    ensures Has(s + [p], id) <==> Has(s, id) || p.requestId == id
  {
    var t := s + [p];
    assert t[|s|] == p;
    if Has(s, id) {
      var i :| 0 <= i < |s| && s[i].requestId == id;
      assert t[i].requestId == id;
    }
  }

  /** Cut at the first packet of the identifier. */
  ghost predicate CutAt(s: seq<Stored>, id: RequestId, k: nat, r: seq<Stored>) {
    k < |s| && s[k].requestId == id && !Has(s[..k], id) && r == s[..k] + s[k + 1..]
  }

  lemma {:induction false} RemoveFirstMeaning(s: seq<Stored>, id: RequestId) returns (k: nat)
    ensures !Has(s, id) ==> RemoveFirst(s, id) == s
    ensures Has(s, id) ==> CutAt(s, id, k, RemoveFirst(s, id))
    decreases |s|
  {
    k := 0;
    if s != [] {
      var n := |s| - 1;
      var before := s[..n];
      assert s == before + [s[n]];
      HasGrows(before, s[n], id);
      k := RemoveFirstMeaning(before, id);
      if Has(before, id) {
        assert s[..k] == before[..k] && s[k + 1..] == before[k + 1..] + [s[n]];
        assert before[..k] + before[k + 1..] + [s[n]] == before[..k] + (before[k + 1..] + [s[n]]);
      } else if s[n].requestId == id {
        k := n;
        assert s[n + 1..] == [] && s[..n] + [] == s[..n];
      }
    }
  }

  /** Position of an offset in a ring. */
  function Wrap(k: nat, n: nat): nat
    requires n > 0
  {
    if k < n then k else k - n
  }

  lemma {:induction false} WrapIsRemainder(k: nat, n: nat)
    requires n > 0 && k < 2 * n
    ensures k % n == Wrap(k, n)
  {
    RemainderIs(k, n, if k < n then 0 else 1, Wrap(k, n));
  }

  /** The packets of a ring, oldest first. */
  function Ring(slots: seq<Stored>, head: nat, len: nat): (s: seq<Stored>)
    requires head < |slots| && len <= |slots|
    ensures |s| == len
  {
    seq(len, i requires 0 <= i < len => slots[Wrap(head + i, |slots|)])
  }

  lemma {:induction false} RingPush(slots: seq<Stored>, head: nat, len: nat, packet: Stored)
    requires head < |slots| && len < |slots|
    ensures Ring(slots[Wrap(head + len, |slots|) := packet], head, len + 1) == Ring(slots, head, len) + [packet]
  {
    var after, was := Ring(slots[Wrap(head + len, |slots|) := packet], head, len + 1), Ring(slots, head, len);
    forall i | 0 <= i <= len
      ensures after[i] == (was + [packet])[i]
    {
      if i < len {
        assert Wrap(head + i, |slots|) != Wrap(head + len, |slots|) && was[i] == slots[Wrap(head + i, |slots|)];
      }
    }
  }

  lemma {:induction false} RingPop(slots: seq<Stored>, head: nat, len: nat)
    requires head < |slots| && 0 < len <= |slots|
    ensures Ring(slots, head, len)[0] == slots[head]
    ensures Ring(slots, Wrap(head + 1, |slots|), len - 1) == Ring(slots, head, len)[1..]
  {
    var after, was := Ring(slots, Wrap(head + 1, |slots|), len - 1), Ring(slots, head, len);
    assert was[0] == slots[Wrap(head + 0, |slots|)];
    forall i | 0 <= i < len - 1
      ensures after[i] == was[1..][i]
    {
      assert Wrap(Wrap(head + 1, |slots|) + i, |slots|) == Wrap(head + (i + 1), |slots|);
      assert was[i + 1] == slots[Wrap(head + (i + 1), |slots|)];
    }
  }

  class PacketQueue {
    const slots: array<Stored>
    var head: nat
    var len: nat

    ghost predicate Valid()
      reads this
    {
      0 < slots.Length && head < slots.Length && len <= slots.Length
    }

    ghost function Contents(): (s: seq<Stored>)
      reads this, slots
      requires Valid()
      ensures |s| == len
    {
      Ring(slots[..], head, len)
    }

    constructor (capacity: nat)
      requires capacity > 0
      ensures Valid() && fresh(slots) && slots.Length == capacity && Contents() == []
    {
      slots := new Stored[capacity](_ => EMPTY_SLOT);
      head := 0;
      len := 0;
    }

    method Push(packet: Stored) returns (ok: bool)
      requires Valid()
      modifies this`len, slots
      ensures Valid() && ok == (|old(Contents())| < slots.Length)
      ensures Contents() == if ok then old(Contents()) + [packet] else old(Contents())
    {
      if len == slots.Length {
        return false;
      }
      WrapIsRemainder(head + len, slots.Length);
      RingPush(slots[..], head, len, packet);
      var tail := (head + len) % slots.Length;
      slots[tail] := packet;
      len := len + 1;
      ok := true;
    }

    method Pop() returns (packet: Option<Stored>)
      requires Valid()
      modifies this`head, this`len
      ensures Valid()
      ensures old(Contents()) == [] ==> packet == None && Contents() == []
      ensures old(Contents()) != [] ==> packet == Some(old(Contents())[0]) && Contents() == old(Contents())[1..]
    {
      if len == 0 {
        return None;
      }
      RingPop(slots[..], head, len);
      packet := Some(slots[head]);
      WrapIsRemainder(head + 1, slots.Length);
      head := (head + 1) % slots.Length;
      len := len - 1;
    }

    method Peek() returns (packet: Option<Stored>)
      requires Valid()
      ensures packet == if Contents() == [] then None else Some(Contents()[0])
    {
      if len != 0 {
        RingPop(slots[..], head, len);
      }
      packet := if len != 0 then Some(slots[head]) else None;
    }

    method ContainsRequestId(id: RequestId) returns (found: bool)
      requires Valid()
      ensures found == Has(Contents(), id)
    {
      for offset := 0 to len
        invariant forall i :: 0 <= i < offset ==> Contents()[i].requestId != id
      {
        WrapIsRemainder(head + offset, slots.Length);
        assert Contents()[offset] == slots[(head + offset) % slots.Length];
        if slots[(head + offset) % slots.Length].requestId == id {
          return true;
        }
      }
      found := false;
    }

    /** Rotates the whole queue once, leaving out the first match. */
    method RemoveRequestId(id: RequestId) returns (removed: bool)
      requires Valid()
      modifies this, slots
      ensures Valid() && removed == Has(old(Contents()), id)
      ensures Contents() == RemoveFirst(old(Contents()), id)
    {
      hide Has, RemoveFirst, Ring;
      ghost var was := Contents();
      var originalLen := len;
      removed := false;
      RotatedNothing(was, id);
      for turn := 0 to originalLen
        invariant Valid() && |was| == originalLen
        invariant removed == Has(was[..turn], id) && Contents() == Rotation(was, turn, id)
      {
        hide Rotation;
        RotationTurns(was, turn, id, slots.Length);
        var packet := Pop();
        if !removed && packet.value.requestId == id {
          removed := true;
        } else {
          var pushed := Push(packet.value);
        }
      }
      RotatedAll(was, id);
    }
  }

  /** The queue after some of its packets have been rotated past the removal. */
  function Rotation(was: seq<Stored>, turn: nat, id: RequestId): seq<Stored>
    requires turn <= |was|
  {
    was[turn..] + RemoveFirst(was[..turn], id)
  }

  lemma {:induction false} RotationTurns(was: seq<Stored>, turn: nat, id: RequestId, capacity: nat)
    requires turn < |was| <= capacity
    ensures var now, p := Rotation(was, turn, id), was[turn];
            && now != [] && now[0] == p && |now[1..]| < capacity
            && Has(was[..turn + 1], id) == (Has(was[..turn], id) || p.requestId == id)
            && Rotation(was, turn + 1, id) == if !Has(was[..turn], id) && p.requestId == id then now[1..] else now[1..] + [p]
  {
    hide Has, RemoveFirst;
    var kept := RemoveFirst(was[..turn], id);
    assert was[turn..] == [was[turn]] + was[turn + 1..];
    assert was[..turn + 1] == was[..turn] + [was[turn]];
    Rotated(was[..turn], was[turn], id);
    RemoveFirstShrinks(was[..turn], id);
    assert Rotation(was, turn, id)[1..] == was[turn + 1..] + kept;
    assert was[turn + 1..] + kept + [was[turn]] == was[turn + 1..] + (kept + [was[turn]]);
  }

  lemma {:induction false} RotatedAll(was: seq<Stored>, id: RequestId)
    ensures was[..|was|] == was && Rotation(was, |was|, id) == RemoveFirst(was, id)
  {
    assert was[..|was|] == was && was[|was|..] == [];
  }

  lemma {:induction false} RemoveFirstShrinks(s: seq<Stored>, id: RequestId)
    ensures |RemoveFirst(s, id)| <= |s|
    decreases |s|
  {
    if s != [] {
      RemoveFirstShrinks(s[..|s| - 1], id);
    }
  }

  lemma {:induction false} RotatedNothing(was: seq<Stored>, id: RequestId)
    ensures !Has(was[..0], id) && was == Rotation(was, 0, id)
  {
  }

  lemma {:induction false} Rotated(s: seq<Stored>, p: Stored, id: RequestId)
    ensures Has(s + [p], id) == (Has(s, id) || p.requestId == id)
    ensures RemoveFirst(s + [p], id) == if !Has(s, id) && p.requestId == id then RemoveFirst(s, id) else RemoveFirst(s, id) + [p]
  {
    HasGrows(s, p, id);
    var k := RemoveFirstMeaning(s, id);
    assert (s + [p])[..|s + [p]| - 1] == s;
  }

  // ---- the route table ------------------------------------------------------------

  datatype Upstream = Usb | Network

  datatype Route = Route(requestId: RequestId, upstream: Upstream)

  const REQUEST_ROUTE_CAPACITY := 6

  type Table = t: seq<Option<Route>> | |t| == REQUEST_ROUTE_CAPACITY witness seq(REQUEST_ROUTE_CAPACITY, _ => None)

  const EMPTY_TABLE: Table := seq(REQUEST_ROUTE_CAPACITY, _ => None)

  function Filled(table: seq<Option<Route>>): nat {
    if table == [] then 0 else Filled(table[..|table| - 1]) + if table[|table| - 1].Some? then 1 else 0
  }

  lemma {:induction false} FilledUpdate(table: seq<Option<Route>>, i: nat, entry: Option<Route>)
    requires i < |table| && table[i].Some? != entry.Some?
    ensures Filled(table[i := entry]) == if entry.Some? then Filled(table) + 1 else Filled(table) - 1
    decreases |table|
  {
    var n := |table| - 1;
    if i < n {
      assert table[i := entry][..n] == table[..n][i := entry];
      FilledUpdate(table[..n], i, entry);
    } else {
      assert table[i := entry][..n] == table[..n];
    }
  }

  lemma {:induction false} FilledBound(table: seq<Option<Route>>)
    ensures Filled(table) <= |table|
    decreases |table|
  {
    if table != [] {
      FilledBound(table[..|table| - 1]);
    }
  }

  lemma {:induction false} FilledGap(table: seq<Option<Route>>, i: nat)
    requires i < |table| && table[i].None?
    ensures Filled(table) < |table|
    decreases |table|
  {
    var n := |table| - 1;
    FilledBound(table[..n]);
    if i < n {
      FilledGap(table[..n], i);
    }
  }

  lemma {:induction false} FilledFull(table: seq<Option<Route>>)
    requires forall i :: 0 <= i < |table| ==> table[i].Some?
    ensures Filled(table) == |table|
    decreases |table|
  {
    if table != [] {
      FilledFull(table[..|table| - 1]);
    }
  }

  /** The slot that routes an identifier. */
  predicate RoutedAt(table: Table, i: nat, id: RequestId, upstream: Upstream) {
    i < REQUEST_ROUTE_CAPACITY && table[i] == Some(Route(id, upstream))
  }

  /** The table holds a map from identifiers to upstreams, one slot for each entry. */
  ghost predicate Represents(table: Table, routes: map<RequestId, Upstream>) {
    && (forall i :: 0 <= i < REQUEST_ROUTE_CAPACITY && table[i].Some? ==>
          table[i].value.requestId in routes && routes[table[i].value.requestId] == table[i].value.upstream)
    && (forall id :: id in routes ==> exists i: nat :: RoutedAt(table, i, id, routes[id]))
    && (forall i, j :: 0 <= i < j < REQUEST_ROUTE_CAPACITY && table[i].Some? && table[j].Some? ==>
          table[i].value.requestId != table[j].value.requestId)
    && |routes| == Filled(table)
  }

  lemma {:induction false} NoRoutes()
    ensures Represents(EMPTY_TABLE, map[])
  {
    FilledEmpty(EMPTY_TABLE);
  }

  lemma {:induction false} FilledEmpty(table: seq<Option<Route>>)
    requires forall i :: 0 <= i < |table| ==> table[i].None?
    ensures Filled(table) == 0
    decreases |table|
  {
    if table != [] {
      FilledEmpty(table[..|table| - 1]);
    }
  }

  lemma {:induction false} SlotFilled(table: Table, routes: map<RequestId, Upstream>, i: nat, route: Route)
    requires Represents(table, routes) && i < REQUEST_ROUTE_CAPACITY && table[i].None? && route.requestId !in routes
    ensures Represents(table[i := Some(route)], routes[route.requestId := route.upstream])
  {
    hide Filled;
    var after: Table := table[i := Some(route)];
    var grown := routes[route.requestId := route.upstream];
    FilledUpdate(table, i, Some(route));
    forall id | id in grown
      ensures exists k: nat :: RoutedAt(after, k, id, grown[id])
    {
      if id == route.requestId {
        assert RoutedAt(after, i, id, grown[id]);
      } else {
        var k: nat :| RoutedAt(table, k, id, routes[id]);
        assert RoutedAt(after, k, id, grown[id]);
      }
    }
  }

  lemma {:induction false} SlotCleared(table: Table, routes: map<RequestId, Upstream>, i: nat)
    requires Represents(table, routes) && i < REQUEST_ROUTE_CAPACITY && table[i].Some?
    ensures Represents(table[i := None], routes - {table[i].value.requestId})
  {
    hide Filled;
    var after: Table := table[i := None];
    var removed := table[i].value.requestId;
    var shrunk := routes - {removed};
    FilledUpdate(table, i, None);
    assert shrunk.Keys == routes.Keys - {removed};
    forall id | id in shrunk
      ensures exists k: nat :: RoutedAt(after, k, id, shrunk[id])
    {
      var k: nat :| RoutedAt(table, k, id, routes[id]);
      assert RoutedAt(after, k, id, shrunk[id]);
    }
  }

  lemma {:induction false} NotFound(table: Table, routes: map<RequestId, Upstream>, id: RequestId)
    requires Represents(table, routes)
    requires forall i :: 0 <= i < REQUEST_ROUTE_CAPACITY ==> table[i].None? || table[i].value.requestId != id
    ensures id !in routes
  {
  }

  lemma {:induction false} NotRoutedTo(table: Table, routes: map<RequestId, Upstream>, id: RequestId, upstream: Upstream)
    requires Represents(table, routes)
    requires forall i :: 0 <= i < REQUEST_ROUTE_CAPACITY ==> table[i] != Some(Route(id, upstream))
    ensures !(id in routes && routes[id] == upstream)
  {
  }

  datatype Insertion = Inserted | DuplicateRequestId | TableFull

  class RequestRoutes {
    const slots: array<Option<Route>>
    ghost var routes: map<RequestId, Upstream>

    ghost predicate Valid()
      reads this, slots
    {
      slots.Length == REQUEST_ROUTE_CAPACITY && Represents(slots[..], routes)
    }

    constructor ()
      ensures Valid() && fresh(slots) && routes == map[]
    {
      slots := new Option<Route>[REQUEST_ROUTE_CAPACITY](_ => None);
      routes := map[];
      new;
      NoRoutes();
      assert slots[..] == EMPTY_TABLE;
    }

    method Insert(route: Route) returns (r: Insertion)
      requires Valid()
      modifies this, slots
      ensures Valid() && |routes| <= REQUEST_ROUTE_CAPACITY
      ensures r == if route.requestId in old(routes) then DuplicateRequestId
                   else if |old(routes)| == REQUEST_ROUTE_CAPACITY then TableFull else Inserted
      ensures routes == if r == Inserted then old(routes)[route.requestId := route.upstream] else old(routes)
    {
      hide Filled;
      FilledBound(slots[..]);
      for i := 0 to slots.Length
        invariant forall j :: 0 <= j < i ==> slots[j].None? || slots[j].value.requestId != route.requestId
      {
        if slots[i].Some? && slots[i].value.requestId == route.requestId {
          assert slots[..][i] == slots[i];
          return DuplicateRequestId;
        }
      }
      NotFound(slots[..], routes, route.requestId);
      for i := 0 to slots.Length
        invariant forall j :: 0 <= j < i ==> slots[j].Some?
        invariant slots[..] == old(slots[..]) && routes == old(routes)
      {
        if slots[i].None? {
          FilledGap(slots[..], i);
          SlotFilled(slots[..], routes, i, route);
          slots[i] := Some(route);
          routes := routes[route.requestId := route.upstream];
          assert slots[..] == old(slots[..])[i := Some(route)];
          FilledBound(slots[..]);
          return Inserted;
        }
      }
      FilledFull(slots[..]);
      r := TableFull;
    }

    method Remove(id: RequestId) returns (r: Option<Upstream>)
      requires Valid()
      modifies this, slots
      ensures Valid()
      ensures r == if id in old(routes) then Some(old(routes)[id]) else None
      ensures routes == old(routes) - {id}
    {
      hide Filled;
      for i := 0 to slots.Length
        invariant forall j :: 0 <= j < i ==> slots[j].None? || slots[j].value.requestId != id
        invariant slots[..] == old(slots[..]) && routes == old(routes)
      {
        if slots[i].Some? && slots[i].value.requestId == id {
          assert slots[..][i] == slots[i];
          r := Some(slots[i].value.upstream);
          SlotCleared(slots[..], routes, i);
          slots[i] := None;
          routes := routes - {id};
          assert slots[..] == old(slots[..])[i := None];
          return;
        }
      }
      NotFound(slots[..], routes, id);
      assert routes == routes - {id};
      r := None;
    }

    method RemoveFor(id: RequestId, upstream: Upstream) returns (removed: bool)
      requires Valid()
      modifies this, slots
      ensures Valid() && removed == (id in old(routes) && old(routes)[id] == upstream)
      ensures routes == if removed then old(routes) - {id} else old(routes)
    {
      hide Filled;
      for i := 0 to slots.Length
        invariant forall j :: 0 <= j < i ==> slots[j] != Some(Route(id, upstream))
        invariant slots[..] == old(slots[..]) && routes == old(routes)
      {
        if slots[i].Some? && slots[i].value.requestId == id && slots[i].value.upstream == upstream {
          assert slots[..][i] == slots[i];
          SlotCleared(slots[..], routes, i);
          slots[i] := None;
          routes := routes - {id};
          assert slots[..] == old(slots[..])[i := None];
          return true;
        }
      }
      NotRoutedTo(slots[..], routes, id, upstream);
      removed := false;
    }
  }
}
