/**
 The two interface-level tracers: the service tracer of backend/services/subscriber_model.py and the
 physical tracer of backend/services/count_semantics.py, both instances of the same search.
 */
module Tracers {
  import opened Types
  import opened Order
  import opened Topology
  import opened Bfs

  ghost predicate Linked(t: Topology, i: Id, j: Id) {
    exists id :: id in t.links && Plugged(t.links[id], i, j)
  }

  /** The link has both ends, and they are the two interfaces. */
  predicate Plugged(l: Link, i: Id, j: Id) {
    l.a != "" && l.b != "" && ((l.a == i && l.b == j) || (l.a == j && l.b == i))
  }

  datatype Tracer = Service | Physical

  /** Device kinds whose interfaces are connected inside the box; the service tracer also crosses CPEs. */
  predicate Crosses(tracer: Tracer, k: DeviceType) {
    IsPassiveType(k) || IsOntType(k) || (tracer.Service? && k == AON_CPE)
  }

  predicate Resolves(t: Topology, i: Id) {
    i in t.ifaces && t.ifaces[i].device in t.devices
  }

  predicate Siblings(t: Topology, i: Id, j: Id) {
    i in t.ifaces && j in t.ifaces && t.ifaces[i].device == t.ifaces[j].device && i != j
  }

  /** One hop: over a link, or to a sibling interface of a device that can be crossed. */
  ghost predicate HopEdge(tracer: Tracer, t: Topology, i: Id, j: Id) {
    Resolves(t, i) && (Linked(t, i, j) || (Crosses(tracer, t.devices[t.ifaces[i].device].kind) && Siblings(t, i, j)))
  }

  ghost predicate IsHopGraph(tracer: Tracer, t: Topology, next: Successors) {
    forall i, j :: j in Next(next, i) <==> HopEdge(tracer, t, i, j)
  }

  function PeersOf(t: Topology, i: Id): (s: set<Id>)
    ensures forall j :: j in s <==> Linked(t, i, j)
  {
    (set id | id in t.links && t.links[id].a == i && t.links[id].a != "" && t.links[id].b != "" :: t.links[id].b)
    + (set id | id in t.links && t.links[id].b == i && t.links[id].a != "" && t.links[id].b != "" :: t.links[id].a)
  }

  method HopsFrom(tracer: Tracer, t: Topology, i: Id) returns (succ: seq<Id>)
    ensures forall j :: j in succ <==> HopEdge(tracer, t, i, j)
  {
    succ := [];
    if Resolves(t, i) {
      var peers := SortedOf(PeersOf(t, i));
      succ := peers;
      if Crosses(tracer, t.devices[t.ifaces[i].device].kind) {
        var sibs := SortedOf(set j | j in t.ifaces && Siblings(t, i, j));
        succ := peers + sibs;
      }
    }
    hide Linked, Crosses;
  }

  method BuildHops(tracer: Tracer, t: Topology) returns (next: Successors)
    ensures IsHopGraph(tracer, t, next)
  {
    next := map[];
    var rest := t.ifaces.Keys;
    assert forall i, j :: HopEdge(tracer, t, i, j) ==> i in t.ifaces;
    hide HopEdge;
    while rest != {}
      invariant rest <= t.ifaces.Keys
      invariant forall i, j :: i !in rest ==> (j in Next(next, i) <==> HopEdge(tracer, t, i, j))
      decreases rest
    {
      var i :| i in rest;
      var succ := HopsFrom(tracer, t, i);
      next := next[i := succ];
      rest := rest - {i};
    }
  }

  /** PON ports of OLTs. */
  function PonPorts(t: Topology): set<Id> {
    set i | i in t.ifaces && t.ifaces[i].role == Some(PON) && t.ifaces[i].device in t.devices &&
      t.devices[t.ifaces[i].device].kind == DeviceType.OLT
  }

  function PortsOf(t: Topology, d: Id): set<Id> {
    set i | i in t.ifaces && t.ifaces[i].device == d
  }

  /** Interfaces are listed by device, name and id. */
  function PortKey(t: Topology, i: Id): Path {
    if i in t.ifaces then [t.ifaces[i].device, t.ifaces[i].name, i] else [i]
  }

  method LeastPort(t: Topology, s: set<Id>) returns (m: Id)
    requires s != {} && s <= t.ifaces.Keys
    ensures m in s && forall x :: x in s - {m} ==> LexLt(PortKey(t, m), PortKey(t, x))
  {
    m :| m in s;
    var seen, rest := {m}, s - {m};
    while rest != {}
      invariant m in seen && seen + rest == s && seen !! rest
      invariant forall x :: x in seen - {m} ==> LexLt(PortKey(t, m), PortKey(t, x))
      decreases rest
    {
      var y :| y in rest;
      LexLtTotal(PortKey(t, m), PortKey(t, y));
      assert PortKey(t, m)[2] != PortKey(t, y)[2];
      if LexLt(PortKey(t, y), PortKey(t, m)) {
        forall x | x in seen ensures LexLt(PortKey(t, y), PortKey(t, x)) {
          if x != m { LexLtTransitive(PortKey(t, y), PortKey(t, m), PortKey(t, x)); }
        }
        m := y;
      }
      seen, rest := seen + {y}, rest - {y};
    }
  }

  predicate PortBefore(t: Topology, i: Id, j: Id) {
    i == j || LexLt(PortKey(t, i), PortKey(t, j))
  }

  /** Every interface id that a row mentions. */
  function AllEnds(t: Topology): set<Id> {
    t.ifaces.Keys + (set id | id in t.links :: t.links[id].a) + (set id | id in t.links :: t.links[id].b)
  }

  /** The PON port nearest to the device by interface hops, if any is connected to it. */
  method TraceAnchor(t: Topology, next: Successors, d: Id, ghost tracer: Tracer)
    returns (port: Option<Id>, starts: seq<Id>)
    requires IsHopGraph(tracer, t, next)
    ensures forall i :: i in starts <==> i in PortsOf(t, d)
    ensures port.Some? ==> port.value in PonPorts(t) && IsNearest(starts, next, PonPorts(t), port.value)
    ensures port.None? ==> Unreachable(starts, next, PonPorts(t))
  {
    starts := SortedOf(PortsOf(t, d));
    ghost var universe := AllEnds(t);
    HopsStayInside(tracer, t, next, universe);
    port := FirstReached(starts, next, PonPorts(t), universe);
  }

  lemma HopsStayInside(tracer: Tracer, t: Topology, next: Successors, universe: set<Id>)
    requires IsHopGraph(tracer, t, next)
    requires universe == AllEnds(t)
    ensures forall u, v :: u in next && v in next[u] ==> v in universe
  {
    forall u, v | u in next && v in next[u] ensures v in universe {
      assert v in Next(next, u);
      assert HopEdge(tracer, t, u, v);
    }
  }

  // ---- The physical tracer finds nothing the service tracer misses ----

  lemma PhysicalHopIsService(t: Topology, i: Id, j: Id)
    requires HopEdge(Physical, t, i, j)
    ensures HopEdge(Service, t, i, j)
  {
  }

  lemma RouteCarriesOver(t: Topology, starts: seq<Id>, starts': seq<Id>, phys: Successors, serv: Successors, p: Path)
    requires IsHopGraph(Physical, t, phys) && IsHopGraph(Service, t, serv)
    requires forall x :: x in starts ==> x in starts'
    requires IsRoute(starts, phys, p)
    ensures IsRoute(starts', serv, p)
  {
    forall i | 0 <= i < |p| - 1 ensures p[i + 1] in Next(serv, p[i]) {
      assert p[i + 1] in Next(phys, p[i]);
      PhysicalHopIsService(t, p[i], p[i + 1]);
    }
  }

  /** An ONT with a physical PON anchor has a service anchor too, at most as many hops away. */
  lemma PhysicalAnchorIsServed(t: Topology, starts: seq<Id>, starts': seq<Id>, phys: Successors, serv: Successors,
                               v: Id, p: Path)
    requires IsHopGraph(Physical, t, phys) && IsHopGraph(Service, t, serv)
    requires forall x :: x in starts <==> x in starts'
    requires v in PonPorts(t) && IsRouteTo(starts, phys, p, v)
    ensures !Unreachable(starts', serv, PonPorts(t))
    ensures forall q :: NoneShorter(starts', serv, PonPorts(t), q) ==> |q| <= |p|
  {
    RouteCarriesOver(t, starts, starts', phys, serv, p);
    assert IsRouteTo(starts', serv, p, v);
  }

  predicate IsAonPort(t: Topology, i: Id) {
    Resolves(t, i) && t.devices[t.ifaces[i].device].kind == AON_SWITCH
  }

  /** The least AON port that a link joins to the interface. */
  method FirstAonPeer(t: Topology, i: Id) returns (port: Option<Id>)
    ensures port.Some? ==> IsAonPort(t, port.value) && Linked(t, i, port.value)
    ensures forall j :: Linked(t, i, j) && IsAonPort(t, j) ==> port.Some? && IdLe(port.value, j)
  {
    var peers := SortedOf(PeersOf(t, i));
    hide *;
    for n := 0 to |peers|
      invariant forall j :: j in peers[..n] ==> !IsAonPort(t, j)
    {
      assert peers[..n + 1] == peers[..n] + [peers[n]];
      if IsAonPort(t, peers[n]) {
        FirstIsLeast(t, peers, n);
        return Some(peers[n]);
      }
    }
    assert peers[..|peers|] == peers;
    port := None;
  }

  lemma FirstIsLeast(t: Topology, peers: seq<Id>, n: nat)
    requires n < |peers| && Sorted(peers) && forall j :: j in peers[..n] ==> !IsAonPort(t, j)
    ensures forall j :: j in peers && IsAonPort(t, j) ==> IdLe(peers[n], j)
  {
    hide IsAonPort, IdLe;
    forall k | 0 <= k < n ensures !IsAonPort(t, peers[k]) {
      EarlierIsIn(peers, n, k);
    }
    forall j | j in peers && IsAonPort(t, j) ensures IdLe(peers[n], j) {
      var k :| 0 <= k < |peers| && peers[k] == j;
      if k == n { SelfLe(j); }
    }
  }

  lemma EarlierIsIn(s: seq<Id>, n: nat, k: nat)
    requires k < n <= |s|
    ensures s[k] in s[..n]
  {
    assert s[..n][k] == s[k];
  }

  lemma SelfLe(j: Id)
    ensures IdLe(j, j)
  {
  }

  /** `port` is plugged into `i`, no own interface before `i` has an AON peer, and no AON peer of `i` is less. */
  ghost predicate IsFirstAccess(t: Topology, d: Id, i: Id, port: Id) {
    && i in PortsOf(t, d) && Linked(t, i, port) && IsAonPort(t, port)
    && (forall x, j :: x in PortsOf(t, d) && Linked(t, x, j) && IsAonPort(t, j) ==>
      PortBefore(t, i, x) && (x == i ==> IdLe(port, j)))
  }

  /** The access port of an AON switch that a CPE is plugged into directly: first interface by name, then least peer. */
  method TraceDirectAon(t: Topology, d: Id) returns (port: Option<Id>)
    ensures port.Some? ==> exists i :: IsFirstAccess(t, d, i, port.value)
    ensures port.None? ==> forall i, j :: i in PortsOf(t, d) && Linked(t, i, j) ==> !IsAonPort(t, j)
  {
    var rest := PortsOf(t, d);
    ghost var done: set<Id> := {};
    assert rest <= t.ifaces.Keys;
    hide *;
    while rest != {}
      invariant done + rest == PortsOf(t, d) && rest <= t.ifaces.Keys
      invariant forall i, j :: i in done && Linked(t, i, j) ==> !IsAonPort(t, j)
      decreases rest
    {
      var i := LeastPort(t, rest);
      port := FirstAonPeer(t, i);
      if port.Some? {
        FirstOfRest(t, d, done, rest, i, port.value);
        return;
      }
      done, rest := done + {i}, rest - {i};
    }
    port := None;
  }

  lemma FirstOfRest(t: Topology, d: Id, done: set<Id>, rest: set<Id>, i: Id, port: Id)
    requires done + rest == PortsOf(t, d) && i in rest
    requires forall x :: x in rest - {i} ==> LexLt(PortKey(t, i), PortKey(t, x))
    requires forall x, j :: x in done && Linked(t, x, j) ==> !IsAonPort(t, j)
    requires IsAonPort(t, port) && Linked(t, i, port)
    requires forall j :: Linked(t, i, j) && IsAonPort(t, j) ==> IdLe(port, j)
    ensures IsFirstAccess(t, d, i, port)
  {
    hide PortsOf, Linked, IsAonPort, PortKey, LexLt, IdLe;
  }
}
