/**
 One hop of the L3 trace, read off the columns of the rows: which row of which table decides it.
 */
module L3Rows {
  import opened Types
  import opened Order
  import opened Topology
  import opened L3Trace

  // ---- Links at a port ----

  ghost predicate RowStands(t: Topology, i: Id) {
    && i in t.ifaces && t.ifaces[i].device != "" && t.ifaces[i].device in t.devices
    && t.devices[t.ifaces[i].device].override != Some(DOWN)
  }

  /** The link row joins ports `i` and `j`, is forced up or UP without force, and both ends stand. */
  ghost predicate RowCrosses(t: Topology, id: Id, i: Id, j: Id) {
    && id in t.links && (t.links[id].a, t.links[id].b) in {(i, j), (j, i)} && RowStands(t, i) && RowStands(t, j)
    && (t.links[id].override == Some(UP) || (t.links[id].override == None && t.links[id].status == UP))
  }

  lemma UsableOnRows(t: Topology, id: Id, i: Id, j: Id)
    ensures UsableLink(t, id, i) && j == PeerEnd(t.links[id], i) <==> RowCrosses(t, id, i, j)
  {
  }

  lemma PeerOnRows(t: Topology, id: Id, i: Id)
    requires UsableLink(t, id, i)
    ensures exists j :: RowCrosses(t, id, i, j) && PeerDevice(t, id, i) == t.ifaces[j].device
  {
    UsableOnRows(t, id, i, PeerEnd(t.links[id], i));
  }

  // ---- Access devices ----

  ghost predicate RowOwns(t: Topology, d: Id, i: Id) {
    i in t.ifaces && t.ifaces[i].device == d
  }

  /** Across link row `id` from port `i` sits `v`; with `routers` set, only a router counts. */
  ghost predicate RowPeer(t: Topology, id: Id, i: Id, v: Id, routers: bool) {
    && (exists j :: RowCrosses(t, id, i, j) && t.ifaces[j].device == v)
    && (routers ==> v in t.devices && t.devices[v].kind in {CORE_ROUTER, EDGE_ROUTER, BACKBONE_GATEWAY})
  }

  ghost predicate AnyPeer(t: Topology, rows: seq<Id>, i: Id, routers: bool) {
    exists id, v :: id in rows && RowPeer(t, id, i, v, routers)
  }

  /** `v` is across the first link row at the port that counts. */
  ghost predicate FirstPeer(t: Topology, rows: seq<Id>, i: Id, v: Id, routers: bool) {
    exists n :: 0 <= n < |rows| && RowPeer(t, rows[n], i, v, routers) && !AnyPeer(t, rows[..n], i, routers)
  }

  ghost predicate AnyUp(db: Db, ports: seq<Id>, d: Id, routers: bool) {
    exists i :: i in ports && RowOwns(db.topo, d, i) && AnyPeer(db.topo, db.linkRows, i, routers)
  }

  /** `v` is the first peer at the first port row of the device that has one. */
  ghost predicate FirstUp(db: Db, ports: seq<Id>, d: Id, v: Id, routers: bool) {
    exists m :: 0 <= m < |ports| && RowOwns(db.topo, d, ports[m]) &&
      FirstPeer(db.topo, db.linkRows, ports[m], v, routers) && !AnyUp(db, ports[..m], d, routers)
  }

  /** The first device of a list that counts. */
  ghost function FirstOf(t: Topology, ds: seq<Id>, routers: bool): Option<Id>
    requires forall d :: d in ds ==> d in t.devices
  {
    if ds == [] then None
    else if routers && !IsRouterType(t.devices[ds[0]].kind) then FirstOf(t, ds[1..], routers)
    else Some(ds[0])
  }

  lemma {:induction false} FirstOfJoin(t: Topology, xs: seq<Id>, ys: seq<Id>, routers: bool)
    requires forall d :: d in xs + ys ==> d in t.devices
    requires forall d :: d in xs ==> d in t.devices
    requires forall d :: d in ys ==> d in t.devices
    ensures FirstOf(t, xs + ys, routers) ==
      if FirstOf(t, xs, routers).Some? then FirstOf(t, xs, routers) else FirstOf(t, ys, routers)
  {
    if xs == [] {
      assert xs + ys == ys;
    } else {
      assert (xs + ys)[1..] == xs[1..] + ys;
      FirstOfJoin(t, xs[1..], ys, routers);
    }
  }

  lemma {:induction false} PreferredIsFirst(t: Topology, ds: seq<Id>)
    requires ds != [] && forall d :: d in ds ==> d in t.devices
    ensures Some(Preferred(t, ds)) ==
      if FirstOf(t, ds, true).Some? then FirstOf(t, ds, true) else FirstOf(t, ds, false)
  {
    if |ds| > 1 {
      PreferredIsFirst(t, ds[1..]);
      FirstOfKind(t, ds[1..]);
    }
  }

  lemma {:induction false} FirstOfKind(t: Topology, ds: seq<Id>)
    requires forall d :: d in ds ==> d in t.devices
    ensures FirstOf(t, ds, true).Some? ==>
      FirstOf(t, ds, true).value in t.devices && IsRouterType(t.devices[FirstOf(t, ds, true).value].kind)
    ensures FirstOf(t, ds, true).None? ==> forall d :: d in ds ==> !IsRouterType(t.devices[d].kind)
    ensures ds != [] ==> FirstOf(t, ds, false) == Some(ds[0])
  {
    if ds != [] { FirstOfKind(t, ds[1..]); }
  }

  // Cutting off the first row.

  ghost predicate SomePeer(t: Topology, id: Id, i: Id, routers: bool) {
    exists v :: RowPeer(t, id, i, v, routers)
  }

  lemma AnyPeerCons(t: Topology, rows: seq<Id>, i: Id, routers: bool)
    requires rows != []
    ensures AnyPeer(t, rows, i, routers) <==> SomePeer(t, rows[0], i, routers) || AnyPeer(t, rows[1..], i, routers)
  {
    hide RowPeer;
    assert rows == [rows[0]] + rows[1..];
  }

  lemma FirstPeerCons(t: Topology, rows: seq<Id>, i: Id, v: Id, routers: bool)
    requires rows != []
    ensures FirstPeer(t, rows, i, v, routers) <==>
      RowPeer(t, rows[0], i, v, routers) ||
      (!SomePeer(t, rows[0], i, routers) && FirstPeer(t, rows[1..], i, v, routers))
  {
    hide RowPeer;
    var rest := rows[1..];
    forall n | 0 < n <= |rows|
      ensures AnyPeer(t, rows[..n], i, routers) <==>
        SomePeer(t, rows[0], i, routers) || AnyPeer(t, rest[..n - 1], i, routers)
    {
      AnyPeerCons(t, rows[..n], i, routers);
      assert rows[..n][1..] == rest[..n - 1];
    }
    if FirstPeer(t, rows, i, v, routers) {
      var n :| 0 <= n < |rows| && RowPeer(t, rows[n], i, v, routers) && !AnyPeer(t, rows[..n], i, routers);
      if n > 0 { assert rest[n - 1] == rows[n]; }
    }
    if RowPeer(t, rows[0], i, v, routers) {
      assert rows[..0] == [];
    } else if !SomePeer(t, rows[0], i, routers) && FirstPeer(t, rest, i, v, routers) {
      var n :| 0 <= n < |rest| && RowPeer(t, rest[n], i, v, routers) && !AnyPeer(t, rest[..n], i, routers);
      assert rows[n + 1] == rest[n];
    }
  }

  lemma PeerCounts(t: Topology, id: Id, i: Id, v: Id, routers: bool)
    ensures RowPeer(t, id, i, v, routers) <==>
      UsableLink(t, id, i) && v == PeerDevice(t, id, i) && (routers ==> IsRouterType(t.devices[v].kind))
    ensures SomePeer(t, id, i, routers) <==>
      UsableLink(t, id, i) && (routers ==> IsRouterType(t.devices[PeerDevice(t, id, i)].kind))
  {
    if UsableLink(t, id, i) { PeerOnRows(t, id, i); }
    forall j ensures RowCrosses(t, id, i, j) ==> UsableLink(t, id, i) && t.ifaces[j].device == PeerDevice(t, id, i) {
      UsableOnRows(t, id, i, j);
    }
    hide RowCrosses, UsableLink;
    if UsableLink(t, id, i) && (routers ==> IsRouterType(t.devices[PeerDevice(t, id, i)].kind)) {
      assert RowPeer(t, id, i, PeerDevice(t, id, i), routers);
    }
  }

  lemma {:induction false} FirstAtPort(t: Topology, rows: seq<Id>, i: Id, v: Id, routers: bool)
    ensures var ds := PeersVia(t, i, LinksAt(t, rows, i));
      && (FirstOf(t, ds, routers) == Some(v) <==> FirstPeer(t, rows, i, v, routers))
      && (FirstOf(t, ds, routers).Some? <==> AnyPeer(t, rows, i, routers))
    decreases |rows|
  {
    if rows != [] {
      FirstAtPort(t, rows[1..], i, v, routers);
      FirstPeerCons(t, rows, i, v, routers);
      AnyPeerCons(t, rows, i, routers);
      PeerCounts(t, rows[0], i, v, routers);
      hide RowPeer, AnyPeer, FirstPeer, UsableLink, SomePeer, IsRouterType;
      var rest := LinksAt(t, rows[1..], i);
      if UsableLink(t, rows[0], i) {
        assert ([rows[0]] + rest)[1..] == rest;
        var d := PeerDevice(t, rows[0], i);
        assert PeersVia(t, i, LinksAt(t, rows, i)) == [d] + PeersVia(t, i, rest);
        assert ([d] + PeersVia(t, i, rest))[1..] == PeersVia(t, i, rest);
      }
    }
  }

  lemma AnyUpCons(db: Db, ports: seq<Id>, d: Id, routers: bool)
    requires ports != []
    ensures AnyUp(db, ports, d, routers) <==>
      (RowOwns(db.topo, d, ports[0]) && AnyPeer(db.topo, db.linkRows, ports[0], routers)) ||
      AnyUp(db, ports[1..], d, routers)
  {
    hide AnyPeer, RowOwns;
    assert ports == [ports[0]] + ports[1..];
  }

  lemma FirstUpCons(db: Db, ports: seq<Id>, d: Id, v: Id, routers: bool)
    requires ports != []
    ensures FirstUp(db, ports, d, v, routers) <==>
      (RowOwns(db.topo, d, ports[0]) && FirstPeer(db.topo, db.linkRows, ports[0], v, routers)) ||
      (!(RowOwns(db.topo, d, ports[0]) && AnyPeer(db.topo, db.linkRows, ports[0], routers)) &&
       FirstUp(db, ports[1..], d, v, routers))
  {
    hide AnyPeer, RowOwns, FirstPeer;
    var rest := ports[1..];
    forall m | 0 < m <= |ports|
      ensures AnyUp(db, ports[..m], d, routers) <==>
        (RowOwns(db.topo, d, ports[0]) && AnyPeer(db.topo, db.linkRows, ports[0], routers)) ||
        AnyUp(db, rest[..m - 1], d, routers)
    {
      AnyUpCons(db, ports[..m], d, routers);
      assert ports[..m][1..] == rest[..m - 1];
    }
    if FirstUp(db, ports, d, v, routers) {
      var m :| 0 <= m < |ports| && RowOwns(db.topo, d, ports[m]) &&
        FirstPeer(db.topo, db.linkRows, ports[m], v, routers) && !AnyUp(db, ports[..m], d, routers);
      if m > 0 { assert rest[m - 1] == ports[m]; }
    }
    assert ports[..0] == [];
    if FirstUp(db, rest, d, v, routers) {
      var m :| 0 <= m < |rest| && RowOwns(db.topo, d, rest[m]) &&
        FirstPeer(db.topo, db.linkRows, rest[m], v, routers) && !AnyUp(db, rest[..m], d, routers);
      assert ports[m + 1] == rest[m];
    }
  }

  lemma {:induction false} FirstUpstream(db: Db, ports: seq<Id>, d: Id, v: Id, routers: bool)
    ensures var ds := Upstreams(db, InterfacesOf(db.topo, ports, d));
      && (FirstOf(db.topo, ds, routers) == Some(v) <==> FirstUp(db, ports, d, v, routers))
      && (FirstOf(db.topo, ds, routers).Some? <==> AnyUp(db, ports, d, routers))
    decreases |ports|
  {
    if ports != [] {
      FirstUpstream(db, ports[1..], d, v, routers);
      FirstUpCons(db, ports, d, v, routers);
      AnyUpCons(db, ports, d, routers);
      FirstAtPort(db.topo, db.linkRows, ports[0], v, routers);
      hide AnyPeer, FirstPeer, UsableLink, AnyUp, FirstUp, FirstOf, LinksAt, PeersVia;
      var rest := InterfacesOf(db.topo, ports[1..], d);
      if RowOwns(db.topo, d, ports[0]) {
        assert InterfacesOf(db.topo, ports, d) == [ports[0]] + rest;
        assert ([ports[0]] + rest)[1..] == rest;
        FirstOfJoin(db.topo, PeersVia(db.topo, ports[0], LinksAt(db.topo, db.linkRows, ports[0])), Upstreams(db, rest),
                    routers);
      }
    }
  }

  /** A hop of a device that is no router, on the rows. */
  ghost predicate AccessHopOnRows(db: Db, d: Id, hop: Hop) {
    match hop
    case Arrived => false
    case Stuck(NoInterfaces) => forall i :: i in db.ifaceRows ==> !RowOwns(db.topo, d, i)
    case Stuck(NoUpstreamRouter) =>
      (exists i :: i in db.ifaceRows && RowOwns(db.topo, d, i)) && !AnyUp(db, db.ifaceRows, d, false)
    case Stuck(_) => false
    case Next(v) => FirstUp(db, db.ifaceRows, d, v, AnyUp(db, db.ifaceRows, d, true))
  }

  lemma AccessHopMeans(db: Db, d: Id)
    ensures AccessHopOnRows(db, d, AccessHop(db, d))
  {
    var ports := InterfacesOf(db.topo, db.ifaceRows, d);
    var ups := Upstreams(db, ports);
    hide FirstUp, AnyUp, FirstOf, Preferred, Upstreams, InterfacesOf;
    if ports != [] {
      assert ports[0] in ports;
      FirstOfKind(db.topo, ups);
      if ups != [] {
        PreferredIsFirst(db.topo, ups);
        var v := Preferred(db.topo, ups);
        FirstUpstream(db, db.ifaceRows, d, v, true);
        FirstUpstream(db, db.ifaceRows, d, v, false);
      } else {
        NoneIsFirst(db.topo);
        FirstUpstream(db, db.ifaceRows, d, "", false);
      }
    }
  }

  lemma NoneIsFirst(t: Topology)
    ensures FirstOf(t, [], false) == None
  {
  }

  // ---- Routers ----

  /** A default route of the VRF whose egress port belongs to `d`. */
  ghost predicate RowRoute(t: Topology, d: Id, vrf: int, r: Route) {
    r.vrf == vrf && r.isDefault && r.iface.Some? && RowOwns(t, d, r.iface.value)
  }

  ghost predicate RowUsable(t: Topology, d: Id, vrf: int, r: Route) {
    RowRoute(t, d, vrf, r) ==> t.ifaces[r.iface.value].adminUp && r.nextHop != ""
  }

  /** Route row `k` is the first of the device's default routes that cannot be used. */
  ghost predicate FirstUnusable(t: Topology, d: Id, vrf: int, routes: seq<Route>, k: int) {
    0 <= k < |routes| && !RowUsable(t, d, vrf, routes[k]) && forall m :: 0 <= m < k ==> RowUsable(t, d, vrf, routes[m])
  }

  /** Smaller distance; then smaller metric; then the older row. */
  ghost predicate Outranks(x: Route, y: Route) {
    if x.distance != y.distance then x.distance < y.distance
    else if x.metric != y.metric then x.metric < y.metric
    else x.id < y.id
  }

  ghost predicate RowBest(db: Db, d: Id, vrf: int, r: Route) {
    && r in db.routes && RowRoute(db.topo, d, vrf, r)
    && (forall k :: !FirstUnusable(db.topo, d, vrf, db.routes, k))
    && forall x :: x in db.routes && RowRoute(db.topo, d, vrf, x) ==> !Outranks(x, r)
  }

  ghost predicate RowBears(db: Db, id: Id, i: Id, ip: string) {
    exists j, a :: RowCrosses(db.topo, id, i, j) && a in db.addrs && a.iface == j && a.ip == ip
  }

  /** The least link row at the port that leads to the address; failing any such row, the least one. */
  ghost predicate RowChosen(db: Db, id: Id, i: Id, ip: string) {
    && id in db.linkRows && (exists j :: RowCrosses(db.topo, id, i, j))
    && forall x, j :: x in db.linkRows && RowCrosses(db.topo, x, i, j) ==>
         if RowBears(db, x, i, ip) == RowBears(db, id, i, ip) then IdLe(id, x) else RowBears(db, id, i, ip)
  }

  ghost predicate RouterHopOnRows(db: Db, d: Id, vrf: int, hop: Hop) {
    var t := db.topo;
    match hop
    case Arrived => false
    case Stuck(NoDefaultRoute) => forall r :: r in db.routes ==> !(r.vrf == vrf && r.isDefault)
    case Stuck(NoEligibleRoute) =>
      (exists r :: r in db.routes && r.vrf == vrf && r.isDefault) && forall r :: r in db.routes ==>
        !RowRoute(t, d, vrf, r)
    case Stuck(EgressAdminDown) =>
      exists k :: FirstUnusable(t, d, vrf, db.routes, k) && !t.ifaces[db.routes[k].iface.value].adminUp
    case Stuck(NoNextHop) =>
      exists k :: FirstUnusable(t, d, vrf, db.routes, k) && t.ifaces[db.routes[k].iface.value].adminUp
    case Stuck(PeerUnresolved) =>
      exists r :: RowBest(db, d, vrf, r) && forall id, j :: id in db.linkRows ==> !RowCrosses(t, id, r.iface.value, j)
    case Stuck(_) => false
    case Next(v) =>
      exists r, id, j :: RowBest(db, d, vrf, r) && RowChosen(db, id, r.iface.value, r.nextHop) &&
        RowCrosses(t, id, r.iface.value, j) && v == t.ifaces[j].device
  }

  lemma FirstUnusableCons(t: Topology, d: Id, vrf: int, routes: seq<Route>, k: int)
    requires routes != []
    ensures FirstUnusable(t, d, vrf, routes, k) <==>
      if RowUsable(t, d, vrf, routes[0]) then FirstUnusable(t, d, vrf, routes[1..], k - 1) else k == 0
  {
    hide RowUsable;
    if FirstUnusable(t, d, vrf, routes[1..], k - 1) && RowUsable(t, d, vrf, routes[0]) {
      forall m | 0 <= m < k ensures RowUsable(t, d, vrf, routes[m]) {
        if m > 0 { assert routes[1..][m - 1] == routes[m]; }
      }
    }
    if FirstUnusable(t, d, vrf, routes, k) && k > 0 {
      forall m | 0 <= m < k - 1 ensures RowUsable(t, d, vrf, routes[1..][m]) {
        assert routes[1..][m] == routes[m + 1];
      }
    }
  }

  ghost function ScanReason(t: Topology, r: Route): Reason {
    if r.iface.Some? && r.iface.value in t.ifaces && !t.ifaces[r.iface.value].adminUp then EgressAdminDown
      else NoNextHop
  }

  /** The scan stops exactly at the first unusable row, with its reason. */
  lemma {:induction false} ScanStopsAt(t: Topology, d: Id, vrf: int, routes: seq<Route>, k: int)
    ensures var s := ScanRoutes(t, d, DefaultRoutes(routes, vrf));
      FirstUnusable(t, d, vrf, routes, k) ==> s == Blocked(ScanReason(t, routes[k]))
    decreases |routes|
  {
    if routes != [] {
      FirstUnusableCons(t, d, vrf, routes, k);
      hide FirstUnusable;
      ScanStopsAt(t, d, vrf, routes[1..], k - 1);
      var rest := DefaultRoutes(routes[1..], vrf);
      if routes[0].vrf == vrf && routes[0].isDefault {
        assert ([routes[0]] + rest)[1..] == rest;
      }
      if k > 0 { assert k - 1 < |routes[1..]| ==> routes[1..][k - 1] == routes[k]; }
    }
  }

  lemma {:induction false} UnusableExists(t: Topology, d: Id, vrf: int, routes: seq<Route>) returns (k: int)
    ensures FirstUnusable(t, d, vrf, routes, k) || forall r :: r in routes ==> RowUsable(t, d, vrf, r)
    decreases |routes|
  {
    hide RowUsable;
    if routes == [] {
      k := 0;
    } else {
      var n := UnusableExists(t, d, vrf, routes[1..]);
      k := if RowUsable(t, d, vrf, routes[0]) then n + 1 else 0;
      FirstUnusableCons(t, d, vrf, routes, k);
      assert routes == [routes[0]] + routes[1..];
    }
  }

  lemma {:induction false} AllUsableScans(t: Topology, d: Id, routes: seq<Route>)
    requires forall r :: r in routes && OwnRoute(t, d, r) ==> t.ifaces[r.iface.value].adminUp && r.nextHop != ""
    ensures ScanRoutes(t, d, routes).Candidates?
  {
    if routes != [] {
      assert routes[0] in routes;
      AllUsableScans(t, d, routes[1..]);
    }
  }

  /** A scan either stops at the first unusable row, or leaves every default route of the device. */
  lemma ScanMeans(t: Topology, d: Id, vrf: int, routes: seq<Route>) returns (k: int)
    ensures match ScanRoutes(t, d, DefaultRoutes(routes, vrf))
      case Blocked(reason) => FirstUnusable(t, d, vrf, routes, k) && reason == ScanReason(t, routes[k])
      case Candidates(cand) =>
        && (forall r :: r in cand <==> r in routes && RowRoute(t, d, vrf, r))
        && forall k :: !FirstUnusable(t, d, vrf, routes, k)
  {
    k := UnusableExists(t, d, vrf, routes);
    if FirstUnusable(t, d, vrf, routes, k) {
      ScanStopsAt(t, d, vrf, routes, k);
    } else {
      AllUsableScans(t, d, DefaultRoutes(routes, vrf));
    }
  }

  lemma BearsOnRows(db: Db, id: Id, i: Id, ip: string)
    requires UsableLink(db.topo, id, i)
    ensures BearsNextHop(db, id, i, ip) <==> RowBears(db, id, i, ip)
  {
    forall j { UsableOnRows(db.topo, id, i, j); }
    hide RowCrosses;
    if BearsNextHop(db, id, i, ip) {
      var j := PeerEnd(db.topo.links[id], i);
      var k :| 0 <= k < |db.addrs| && db.addrs[k].iface == j && db.addrs[k].ip == ip;
      assert RowCrosses(db.topo, id, i, j) && db.addrs[k] in db.addrs;
    }
    if RowBears(db, id, i, ip) {
      var j, a :| RowCrosses(db.topo, id, i, j) && a in db.addrs && a.iface == j && a.ip == ip;
      var k :| 0 <= k < |db.addrs| && db.addrs[k] == a;
      assert HasAddress(db, j, ip);
    }
  }

  lemma ChosenMeans(db: Db, i: Id, ip: string)
    ensures match ChosenLink(db, i, ip)
      case Some(id) => RowChosen(db, id, i, ip)
      case None => forall id, j :: id in db.linkRows ==> !RowCrosses(db.topo, id, i, j)
  {
    forall id, j ensures RowCrosses(db.topo, id, i, j) ==> UsableLink(db.topo, id, i) {
      UsableOnRows(db.topo, id, i, j);
    }
    forall id ensures UsableLink(db.topo, id, i) ==>
      (BearsNextHop(db, id, i, ip) <==> RowBears(db, id, i, ip)) && exists j :: RowCrosses(db.topo, id, i, j)
    {
      if UsableLink(db.topo, id, i) {
        BearsOnRows(db, id, i, ip);
        PeerOnRows(db.topo, id, i);
      }
    }
    hide RowCrosses, UsableLink, BearsNextHop, RowBears, ChosenLink, IdLe;
  }

  lemma BestMeans(db: Db, d: Id, vrf: int, cand: seq<Route>)
    requires cand != [] && (forall r :: r in cand <==> r in db.routes && RowRoute(db.topo, d, vrf, r))
    requires forall k :: !FirstUnusable(db.topo, d, vrf, db.routes, k)
    ensures RowBest(db, d, vrf, BestRoute(cand))
  {
    hide RowRoute, FirstUnusable, BestRoute;
  }

  lemma RouterHopMeans(db: Db, d: Id, vrf: int)
    ensures RouterHopOnRows(db, d, vrf, RouterHop(db, d, vrf))
  {
    hide FirstUnusable, RowRoute, RowBest, RowChosen, RowCrosses, ScanRoutes, BestRoute, ChosenLink, DefaultRoutes;
    hide UsableLink;
    var routes := DefaultRoutes(db.routes, vrf);
    if routes != [] {
      assert routes[0] in routes;
      var k := ScanMeans(db.topo, d, vrf, db.routes);
      var s := ScanRoutes(db.topo, d, routes);
      if s.Candidates? && s.routes != [] {
        BestMeans(db, d, vrf, s.routes);
        var best := BestRoute(s.routes);
        ChosenMeans(db, best.iface.value, best.nextHop);
        var c := ChosenLink(db, best.iface.value, best.nextHop);
        if c.Some? { PeerOnRows(db.topo, c.value, best.iface.value); }
      } else if s.Blocked? {
        UnusablePort(db.topo, d, vrf, db.routes, k);
      } else {
        NoCandidateRows(db, d, vrf, s.routes);
      }
    }
  }

  lemma UnusablePort(t: Topology, d: Id, vrf: int, routes: seq<Route>, k: int)
    requires FirstUnusable(t, d, vrf, routes, k)
    ensures 0 <= k < |routes| && routes[k].iface.Some? && routes[k].iface.value in t.ifaces
  {
  }

  lemma NoCandidateRows(db: Db, d: Id, vrf: int, cand: seq<Route>)
    requires cand == [] && (forall r :: r in cand <==> r in db.routes && RowRoute(db.topo, d, vrf, r))
    ensures forall r :: r in db.routes ==> !RowRoute(db.topo, d, vrf, r)
  {
  }

  // ---- Any device ----

  ghost predicate HopOnRows(db: Db, d: Id, hop: Hop) {
    && d in db.topo.devices
    && var dev := db.topo.devices[d];
       if dev.override == Some(DOWN) then hop == Stuck(ForcedDownHere)
       else match dev.kind
         case BACKBONE_GATEWAY => hop == Arrived
         case CORE_ROUTER | EDGE_ROUTER =>
           if dev.vrf == None then hop == Stuck(NoVrf) else RouterHopOnRows(db, d, dev.vrf.value, hop)
         case _ => AccessHopOnRows(db, d, hop)
  }

  /** Which row decides the next hop of a device. */
  lemma NextHopMeans(db: Db, d: Id)
    requires d in db.topo.devices
    ensures HopOnRows(db, d, NextHop(db, d))
  {
    hide RouterHop, AccessHop, RouterHopOnRows, AccessHopOnRows;
    var dev := db.topo.devices[d];
    if dev.vrf.Some? { RouterHopMeans(db, d, dev.vrf.value); }
    AccessHopMeans(db, d);
  }
}
