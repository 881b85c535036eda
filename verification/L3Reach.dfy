/**
 What automatic configuration is for: after every router has been configured, in any order and
 any number of times, the L3 trace of each router with an uplink reaches a backbone gateway.
 */
module L3Reach {
  import opened Types
  import opened Order
  import opened Topology
  import opened L3Trace
  import opened L3Auto

  /** The address of one end of a link. */
  function IpAt(h: Digest, l: Link, id: Id, i: Id): string {
    if IdLt(i, PeerEnd(l, i)) then LowIp(h, id) else HighIp(h, id)
  }

  ghost predicate DistinctPairs(h: Digest, t: Topology) {
    forall x, y :: x in t.links && y in t.links && x != y ==>
      LowIp(h, x) != LowIp(h, y) && LowIp(h, x) != HighIp(h, y) && HighIp(h, x) != HighIp(h, y)
  }

  /** Uplinks are traversable, and nothing else is plugged into an uplink interface. */
  ghost predicate UplinksReady(t: Topology) {
    forall d, id :: IsUplink(t, d, id) ==>
      Traversable(t, t.links[id]) && forall x :: x in t.links && Touches(t.links[x], UplinkEnd(t, d, id)) ==> x == id
  }

  /** A network without L3 state: no addresses, no routes, no VRF other than mgmt. */
  ghost predicate Unconfigured(h: Digest, db: Db) {
    && db.addrs == [] && db.routes == [] && db.mgmtVrf != 0
    && (forall d :: d in db.topo.devices ==>
      db.topo.devices[d].vrf == None || db.topo.devices[d].vrf == Some(db.mgmtVrf))
    && (forall id :: id in db.topo.links <==> id in db.linkRows)
    && UplinksReady(db.topo) && DistinctPairs(h, db.topo)
  }

  // ---- What configuration keeps ----

  ghost predicate SameDevice(a: Device, b: Device, mgmt: int) {
    b == a || b == a.(vrf := Some(mgmt))
  }

  ghost predicate SameNetwork(db0: Db, db: Db) {
    && db.topo.devices.Keys == db0.topo.devices.Keys
    && (forall d :: d in db0.topo.devices ==> SameDevice(db0.topo.devices[d], db.topo.devices[d], db0.mgmtVrf))
    && IfacesRise(db0.topo, db.topo)
    && db.topo.links == db0.topo.links && db.linkRows == db0.linkRows && db.mgmtVrf == db0.mgmtVrf
  }

  /** Every address is the one its link assigns to that end. */
  ghost predicate AddrFits(h: Digest, db: Db, a: Address) {
    a.vrf == db.mgmtVrf && exists id :: id in db.topo.links && Assigned(h, db.topo.links[id], id, a)
  }

  ghost predicate Assigned(h: Digest, l: Link, id: Id, a: Address) {
    l.a != l.b && Touches(l, a.iface) && a.ip == IpAt(h, l, id, a.iface)
  }

  /** Every route is the default of a router over one of its uplinks. */
  ghost predicate RouteFits(h: Digest, db: Db, r: Route) {
    && r.isDefault && r.vrf == db.mgmtVrf && r.nextHop != "" && r.iface.Some?
    && exists d, id :: RouteOver(h, db, r, d, id)
  }

  /**
   The uplink's interface is up, its upstream end has an address, and the next hop is the one assigned to that
   end.
   */
  ghost predicate RouteOver(h: Digest, db: Db, r: Route, d: Id, id: Id) {
    && IsUplink(db.topo, d, id) && r.iface == Some(UplinkEnd(db.topo, d, id)) &&
      db.topo.ifaces[UplinkEnd(db.topo, d, id)].adminUp
    && r.nextHop == IpAt(h, db.topo.links[id], id, UpstreamEnd(db.topo, d, id)) &&
      AnyAddress(db, UpstreamEnd(db.topo, d, id))
  }

  ghost predicate Consistent(h: Digest, db: Db) {
    && (forall a :: a in db.addrs ==> AddrFits(h, db, a))
    && (forall r :: r in db.routes ==> RouteFits(h, db, r))
  }

  // ---- The same uplinks throughout ----

  lemma UplinkSame(db0: Db, db: Db, d: Id, id: Id)
    requires SameNetwork(db0, db)
    ensures IsUplink(db0.topo, d, id) <==> IsUplink(db.topo, d, id)
    ensures IsUplink(db0.topo, d, id) ==>
      && UplinkEnd(db.topo, d, id) == UplinkEnd(db0.topo, d, id)
      && UpstreamEnd(db.topo, d, id) == UpstreamEnd(db0.topo, d, id)
      && UpstreamOf(db.topo, d, id) == UpstreamOf(db0.topo, d, id)
  {
    assert forall i :: Owns(db0.topo, d, i) <==> Owns(db.topo, d, i);
    assert forall x :: x in db0.topo.devices ==> db.topo.devices[x].kind == db0.topo.devices[x].kind;
  }

  lemma ReadySame(db0: Db, db: Db)
    requires SameNetwork(db0, db) && UplinksReady(db0.topo)
    ensures UplinksReady(db.topo)
  {
    forall d, id | IsUplink(db.topo, d, id)
      ensures Traversable(db.topo, db.topo.links[id])
      ensures forall x :: x in db.topo.links && Touches(db.topo.links[x], UplinkEnd(db.topo, d, id)) ==> x == id
    {
      UplinkSame(db0, db, d, id);
      hide IsUplink;
      assert Traversable(db0.topo, db0.topo.links[id]);
    }
  }

  lemma GrownIsSame(db0: Db, db: Db, db': Db)
    requires SameNetwork(db0, db) && Grows(db, db')
    ensures SameNetwork(db0, db')
  {
  }

  lemma UplinkEndsDiffer(t: Topology, d: Id, id: Id)
    requires IsUplink(t, d, id)
    ensures id in t.links
    ensures UplinkEnd(t, d, id) != UpstreamEnd(t, d, id)
    ensures PeerEnd(t.links[id], UplinkEnd(t, d, id)) == UpstreamEnd(t, d, id)
    ensures PeerEnd(t.links[id], UpstreamEnd(t, d, id)) == UplinkEnd(t, d, id)
    ensures t.links[id].a != t.links[id].b
  {
  }

  lemma IpsAgree(h: Digest, t: Topology, d: Id, id: Id)
    requires IsUplink(t, d, id)
    ensures var i, j := UplinkEnd(t, d, id), UpstreamEnd(t, d, id);
      IpOf(h, id, i, j) == IpAt(h, t.links[id], id, i) && PeerIpOf(h, id, i, j) == IpAt(h, t.links[id], id, j)
  {
    UplinkEndsDiffer(t, d, id);
    var i, j := UplinkEnd(t, d, id), UpstreamEnd(t, d, id);
    IdLtTotal(i, j);
  }

  // ---- No address ever clashes ----

  lemma AddressIsFree(h: Digest, db: Db, id: Id, i: Id)
    requires Consistent(h, db) && DistinctPairs(h, db.topo)
    requires id in db.topo.links && db.topo.links[id].a != db.topo.links[id].b && Touches(db.topo.links[id], i)
    requires !AnyAddress(db, i)
    ensures !Taken(db, IpAt(h, db.topo.links[id], id, i), db.mgmtVrf)
  {
    var l := db.topo.links[id];
    hide LowIp, HighIp;
    forall k | 0 <= k < |db.addrs| ensures db.addrs[k].ip != IpAt(h, l, id, i) {
      var a := db.addrs[k];
      assert a in db.addrs && a.iface != i;
      assert AddrFits(h, db, a);
      var x :| x in db.topo.links && Assigned(h, db.topo.links[x], x, a);
      if x == id {
        OtherEndDiffers(h, l, id, i, a.iface);
      }
    }
  }

  lemma OtherEndDiffers(h: Digest, l: Link, id: Id, i: Id, j: Id)
    requires l.a != l.b && Touches(l, i) && Touches(l, j) && i != j
    ensures IpAt(h, l, id, i) != IpAt(h, l, id, j)
  {
    IdLtTotal(i, j);
    PairEndsDiffer(h, id);
  }

  lemma EnsuredAddrFits(h: Digest, db: Db, id: Id, i: Id)
    requires Consistent(h, db) && DistinctPairs(h, db.topo)
    requires id in db.topo.links && db.topo.links[id].a != db.topo.links[id].b && Touches(db.topo.links[id], i)
    ensures var r := EnsureAddr(db, i, IpAt(h, db.topo.links[id], id, i), db.mgmtVrf);
      r.Some? && Consistent(h, r.value) && r.value.topo == db.topo && r.value.routes == db.routes
  {
    var ip := IpAt(h, db.topo.links[id], id, i);
    if !AnyAddress(db, i) {
      AddressIsFree(h, db, id, i);
      assert Assigned(h, db.topo.links[id], id, Address(i, ip, db.mgmtVrf));
    }
    hide IpAt, Taken, AnyAddress, HasAddress, RouteFits;
    var r := EnsureAddr(db, i, ip, db.mgmtVrf);
    if r.Some? {
      forall a | a in r.value.addrs ensures AddrFits(h, r.value, a) {
      }
      assert forall x :: RouteFits(h, db, x) ==> RouteFits(h, r.value, x) by {
        forall x | RouteFits(h, db, x) ensures RouteFits(h, r.value, x) { RouteFitsIn(h, db, r.value, x); }
      }
    }
  }

  lemma RouteFitsIn(h: Digest, db: Db, db': Db, r: Route)
    requires RouteFits(h, db, r) && db'.topo == db.topo && db'.mgmtVrf == db.mgmtVrf && db.addrs <= db'.addrs
    ensures RouteFits(h, db', r)
  {
    hide IsUplink, IpAt;
    var d, id :| RouteOver(h, db, r, d, id);
    AddressKept(db, db', UpstreamEnd(db.topo, d, id));
    assert RouteOver(h, db', r, d, id);
  }

  lemma AddressKept(db: Db, db': Db, i: Id)
    requires AnyAddress(db, i) && db.addrs <= db'.addrs
    ensures AnyAddress(db', i)
  {
    var k :| 0 <= k < |db.addrs| && db.addrs[k].iface == i;
    assert db'.addrs[k] == db.addrs[k];
  }

  lemma RaisedFits(h: Digest, db: Db, i: Id)
    requires Consistent(h, db)
    ensures Consistent(h, db.(topo := RaiseAdmin(db.topo, i)))
  {
    var db' := db.(topo := RaiseAdmin(db.topo, i));
    RaiseGrows(db, i);
    forall r | r in db.routes ensures RouteFits(h, db', r) {
      assert RouteFits(h, db, r);
      var d, id :| RouteOver(h, db, r, d, id);
      UplinkStable(db, db', d, id);
      hide IsUplink, IpAt;
      AddressKept(db, db', UpstreamEnd(db.topo, d, id));
      assert RouteOver(h, db', r, d, id);
    }
    hide RouteFits;
    forall a | a in db.addrs ensures AddrFits(h, db', a) {
      assert AddrFits(h, db, a);
    }
  }

  lemma RouteAdded(h: Digest, db: Db, d: Id, id: Id, nh: string)
    requires Consistent(h, db) && IsUplink(db.topo, d, id) && nh != ""
    requires nh == IpAt(h, db.topo.links[id], id, UpstreamEnd(db.topo, d, id))
    requires AnyAddress(db, UpstreamEnd(db.topo, d, id))
    requires db.topo.ifaces[UplinkEnd(db.topo, d, id)].adminUp
    ensures Consistent(h, EnsureDefaultRoute(db, d, db.mgmtVrf, UplinkEnd(db.topo, d, id), nh))
  {
    var db' := EnsureDefaultRoute(db, d, db.mgmtVrf, UplinkEnd(db.topo, d, id), nh);
    forall r | r in db'.routes ensures RouteFits(h, db', r) {
      if r in db.routes {
        RouteFitsIn(h, db, db', r);
      } else {
        AddressKept(db, db', UpstreamEnd(db.topo, d, id));
        assert RouteOver(h, db', r, d, id);
      }
    }
    hide RouteFits, HasRoute, HasOwnDefault, IsUplink;
    forall a | a in db.addrs ensures AddrFits(h, db', a) {
      assert AddrFits(h, db, a);
    }
  }

  lemma NeighborFits(h: Digest, db: Db, i: Id, ip: string)
    requires Consistent(h, db)
    ensures Consistent(h, EnsureNeighbor(db, i, ip)) && EnsureNeighbor(db, i, ip).topo == db.topo
  {
    var db' := EnsureNeighbor(db, i, ip);
    forall r | r in db.routes ensures RouteFits(h, db', r) { RouteFitsIn(h, db, db', r); }
    hide RouteFits;
    forall a | a in db.addrs ensures AddrFits(h, db', a) {
      assert AddrFits(h, db, a);
    }
  }

  lemma IpNotEmpty(h: Digest, l: Link, id: Id, i: Id)
    ensures IpAt(h, l, id, i) != ""
  {
  }

  /** Bringing both ends up keeps everything consistent. */
  lemma RaisedEndsFit(h: Digest, db: Db, d: Id, id: Id) returns (db1: Db)
    requires Consistent(h, db) && DistinctPairs(h, db.topo) && IsUplink(db.topo, d, id)
    ensures var i, j := UplinkEnd(db.topo, d, id), UpstreamEnd(db.topo, d, id);
      && db1 == db.(topo := RaiseAdmin(RaiseAdmin(db.topo, i), j))
      && Consistent(h, db1) && DistinctPairs(h, db1.topo) && db1.topo.links == db.topo.links
      && IsUplink(db1.topo, d, id) && UplinkEnd(db1.topo, d, id) == i && UpstreamEnd(db1.topo, d, id) == j &&
        db1.topo.ifaces[i].adminUp
  {
    var i, j := UplinkEnd(db.topo, d, id), UpstreamEnd(db.topo, d, id);
    hide Consistent, DistinctPairs, RaiseAdmin, EnsureAddr, EnsureNeighbor, EnsureDefaultRoute;
    var up := db.(topo := RaiseAdmin(db.topo, i));
    RaisedFits(h, db, i);
    RaiseGrows(db, i);
    RaisedFits(h, up, j);
    RaiseGrows(up, j);
    db1 := up.(topo := RaiseAdmin(up.topo, j));
    GrowsTransitive(db, up, db1);
    UplinkStable(db, db1, d, id);
    PairsSame(h, db, db1);
    RaiseRises(db.topo, i);
    AdminKept(up, db1, i);
  }

  /** Configuring an uplink cannot fail and keeps addresses and routes consistent. */
  lemma UplinkFits(h: Digest, db: Db, d: Id, id: Id)
    requires Consistent(h, db) && DistinctPairs(h, db.topo) && IsUplink(db.topo, d, id)
    requires PeerVrf(db.topo, UpstreamOf(db.topo, d, id), db.mgmtVrf) == db.mgmtVrf
    ensures ConfigureLink(h, db, d, db.mgmtVrf, id).Some?
    ensures Consistent(h, ConfigureLink(h, db, d, db.mgmtVrf, id).value)
  {
    hide IsUplink, IpAt, IpOf, PeerIpOf, PeerVrf, DistinctPairs, Consistent, EnsureAddr, EnsureNeighbor,
      EnsureDefaultRoute, RaiseAdmin;
    var i, j := UplinkEnd(db.topo, d, id), UpstreamEnd(db.topo, d, id);
    UplinkEndsDiffer(db.topo, d, id);
    var l, vrf := db.topo.links[id], db.mgmtVrf;
    IpsAgree(h, db.topo, d, id);
    var myIp, peerIp := IpAt(h, l, id, i), IpAt(h, l, id, j);
    IpNotEmpty(h, l, id, j);
    var db1 := RaisedEndsFit(h, db, d, id);
    EnsuredAddrFits(h, db1, id, i);
    var db2 := EnsureAddr(db1, i, myIp, vrf).value;
    EnsureAddrFrame(db1, i, myIp, vrf);
    EnsuredAddrFits(h, db2, id, j);
    var db3 := EnsureAddr(db2, j, peerIp, vrf).value;
    EnsureAddrFrame(db2, j, peerIp, vrf);
    NeighborFits(h, db3, i, peerIp);
    var db4 := EnsureNeighbor(db3, i, peerIp);
    NeighborFits(h, db4, j, myIp);
    var db5 := EnsureNeighbor(db4, j, myIp);
    NeighborFrame(db3, i, peerIp);
    NeighborFrame(db4, j, myIp);
    EnsuredAddress(db2, j, peerIp, vrf);
    AddressKept(db3, db5, j);
    RouteAdded(h, db5, d, id, peerIp);
  }

  lemma EnsuredAddress(db: Db, i: Id, ip: string, vrf: int)
    requires EnsureAddr(db, i, ip, vrf).Some?
    ensures AnyAddress(EnsureAddr(db, i, ip, vrf).value, i)
  {
    var r := EnsureAddr(db, i, ip, vrf).value;
    if HasAddress(db, i, ip) {
      var k :| 0 <= k < |db.addrs| && db.addrs[k].iface == i && db.addrs[k].ip == ip;
      assert r.addrs[k].iface == i;
    } else if !AnyAddress(db, i) {
      assert r.addrs[|db.addrs|].iface == i;
    }
  }

  lemma EnsureAddrFrame(db: Db, i: Id, ip: string, vrf: int)
    requires EnsureAddr(db, i, ip, vrf).Some?
    ensures var r := EnsureAddr(db, i, ip, vrf).value; r.topo == db.topo && r.mgmtVrf == db.mgmtVrf
  {
  }

  lemma NeighborFrame(db: Db, i: Id, ip: string)
    ensures var r := EnsureNeighbor(db, i, ip); r.topo == db.topo && r.mgmtVrf == db.mgmtVrf && r.addrs == db.addrs
  {
  }

  lemma PairsSame(h: Digest, db: Db, db': Db)
    requires db'.topo.links == db.topo.links
    ensures DistinctPairs(h, db.topo) <==> DistinctPairs(h, db'.topo)
  {
  }

  // ---- One device, then all of them ----

  /** The state of the database after any sequence of configurations of `db0`. */
  ghost predicate Configured(h: Digest, db0: Db, db: Db) {
    SameNetwork(db0, db) && Consistent(h, db)
  }

  /** A configured router is in the mgmt VRF and has a default route if it has an uplink. */
  ghost predicate Done(db: Db, d: Id) {
    d in db.topo.devices && NeedsVrf(db.topo.devices[d].kind) ==>
      && db.topo.devices[d].vrf == Some(db.mgmtVrf)
      && ((exists id :: IsUplink(db.topo, d, id)) ==> HasOwnDefault(db, d, db.mgmtVrf))
  }

  lemma VrfsAreMgmt(h: Digest, db0: Db, db: Db, d: Id)
    requires Unconfigured(h, db0) && SameNetwork(db0, db) && d in db.topo.devices
    ensures PeerVrf(db.topo, d, db.mgmtVrf) == db.mgmtVrf
    ensures db.topo.devices[d].vrf == None || db.topo.devices[d].vrf == Some(db.mgmtVrf)
  {
    assert SameDevice(db0.topo.devices[d], db.topo.devices[d], db0.mgmtVrf);
  }

  lemma {:induction false} LinksFit(h: Digest, db0: Db, db: Db, d: Id, rows: seq<Id>)
    requires Unconfigured(h, db0) && Configured(h, db0, db)
    ensures var r := ConfigureLinks(h, db, d, db.mgmtVrf, rows);
      r.Some? && Configured(h, db0, r.value) && Grows(db, r.value)
    decreases |rows|
  {
    if rows != [] {
      var n := |rows| - 1;
      LinksFit(h, db0, db, d, rows[..n]);
      var mid := ConfigureLinks(h, db, d, db.mgmtVrf, rows[..n]).value;
      PairsSame(h, db0, mid);
      if IsUplink(mid.topo, d, rows[n]) {
        VrfsAreMgmt(h, db0, mid, UpstreamOf(mid.topo, d, rows[n]));
        hide Consistent, DistinctPairs, PeerVrf, ConfigureLink, IsUplink, SameNetwork;
        UplinkFits(h, mid, d, rows[n]);
        LinkSettles(h, mid, d, db.mgmtVrf, rows[n]);
        var db' := ConfigureLink(h, mid, d, db.mgmtVrf, rows[n]).value;
        GrownIsSame(db0, mid, db');
        GrowsTransitive(db, mid, db');
      }
    }
  }

  lemma VrfAssigned(h: Digest, db0: Db, db: Db, d: Id)
    requires Unconfigured(h, db0) && Configured(h, db0, db) && d in db.topo.devices
    ensures Configured(h, db0, AssignVrf(db, d))
    ensures AssignVrf(db, d).topo.devices[d].vrf == Some(db.mgmtVrf) && AssignVrf(db, d).mgmtVrf == db.mgmtVrf
  {
    var db' := AssignVrf(db, d);
    VrfsAreMgmt(h, db0, db, d);
    assert SameDevice(db0.topo.devices[d], db.topo.devices[d], db0.mgmtVrf);
    assert SameNetwork(db0, db');
    forall r | r in db.routes ensures RouteFits(h, db', r) {
      assert RouteFits(h, db, r);
      var e, id :| RouteOver(h, db, r, e, id);
      UplinkSame(db0, db, e, id);
      UplinkSame(db0, db', e, id);
      hide IsUplink, SameNetwork, IpAt;
      AddressKept(db, db', UpstreamEnd(db.topo, e, id));
      assert RouteOver(h, db', r, e, id);
    }
    hide RouteFits;
    forall a | a in db.addrs ensures AddrFits(h, db', a) {
      assert AddrFits(h, db, a);
    }
  }

  lemma DoneStays(db: Db, db': Db, e: Id)
    requires Done(db, e) && Grows(db, db')
    ensures Done(db', e)
  {
    if HasOwnDefault(db, e, db.mgmtVrf) {
      OwnDefaultKept(db, db', e, db.mgmtVrf);
    }
    forall id { UplinkStable(db, db', e, id); }
  }

  lemma DoneUnderVrf(h: Digest, db0: Db, db: Db, d: Id, e: Id)
    requires Unconfigured(h, db0) && Configured(h, db0, db) && d in db.topo.devices && Done(db, e)
    ensures e != d ==> Done(AssignVrf(db, d), e)
    ensures HasOwnDefault(db, e, db.mgmtVrf) ==> HasOwnDefault(AssignVrf(db, d), e, db.mgmtVrf)
  {
    hide IsUplink, Configured, Unconfigured;
    var db' := AssignVrf(db, d);
    forall id { UplinkUnderVrf(h, db0, db, d, e, id); }
    if HasOwnDefault(db, e, db.mgmtVrf) {
      var k :| 0 <= k < |db.routes| && db.routes[k].vrf == db.mgmtVrf && db.routes[k].isDefault &&
        OwnRoute(db.topo, e, db.routes[k]);
      assert OwnRoute(db'.topo, e, db'.routes[k]);
    }
  }

  lemma UplinkUnderVrf(h: Digest, db0: Db, db: Db, d: Id, e: Id, id: Id)
    requires Unconfigured(h, db0) && Configured(h, db0, db) && d in db.topo.devices
    ensures IsUplink(db.topo, e, id) <==> IsUplink(AssignVrf(db, d).topo, e, id)
  {
    hide IsUplink, AssignVrf, Unconfigured, SameNetwork, Consistent;
    VrfAssigned(h, db0, db, d);
    UplinkSame(db0, db, e, id);
    UplinkSame(db0, AssignVrf(db, d), e, id);
  }

  /** Configuring one device never fails, finishes that device and leaves the finished ones finished. */
  lemma ConfigureFits(h: Digest, db0: Db, db: Db, d: Id)
    requires Unconfigured(h, db0) && Configured(h, db0, db)
    ensures Configure(h, db, d).Some?
    ensures var db' := Configure(h, db, d).value;
      Configured(h, db0, db') && Done(db', d) && forall e :: Done(db, e) ==> Done(db', e)
  {
    if d in db.topo.devices && NeedsVrf(db.topo.devices[d].kind) {
      var db1 := AssignVrf(db, d);
      VrfAssigned(h, db0, db, d);
      LinksFit(h, db0, db1, d, db.linkRows);
      LinksSettle(h, db1, d, db.mgmtVrf, db.linkRows);
      var db' := Configure(h, db, d).value;
      UplinkIsRow(h, db0, db1, d);
      SettledIsDone(h, db1, db', d);
      forall e | Done(db, e) ensures Done(db', e) {
        if e != d {
          DoneUnderVrf(h, db0, db, d, e);
          DoneStays(db1, db', e);
        }
      }
    }
  }

  lemma UplinkIsRow(h: Digest, db0: Db, db: Db, d: Id)
    requires Unconfigured(h, db0) && SameNetwork(db0, db)
    ensures forall id :: IsUplink(db.topo, d, id) ==> id in db.linkRows
  {
  }

  lemma SettledIsDone(h: Digest, db: Db, db': Db, d: Id)
    requires Grows(db, db') && d in db.topo.devices && db.topo.devices[d].vrf == Some(db.mgmtVrf)
    requires forall k :: 0 <= k < |db.linkRows| ==> Settled(h, db', d, db.mgmtVrf, db.linkRows[k])
    requires forall id :: IsUplink(db.topo, d, id) ==> id in db.linkRows
    ensures Done(db', d)
  {
    if id :| IsUplink(db'.topo, d, id) {
      UplinkStable(db, db', d, id);
      var k :| 0 <= k < |db.linkRows| && db.linkRows[k] == id;
      assert Settled(h, db', d, db.mgmtVrf, db.linkRows[k]);
    }
  }

  /** Configuration of a sequence of devices, in order. */
  function ConfigureAll(h: Digest, db: Db, order: seq<Id>): Option<Db> {
    if order == [] then Some(db)
    else
      var r := ConfigureAll(h, db, order[..|order| - 1]);
      if r.None? then None else Configure(h, r.value, order[|order| - 1])
  }

  lemma {:induction false} AllFit(h: Digest, db0: Db, order: seq<Id>)
    requires Unconfigured(h, db0)
    ensures ConfigureAll(h, db0, order).Some?
    ensures var db := ConfigureAll(h, db0, order).value;
      Configured(h, db0, db) && forall d :: d in order ==> Done(db, d)
    decreases |order|
  {
    if order == [] {
      assert SameNetwork(db0, db0);
    } else {
      var n := |order| - 1;
      hide Unconfigured, Configured, Done, Configure;
      AllFit(h, db0, order[..n]);
      var mid := ConfigureAll(h, db0, order[..n]).value;
      ConfigureFits(h, db0, mid, order[n]);
      assert forall d :: d in order ==> d in order[..n] || d == order[n];
    }
  }

  // ---- The hop a configured router takes ----

  lemma OnlyOneChoice(db: Db, i: Id, ip: string, id: Id)
    requires id in db.linkRows && UsableLink(db.topo, id, i)
    requires forall x :: x in db.topo.links && Touches(db.topo.links[x], i) ==> x == id
    ensures ChosenLink(db, i, ip) == Some(id)
  {
    var links := LinksAt(db.topo, db.linkRows, i);
    assert id in links;
    forall x | x in links ensures x == id {
      assert UsableLink(db.topo, x, i);
    }
  }

  /** A finished router with an uplink hops to a device one level up over one of its uplinks. */
  lemma DoneRouterHops(h: Digest, db0: Db, db: Db, d: Id) returns (id: Id)
    requires Unconfigured(h, db0) && Configured(h, db0, db)
    requires d in db.topo.devices && NeedsVrf(db.topo.devices[d].kind) && Done(db, d)
    requires exists x :: IsUplink(db0.topo, d, x)
    ensures IsUplink(db0.topo, d, id) && NextHop(db, d) == Next(UpstreamOf(db0.topo, d, id))
  {
    hide NextHop, Consistent, UplinksReady;
    var x :| IsUplink(db0.topo, d, x);
    UplinkSame(db0, db, d, x);
    ReadySame(db0, db);
    var best := OwnBestRoute(h, db, d);
    id := RouteUplink(h, db, d, best);
    UplinkSame(db0, db, d, id);
    UplinkHop(db, d, id, best);
  }

  lemma RouteUplink(h: Digest, db: Db, d: Id, r: Route) returns (id: Id)
    requires RouteFits(h, db, r) && OwnRoute(db.topo, d, r)
    ensures RouteOver(h, db, r, d, id)
  {
    var e;
    e, id :| RouteOver(h, db, r, e, id);
    assert Owns(db.topo, e, r.iface.value);
  }

  lemma UplinkHop(db: Db, d: Id, id: Id, r: Route)
    requires IsUplink(db.topo, d, id) && UplinksReady(db.topo) && id in db.linkRows
    requires r.iface == Some(UplinkEnd(db.topo, d, id))
    requires NeedsVrf(db.topo.devices[d].kind) && db.topo.devices[d].vrf == Some(db.mgmtVrf)
    requires RouterHop(db, d, db.mgmtVrf) ==
      match ChosenLink(db, r.iface.value, r.nextHop)
      case None => Stuck(PeerUnresolved)
      case Some(x) => Next(PeerDevice(db.topo, x, r.iface.value))
    ensures NextHop(db, d) == Next(UpstreamOf(db.topo, d, id))
  {
    var i := UplinkEnd(db.topo, d, id);
    UplinkEndsDiffer(db.topo, d, id);
    assert Traversable(db.topo, db.topo.links[id]);
    assert UsableLink(db.topo, id, i) && !ForcedDown(db.topo.devices[d]);
    OnlyOneChoice(db, i, r.nextHop, id);
    hide RouterHop, ChosenLink, IsUplink;
    assert PeerDevice(db.topo, id, i) == UpstreamOf(db.topo, d, id);
  }

  /** The route the trace picks is one of the device's own, hence over one of its uplinks. */
  lemma OwnBestRoute(h: Digest, db: Db, d: Id) returns (best: Route)
    requires Consistent(h, db) && d in db.topo.devices && HasOwnDefault(db, d, db.mgmtVrf)
    ensures RouteFits(h, db, best) && OwnRoute(db.topo, d, best)
    ensures RouterHop(db, d, db.mgmtVrf) ==
      match ChosenLink(db, best.iface.value, best.nextHop)
      case None => Stuck(PeerUnresolved)
      case Some(id) => Next(PeerDevice(db.topo, id, best.iface.value))
  {
    var k :| 0 <= k < |db.routes| && db.routes[k].vrf == db.mgmtVrf && db.routes[k].isDefault &&
      OwnRoute(db.topo, d, db.routes[k]);
    var routes := DefaultRoutes(db.routes, db.mgmtVrf);
    assert db.routes[k] in routes;
    NothingBlocks(h, db, d, routes);
    var cand := ScanRoutes(db.topo, d, routes).routes;
    assert db.routes[k] in cand;
    best := BestRoute(cand);
    assert best in db.routes;
  }

  lemma {:induction false} NothingBlocks(h: Digest, db: Db, d: Id, routes: seq<Route>)
    requires forall r :: r in routes ==> RouteFits(h, db, r)
    ensures ScanRoutes(db.topo, d, routes).Candidates?
  {
    if routes != [] {
      NothingBlocks(h, db, d, routes[1..]);
      assert RouteFits(h, db, routes[0]);
    }
  }

  // ---- The next hop is the upstream end ----

  /** At most one link is plugged into any interface. */
  ghost predicate SinglyLinked(t: Topology) {
    forall x, y, i :: x in t.links && y in t.links && Touches(t.links[x], i) && Touches(t.links[y], i) ==> x == y
  }

  /** An interface with one link bears the address that link assigns to it, if it bears any. */
  lemma AddressIsAssigned(h: Digest, db: Db, id: Id, i: Id)
    requires Consistent(h, db) && SinglyLinked(db.topo) && AnyAddress(db, i)
    requires id in db.topo.links && Touches(db.topo.links[id], i)
    ensures HasAddress(db, i, IpAt(h, db.topo.links[id], id, i))
  {
    hide IpAt, RouteFits;
    var k :| 0 <= k < |db.addrs| && db.addrs[k].iface == i;
    assert db.addrs[k] in db.addrs;
    assert AddrFits(h, db, db.addrs[k]);
  }

  /**
   With at most one link per interface, every default route of a configured router leads to an address of
   its upstream end, and the link the trace chooses for it is that uplink.
   */
  lemma RoutesMeetTheirNextHop(h: Digest, db0: Db, order: seq<Id>, d: Id, r: Route) returns (id: Id)
    requires Unconfigured(h, db0) && SinglyLinked(db0.topo) && ConfigureAll(h, db0, order).Some?
    requires r in ConfigureAll(h, db0, order).value.routes && OwnRoute(ConfigureAll(h, db0, order).value.topo, d, r)
    ensures var db := ConfigureAll(h, db0, order).value;
      && IsUplink(db.topo, d, id) && r.iface == Some(UplinkEnd(db.topo, d, id))
      && HasAddress(db, UpstreamEnd(db.topo, d, id), r.nextHop)
      && BearsNextHop(db, id, r.iface.value, r.nextHop) && ChosenLink(db, r.iface.value, r.nextHop) == Some(id)
  {
    AllFit(h, db0, order);
    var db := ConfigureAll(h, db0, order).value;
    hide ConfigureAll, Done, ChosenLink;
    ReadySame(db0, db);
    assert RouteFits(h, db, r);
    id := RouteUplink(h, db, d, r);
    AddressIsAssigned(h, db, id, UpstreamEnd(db.topo, d, id));
    UplinkEndsDiffer(db.topo, d, id);
    assert Traversable(db.topo, db.topo.links[id]);
    OnlyOneChoice(db, r.iface.value, r.nextHop, id);
  }

  // ---- End to end ----

  ghost predicate HasUplink(t: Topology, d: Id) {
    exists id :: IsUplink(t, d, id)
  }

  /** The upstream devices of `d`. */
  ghost predicate IsUpstream(t: Topology, d: Id, u: Id) {
    exists id :: IsUplink(t, d, id) && UpstreamOf(t, d, id) == u
  }

  /** Configuring every router, in any order, gives every core with a backbone link the trace [core, backbone]. */
  lemma CoreReachesBackbone(h: Digest, db0: Db, order: seq<Id>, core: Id) returns (bb: Id)
    requires Unconfigured(h, db0) && core in order
    requires core in db0.topo.devices && db0.topo.devices[core].kind == CORE_ROUTER && HasUplink(db0.topo, core)
    ensures IsUpstream(db0.topo, core, bb)
    ensures ConfigureAll(h, db0, order).Some?
    ensures var db := ConfigureAll(h, db0, order).value;
      core in db.topo.devices && Trace(db, core) == Reached([core, bb])
  {
    hide NextHop, Consistent, Trace, UplinksReady, DistinctPairs, ConfigureAll;
    AllFit(h, db0, order);
    var db := ConfigureAll(h, db0, order).value;
    assert SameDevice(db0.topo.devices[core], db.topo.devices[core], db0.mgmtVrf);
    var id := DoneRouterHops(h, db0, db, core);
    bb := UpstreamOf(db0.topo, core, id);
    GatewayArrives(h, db0, db, core, id);
    OneHopTrace(db, core, bb);
  }

  lemma OneHopTrace(db: Db, a: Id, b: Id)
    requires a in db.topo.devices && b in db.topo.devices && a != b
    requires NextHop(db, a) == Next(b) && NextHop(db, b) == Arrived
    ensures Trace(db, a) == Reached([a, b])
  {
    hide NextHop;
    assert IsAnchoredChain(db, [a, b]);
    TraceReachesIff(db, a, [a, b]);
  }

  lemma TwoHopTrace(db: Db, a: Id, b: Id, c: Id)
    requires a in db.topo.devices && b in db.topo.devices && c in db.topo.devices && a != b && b != c && a != c
    requires NextHop(db, a) == Next(b) && NextHop(db, b) == Next(c) && NextHop(db, c) == Arrived
    ensures Trace(db, a) == Reached([a, b, c])
  {
    hide NextHop;
    assert IsAnchoredChain(db, [a, b, c]);
    TraceReachesIff(db, a, [a, b, c]);
  }

  lemma GatewayArrives(h: Digest, db0: Db, db: Db, core: Id, id: Id)
    requires Unconfigured(h, db0) && SameNetwork(db0, db)
    requires IsUplink(db0.topo, core, id) && db0.topo.devices[core].kind == CORE_ROUTER
    ensures UpstreamOf(db0.topo, core, id) in db.topo.devices && NextHop(db, UpstreamOf(db0.topo, core, id)) == Arrived
    ensures UpstreamOf(db0.topo, core, id) != core
  {
    var bb := UpstreamOf(db0.topo, core, id);
    assert Traversable(db0.topo, db0.topo.links[id]);
    assert SameDevice(db0.topo.devices[bb], db.topo.devices[bb], db0.mgmtVrf);
  }

  /** An edge whose core neighbours all have a backbone link gets the trace [edge, core, backbone]. */
  lemma EdgeReachesBackbone(h: Digest, db0: Db, order: seq<Id>, edge: Id) returns (core: Id, bb: Id)
    requires Unconfigured(h, db0) && edge in order
    requires edge in db0.topo.devices && db0.topo.devices[edge].kind == EDGE_ROUTER && HasUplink(db0.topo, edge)
    requires forall c :: IsUpstream(db0.topo, edge, c) ==> c in order && HasUplink(db0.topo, c)
    ensures IsUpstream(db0.topo, edge, core) && IsUpstream(db0.topo, core, bb)
    ensures ConfigureAll(h, db0, order).Some?
    ensures var db := ConfigureAll(h, db0, order).value;
      edge in db.topo.devices && Trace(db, edge) == Reached([edge, core, bb])
  {
    hide NextHop, Consistent, Trace, UplinksReady, DistinctPairs, ConfigureAll;
    AllFit(h, db0, order);
    var db := ConfigureAll(h, db0, order).value;
    assert SameDevice(db0.topo.devices[edge], db.topo.devices[edge], db0.mgmtVrf);
    var up := DoneRouterHops(h, db0, db, edge);
    core := UpstreamOf(db0.topo, edge, up);
    assert IsUpstream(db0.topo, edge, core);
    assert db0.topo.devices[core].kind == CORE_ROUTER;
    assert SameDevice(db0.topo.devices[core], db.topo.devices[core], db0.mgmtVrf);
    var id := DoneRouterHops(h, db0, db, core);
    bb := UpstreamOf(db0.topo, core, id);
    GatewayArrives(h, db0, db, core, id);
    assert edge != core && edge != bb;
    TwoHopTrace(db, edge, core, bb);
  }
}
