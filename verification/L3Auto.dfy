/**
 Automatic L3 configuration of router uplinks (backend/services/provisioning_l3_auto.py) and the
 end-to-end route it establishes for the trace.
 */
module L3Auto {
  import opened Types
  import opened Order
  import opened Topology
  import opened L3Trace

  /** The first two digest bytes of a link id. */
  type Digest = Id -> (nat, nat)

  // ---- The /31 pair of a link (section 2.1 of RFC 3021) ----

  function Host(x: nat, y: nat): string {
    "172.18." + Digits(x) + "." + Digits(y)
  }

  function LowIp(h: Digest, id: Id): string {
    Host(h(id).0, h(id).1 / 2 * 2)
  }

  function HighIp(h: Digest, id: Id): string {
    Host(h(id).0, h(id).1 / 2 * 2 + 1)
  }

  /** The lower interface id gets the lower address. */
  function IpOf(h: Digest, id: Id, mine: Id, peer: Id): string {
    if IdLt(mine, peer) then LowIp(h, id) else HighIp(h, id)
  }

  lemma LastDigit(n: nat)
    ensures Digits(n)[|Digits(n)| - 1] == ('0' as int + n % 10) as char
  {
  }

  /** The two hosts of a /31 differ. */
  lemma PairEndsDiffer(h: Digest, id: Id)
    ensures LowIp(h, id) != HighIp(h, id)
  {
    var x, y := h(id).0, h(id).1 / 2 * 2;
    LastDigit(y);
    LastDigit(y + 1);
    var lo, hi := Host(x, y), Host(x, y + 1);
    assert lo[|lo| - 1] == Digits(y)[|Digits(y)| - 1];
    assert hi[|hi| - 1] == Digits(y + 1)[|Digits(y + 1)| - 1];
    assert y % 10 != (y + 1) % 10;
  }

  // ---- Row updates ----

  predicate AnyAddress(db: Db, i: Id) {
    exists k :: 0 <= k < |db.addrs| && db.addrs[k].iface == i
  }

  /** The table's unique constraint on (vrf, ip). */
  predicate Taken(db: Db, ip: string, vrf: int) {
    exists k :: 0 <= k < |db.addrs| && db.addrs[k].ip == ip && db.addrs[k].vrf == vrf
  }

  /** An interface that already has an address keeps it; a clash with the unique constraint fails the session. */
  function EnsureAddr(db: Db, i: Id, ip: string, vrf: int): Option<Db> {
    if HasAddress(db, i, ip) || AnyAddress(db, i) then Some(db)
    else if Taken(db, ip, vrf) then None
    else Some(db.(addrs := db.addrs + [Address(i, ip, vrf)]))
  }

  function EnsureNeighbor(db: Db, i: Id, ip: string): Db {
    if Neighbor(i, ip) in db.neighbors then db else db.(neighbors := db.neighbors + [Neighbor(i, ip)])
  }

  /** A default route in the VRF whose egress belongs to the device. */
  predicate HasOwnDefault(db: Db, d: Id, vrf: int) {
    exists k :: 0 <= k < |db.routes| && db.routes[k].vrf == vrf && db.routes[k].isDefault &&
      OwnRoute(db.topo, d, db.routes[k])
  }

  predicate HasRoute(db: Db, vrf: int, i: Id, nh: string) {
    exists k :: 0 <= k < |db.routes| && db.routes[k].vrf == vrf && db.routes[k].isDefault
      && db.routes[k].iface == Some(i) && db.routes[k].nextHop == nh
  }

  function EnsureDefaultRoute(db: Db, d: Id, vrf: int, i: Id, nh: string): Db {
    if HasRoute(db, vrf, i, nh) || HasOwnDefault(db, d, vrf) then db
    else db.(routes := db.routes + [Route(|db.routes|, vrf, true, nh, Some(i), 1, 0)])
  }

  function RaiseAdmin(t: Topology, i: Id): Topology {
    if i in t.ifaces then t.(ifaces := t.ifaces[i := t.ifaces[i].(adminUp := true)]) else t
  }

  // ---- One uplink ----

  predicate Owns(t: Topology, d: Id, i: Id) {
    i in t.ifaces && t.ifaces[i].device == d
  }

  function MyEnd(t: Topology, d: Id, l: Link): Id {
    if Owns(t, d, l.a) then l.a else l.b
  }

  predicate UpstreamKind(down: DeviceType, up: DeviceType) {
    (down == EDGE_ROUTER && up == CORE_ROUTER) || (down == CORE_ROUTER && up == BACKBONE_GATEWAY)
  }

  /** The link joins router `d` to a device one level up. */
  predicate IsUplink(t: Topology, d: Id, id: Id) {
    && id in t.links && d in t.devices && (Owns(t, d, t.links[id].a) || Owns(t, d, t.links[id].b))
    && var peer := PeerEnd(t.links[id], MyEnd(t, d, t.links[id]));
       peer in t.ifaces && t.ifaces[peer].device in t.devices
       && UpstreamKind(t.devices[d].kind, t.devices[t.ifaces[peer].device].kind)
  }

  function UplinkEnd(t: Topology, d: Id, id: Id): (i: Id)
    requires IsUplink(t, d, id)
    ensures Owns(t, d, i) && Touches(t.links[id], i)
  {
    MyEnd(t, d, t.links[id])
  }

  function UpstreamEnd(t: Topology, d: Id, id: Id): (i: Id)
    requires IsUplink(t, d, id)
    ensures i in t.ifaces && Touches(t.links[id], i)
  {
    PeerEnd(t.links[id], MyEnd(t, d, t.links[id]))
  }

  function UpstreamOf(t: Topology, d: Id, id: Id): (u: Id)
    requires IsUplink(t, d, id)
    ensures u in t.devices
  {
    t.ifaces[UpstreamEnd(t, d, id)].device
  }

  /** `peer_dev.vrf_id or device.vrf_id`. */
  function PeerVrf(t: Topology, peer: Id, vrf: int): int
    requires peer in t.devices
  {
    if t.devices[peer].vrf.Some? && t.devices[peer].vrf.value != 0 then t.devices[peer].vrf.value else vrf
  }

  function PeerIpOf(h: Digest, id: Id, mine: Id, peer: Id): string {
    if IdLt(mine, peer) then HighIp(h, id) else LowIp(h, id)
  }

  /** Both ends up, one address each, mutual neighbours, and a default route for `d` towards the peer. */
  function ConfigureEnds(db: Db, d: Id, vrf: int, i: Id, j: Id, myIp: string, peerIp: string,
                         peerVrf: int): Option<Db> {
    var db1 := db.(topo := RaiseAdmin(RaiseAdmin(db.topo, i), j));
    var mine := EnsureAddr(db1, i, myIp, vrf);
    if mine.None? then None
    else
      var both := EnsureAddr(mine.value, j, peerIp, peerVrf);
      if both.None? then None
      else Some(EnsureDefaultRoute(EnsureNeighbor(EnsureNeighbor(both.value, i, peerIp), j, myIp), d, vrf, i, peerIp))
  }

  function ConfigureLink(h: Digest, db: Db, d: Id, vrf: int, id: Id): Option<Db> {
    if !IsUplink(db.topo, d, id) then Some(db)
    else
      var i, j := UplinkEnd(db.topo, d, id), UpstreamEnd(db.topo, d, id);
      ConfigureEnds(db, d, vrf, i, j, IpOf(h, id, i, j), PeerIpOf(h, id, i, j),
        PeerVrf(db.topo, UpstreamOf(db.topo, d, id), vrf))
  }

  function ConfigureLinks(h: Digest, db: Db, d: Id, vrf: int, rows: seq<Id>): Option<Db> {
    if rows == [] then Some(db)
    else
      var r := ConfigureLinks(h, db, d, vrf, rows[..|rows| - 1]);
      if r.None? then None else ConfigureLink(h, r.value, d, vrf, rows[|rows| - 1])
  }

  function AssignVrf(db: Db, d: Id): Db
    requires d in db.topo.devices
  {
    if db.topo.devices[d].vrf.Some? then db
    else db.(topo := db.topo.(devices := db.topo.devices[d := db.topo.devices[d].(vrf := Some(db.mgmtVrf))]))
  }

  /** What the session sees after `auto_configure_l3_uplinks`; None stands for a clash of addresses. */
  function Configure(h: Digest, db: Db, d: Id): Option<Db> {
    if d !in db.topo.devices || !NeedsVrf(db.topo.devices[d].kind) then Some(db)
    else
      var db1 := AssignVrf(db, d);
      ConfigureLinks(h, db1, d, db1.topo.devices[d].vrf.value, db.linkRows)
  }

  /** How a call leaves its session. */
  datatype Ending = Untouched | LeftOpen | Committed | RolledBack | Escaped

  predicate AnyUplink(t: Topology, d: Id, rows: seq<Id>) {
    exists k :: 0 <= k < |rows| && IsUplink(t, d, rows[k])
  }

  /**
   The database session: `db` is committed, `work` is what the session sees.  A clash with the address
   constraint surfaces at the next query, outside the guarded commit, so the error leaves the call;
   without an uplink the assigned VRF is flushed and not committed.
   */
  class Session {
    var db: Db
    var work: Db

    constructor (db0: Db)
      ensures db == db0 && work == db0
    {
      db, work := db0, db0;
    }

    method AutoConfigure(h: Digest, d: Id, commitOk: bool) returns (end: Ending)
      modifies this
      ensures end.Untouched? <==>
        d !in old(work).topo.devices || old(work).topo.devices[d].kind !in {CORE_ROUTER, EDGE_ROUTER}
      ensures end.Untouched? ==> db == old(db) && work == old(work)
      ensures !end.Untouched? ==> (end.Escaped? <==> Configure(h, old(work), d).None?)
      ensures !end.Untouched? && !end.Escaped? ==>
        (end.LeftOpen? <==> forall p :: !OnUplink(old(work).topo, old(work).linkRows, d, p))
      ensures end.Committed? || end.RolledBack? ==> end.Committed? == commitOk
      ensures end.LeftOpen? || end.Committed? ==>
        Some(work) == Configure(h, old(work), d) && ConfiguredBy(h, old(work), d, work)
      ensures db == if end.Committed? then work else old(db)
      ensures end.Escaped? || end.RolledBack? ==> work == old(db)
    {
      hide IsUplink, ConfigureLink, AnyUplink, ConfiguredBy, OnUplink;
      if d !in work.topo.devices || !NeedsVrf(work.topo.devices[d].kind) {
        return Untouched;
      }
      ghost var before := work;
      var rows, changed := work.linkRows, false;
      work := AssignVrf(work, d);
      var vrf := work.topo.devices[d].vrf.value;
      ghost var start := work;
      VrfKeepsUplinks(before, d);
      assert !AnyUplink(before.topo, d, rows[..0]) by { AnyUplinkNone(before.topo, d); }
      for k := 0 to |rows|
        invariant db == old(db) && ConfigureLinks(h, start, d, vrf, rows[..k]) == Some(work)
        invariant changed <==> AnyUplink(before.topo, d, rows[..k])
      {
        assert rows[..k + 1][..k] == rows[..k];
        UplinksSoFar(h, start, work, d, vrf, rows[..k]);
        AnyUplinkNext(before.topo, d, rows, k);
        if IsUplink(work.topo, d, rows[k]) {
          changed := true;
        }
        var r := ConfigureLink(h, work, d, vrf, rows[k]);
        if r.None? {
          ConflictStays(h, start, d, vrf, rows, k + 1);
          work := db;
          return Escaped;
        }
        work := r.value;
      }
      assert rows[..|rows|] == rows;
      ConfigureOnRows(h, before, d);
      AnyUplinkOnRows(before.topo, d, rows);
      if !changed {
        end := LeftOpen;
      } else if commitOk {
        db := work;
        end := Committed;
      } else {
        work := db;
        end := RolledBack;
      }
    }
  }

  lemma AnyUplinkOnRows(t: Topology, d: Id, rows: seq<Id>)
    ensures AnyUplink(t, d, rows) <==> exists p :: OnUplink(t, rows, d, p)
  {
    if AnyUplink(t, d, rows) {
      var k :| 0 <= k < |rows| && IsUplink(t, d, rows[k]);
      UplinkOnRows(t, d, rows[k]);
      assert OnUplink(t, rows, d, UplinkEnd(t, d, rows[k]));
    }
    if p :| OnUplink(t, rows, d, p) {
      var id, i, j, u :| id in rows && RowUplink(t, d, id, i, j, u) && (p == i || p == j);
      UplinkOnRows(t, d, id);
    }
  }

  lemma VrfKeepsUplinks(db: Db, d: Id)
    requires d in db.topo.devices
    ensures AssignVrf(db, d).linkRows == db.linkRows
    ensures forall id :: IsUplink(AssignVrf(db, d).topo, d, id) <==> IsUplink(db.topo, d, id)
  {
    forall id ensures IsUplink(AssignVrf(db, d).topo, d, id) <==> IsUplink(db.topo, d, id) {
    }
  }

  lemma UplinksSoFar(h: Digest, db: Db, db': Db, d: Id, vrf: int, rows: seq<Id>)
    requires ConfigureLinks(h, db, d, vrf, rows) == Some(db')
    ensures forall id :: IsUplink(db.topo, d, id) <==> IsUplink(db'.topo, d, id)
  {
    hide ConfigureLinks, Grows, IsUplink;
    LinksSettle(h, db, d, vrf, rows);
    forall id { UplinkStable(db, db', d, id); }
  }

  lemma AnyUplinkNone(t: Topology, d: Id)
    ensures !AnyUplink(t, d, [])
  {
  }

  lemma AnyUplinkNext(t: Topology, d: Id, rows: seq<Id>, k: nat)
    requires k < |rows|
    ensures AnyUplink(t, d, rows[..k + 1]) <==> AnyUplink(t, d, rows[..k]) || IsUplink(t, d, rows[k])
  {
    hide IsUplink;
    var s := rows[..k + 1];
    assert s[k] == rows[k];
    if AnyUplink(t, d, rows[..k]) {
      var i :| 0 <= i < k && IsUplink(t, d, rows[..k][i]);
      assert IsUplink(t, d, s[i]);
    }
    if AnyUplink(t, d, s) && !IsUplink(t, d, rows[k]) {
      var i :| 0 <= i <= k && IsUplink(t, d, s[i]);
      assert IsUplink(t, d, rows[..k][i]);
    }
  }

  lemma {:induction false} ConflictStays(h: Digest, db: Db, d: Id, vrf: int, rows: seq<Id>, k: nat)
    requires k <= |rows| && ConfigureLinks(h, db, d, vrf, rows[..k]) == None
    ensures ConfigureLinks(h, db, d, vrf, rows) == None
    decreases |rows| - k
  {
    if k == |rows| {
      assert rows[..k] == rows;
    } else {
      assert rows[..k + 1][..k] == rows[..k];
      ConflictStays(h, db, d, vrf, rows, k + 1);
    }
  }

  // ---- Configuring never takes anything away, and repeating it changes nothing ----

  /** The same devices, links and ends; interfaces may have come up; rows may have been added. */
  ghost predicate Grows(db: Db, db': Db) {
    && db'.topo.devices == db.topo.devices && db'.topo.links == db.topo.links
    && db'.linkRows == db.linkRows && db'.ifaceRows == db.ifaceRows && db'.mgmtVrf == db.mgmtVrf
    && IfacesRise(db.topo, db'.topo)
    && db.addrs <= db'.addrs && db.neighbors <= db'.neighbors && db.routes <= db'.routes
  }

  ghost predicate IfacesRise(t: Topology, t': Topology) {
    && t'.ifaces.Keys == t.ifaces.Keys
    && forall i :: i in t.ifaces ==> t'.ifaces[i] == t.ifaces[i] || t'.ifaces[i] == t.ifaces[i].(adminUp := true)
  }

  lemma RaiseRises(t: Topology, i: Id)
    ensures IfacesRise(t, RaiseAdmin(t, i)) && RaiseAdmin(t, i).devices == t.devices
    ensures RaiseAdmin(t, i).links == t.links
    ensures i in t.ifaces ==> RaiseAdmin(t, i).ifaces[i].adminUp
    ensures i in t.ifaces && t.ifaces[i].adminUp ==> RaiseAdmin(t, i) == t
  {
    if i in t.ifaces && t.ifaces[i].adminUp {
      assert t.ifaces[i := t.ifaces[i].(adminUp := true)] == t.ifaces;
    }
  }

  lemma GrowsTransitive(a: Db, b: Db, c: Db)
    requires Grows(a, b) && Grows(b, c)
    ensures Grows(a, c)
  {
  }

  lemma RaiseGrows(db: Db, i: Id)
    ensures Grows(db, db.(topo := RaiseAdmin(db.topo, i)))
  {
    RaiseRises(db.topo, i);
    hide RaiseAdmin;
  }

  lemma StepsGrow(db: Db, d: Id, i: Id, ip: string, vrf: int)
    ensures EnsureAddr(db, i, ip, vrf).Some? ==> Grows(db, EnsureAddr(db, i, ip, vrf).value)
    ensures Grows(db, EnsureNeighbor(db, i, ip))
    ensures Grows(db, EnsureDefaultRoute(db, d, vrf, i, ip))
    ensures Grows(db, db.(topo := RaiseAdmin(db.topo, i)))
  {
    RaiseGrows(db, i);
    hide HasAddress, AnyAddress, Taken, HasOwnDefault, HasRoute, RaiseAdmin;
  }

  /** The databases between the steps of `ConfigureEnds`, each grown out of the one before. */
  lemma EndsSteps(db: Db, d: Id, vrf: int, i: Id, j: Id, myIp: string, peerIp: string, peerVrf: int)
    returns (db1: Db, db2: Db, db3: Db, db4: Db, db5: Db)
    requires ConfigureEnds(db, d, vrf, i, j, myIp, peerIp, peerVrf).Some?
    ensures db1 == db.(topo := RaiseAdmin(RaiseAdmin(db.topo, i), j)) && Grows(db, db1)
    ensures EnsureAddr(db1, i, myIp, vrf) == Some(db2) && Grows(db1, db2)
    ensures EnsureAddr(db2, j, peerIp, peerVrf) == Some(db3) && Grows(db2, db3)
    ensures db4 == EnsureNeighbor(EnsureNeighbor(db3, i, peerIp), j, myIp) && Grows(db3, db4)
    ensures db5 == EnsureDefaultRoute(db4, d, vrf, i, peerIp) && Grows(db4, db5)
    ensures ConfigureEnds(db, d, vrf, i, j, myIp, peerIp, peerVrf) == Some(db5)
  {
    hide Grows, RaiseAdmin, EnsureAddr, EnsureNeighbor, EnsureDefaultRoute;
    var up := db.(topo := RaiseAdmin(db.topo, i));
    db1 := up.(topo := RaiseAdmin(up.topo, j));
    StepsGrow(db, d, i, myIp, vrf);
    StepsGrow(up, d, j, myIp, vrf);
    GrowsTransitive(db, up, db1);
    db2 := EnsureAddr(db1, i, myIp, vrf).value;
    StepsGrow(db1, d, i, myIp, vrf);
    db3 := EnsureAddr(db2, j, peerIp, peerVrf).value;
    StepsGrow(db2, d, j, peerIp, peerVrf);
    var mid := EnsureNeighbor(db3, i, peerIp);
    db4 := EnsureNeighbor(mid, j, myIp);
    StepsGrow(db3, d, i, peerIp, vrf);
    StepsGrow(mid, d, j, myIp, vrf);
    GrowsTransitive(db3, mid, db4);
    db5 := EnsureDefaultRoute(db4, d, vrf, i, peerIp);
    StepsGrow(db4, d, i, peerIp, vrf);
  }

  lemma ConfigureEndsGrows(db: Db, d: Id, vrf: int, i: Id, j: Id, myIp: string, peerIp: string, peerVrf: int)
    requires ConfigureEnds(db, d, vrf, i, j, myIp, peerIp, peerVrf).Some?
    ensures Grows(db, ConfigureEnds(db, d, vrf, i, j, myIp, peerIp, peerVrf).value)
  {
    hide Grows, ConfigureEnds;
    var db1, db2, db3, db4, db5 := EndsSteps(db, d, vrf, i, j, myIp, peerIp, peerVrf);
    GrowsTransitive(db, db1, db2);
    GrowsTransitive(db, db2, db3);
    GrowsTransitive(db, db3, db4);
    GrowsTransitive(db, db4, db5);
  }

  /** Nothing is left to do for these ends. */
  ghost predicate EndsSettled(db: Db, d: Id, vrf: int, i: Id, j: Id, myIp: string, peerIp: string) {
    && i in db.topo.ifaces && db.topo.ifaces[i].adminUp && j in db.topo.ifaces && db.topo.ifaces[j].adminUp
    && AnyAddress(db, i) && AnyAddress(db, j) && HasOwnDefault(db, d, vrf)
    && Neighbor(i, peerIp) in db.neighbors && Neighbor(j, myIp) in db.neighbors
  }

  lemma SettledEndsAreFixed(db: Db, d: Id, vrf: int, i: Id, j: Id, myIp: string, peerIp: string, peerVrf: int)
    requires EndsSettled(db, d, vrf, i, j, myIp, peerIp)
    ensures ConfigureEnds(db, d, vrf, i, j, myIp, peerIp, peerVrf) == Some(db)
  {
    RaiseRises(db.topo, i);
    RaiseRises(db.topo, j);
    hide RaiseAdmin, HasAddress, AnyAddress, Taken, HasOwnDefault, HasRoute;
  }

  lemma SettledEndsStay(db: Db, db': Db, d: Id, vrf: int, i: Id, j: Id, myIp: string, peerIp: string)
    requires Grows(db, db') && EndsSettled(db, d, vrf, i, j, myIp, peerIp)
    ensures EndsSettled(db', d, vrf, i, j, myIp, peerIp)
  {
    AddrsKept(db, db', i);
    AddrsKept(db, db', j);
    OwnDefaultKept(db, db', d, vrf);
    hide AnyAddress, HasOwnDefault;
  }

  lemma AddrsKept(db: Db, db': Db, i: Id)
    requires Grows(db, db') && AnyAddress(db, i)
    ensures AnyAddress(db', i)
  {
    var k :| 0 <= k < |db.addrs| && db.addrs[k].iface == i;
    assert db'.addrs[k] == db.addrs[k];
  }

  lemma OwnDefaultKept(db: Db, db': Db, d: Id, vrf: int)
    requires Grows(db, db') && HasOwnDefault(db, d, vrf)
    ensures HasOwnDefault(db', d, vrf)
  {
    var k :| 0 <= k < |db.routes| && db.routes[k].vrf == vrf && db.routes[k].isDefault &&
      OwnRoute(db.topo, d, db.routes[k]);
    assert db'.routes[k] == db.routes[k];
  }

  lemma AddrEnsured(db: Db, i: Id, ip: string, vrf: int)
    requires EnsureAddr(db, i, ip, vrf).Some?
    ensures AnyAddress(EnsureAddr(db, i, ip, vrf).value, i)
  {
    var db' := EnsureAddr(db, i, ip, vrf).value;
    if !HasAddress(db, i, ip) && !AnyAddress(db, i) {
      assert db'.addrs[|db.addrs|].iface == i;
    }
  }

  lemma ExactRouteIsOwn(db: Db, d: Id, vrf: int, i: Id, nh: string)
    requires Owns(db.topo, d, i) && HasRoute(db, vrf, i, nh)
    ensures HasOwnDefault(db, d, vrf)
  {
    var k :| 0 <= k < |db.routes| && db.routes[k].vrf == vrf && db.routes[k].isDefault
      && db.routes[k].iface == Some(i) && db.routes[k].nextHop == nh;
    assert OwnRoute(db.topo, d, db.routes[k]);
  }

  lemma RouteEnsured(db: Db, d: Id, vrf: int, i: Id, nh: string)
    requires Owns(db.topo, d, i)
    ensures HasOwnDefault(EnsureDefaultRoute(db, d, vrf, i, nh), d, vrf)
  {
    var db' := EnsureDefaultRoute(db, d, vrf, i, nh);
    if HasRoute(db, vrf, i, nh) {
      ExactRouteIsOwn(db, d, vrf, i, nh);
    } else if !HasOwnDefault(db, d, vrf) {
      assert OwnRoute(db'.topo, d, db'.routes[|db.routes|]);
    }
  }

  lemma EndsSettle(db: Db, d: Id, vrf: int, i: Id, j: Id, myIp: string, peerIp: string, peerVrf: int)
    requires Owns(db.topo, d, i) && j in db.topo.ifaces
    requires ConfigureEnds(db, d, vrf, i, j, myIp, peerIp, peerVrf).Some?
    ensures EndsSettled(ConfigureEnds(db, d, vrf, i, j, myIp, peerIp, peerVrf).value, d, vrf, i, j, myIp, peerIp)
  {
    hide ConfigureEnds, AnyAddress, HasOwnDefault, EnsureAddr, EnsureNeighbor, EnsureDefaultRoute, RaiseAdmin, Grows;
    var db1, db2, db3, db4, db5 := EndsSteps(db, d, vrf, i, j, myIp, peerIp, peerVrf);
    RaiseRises(db.topo, i);
    RaiseRises(RaiseAdmin(db.topo, i), j);
    GrowsTransitive(db1, db2, db3);
    GrowsTransitive(db1, db3, db4);
    GrowsTransitive(db1, db4, db5);
    AdminKept(db1, db5, i);
    AdminKept(db1, db5, j);
    AddrEnsured(db1, i, myIp, vrf);
    AddrEnsured(db2, j, peerIp, peerVrf);
    GrowsTransitive(db3, db4, db5);
    AddrsKept(db2, db3, i);
    AddrsKept(db3, db5, i);
    AddrsKept(db3, db5, j);
    NeighborsEnsured(db3, i, peerIp, j, myIp);
    NeighborsKept(db4, db5);
    OwnerKept(db, db1, d, i);
    OwnerKept(db1, db4, d, i);
    RouteEnsured(db4, d, vrf, i, peerIp);
  }

  lemma AdminKept(db: Db, db': Db, i: Id)
    requires Grows(db, db') && i in db.topo.ifaces && db.topo.ifaces[i].adminUp
    ensures i in db'.topo.ifaces && db'.topo.ifaces[i].adminUp
  {
  }

  lemma OwnerKept(db: Db, db': Db, d: Id, i: Id)
    requires Grows(db, db') && Owns(db.topo, d, i)
    ensures Owns(db'.topo, d, i)
  {
  }

  lemma NeighborsKept(db: Db, db': Db)
    requires Grows(db, db')
    ensures forall n :: n in db.neighbors ==> n in db'.neighbors
  {
  }

  lemma NeighborsEnsured(db: Db, i: Id, ip: string, j: Id, ip': string)
    ensures var db' := EnsureNeighbor(EnsureNeighbor(db, i, ip), j, ip');
      Neighbor(i, ip) in db'.neighbors && Neighbor(j, ip') in db'.neighbors
  {
  }

  ghost predicate Settled(h: Digest, db: Db, d: Id, vrf: int, id: Id) {
    IsUplink(db.topo, d, id) ==>
      var i, j := UplinkEnd(db.topo, d, id), UpstreamEnd(db.topo, d, id);
      EndsSettled(db, d, vrf, i, j, IpOf(h, id, i, j), PeerIpOf(h, id, i, j))
  }

  lemma UplinkStable(db: Db, db': Db, d: Id, id: Id)
    requires Grows(db, db')
    ensures IsUplink(db.topo, d, id) <==> IsUplink(db'.topo, d, id)
    ensures IsUplink(db.topo, d, id) ==>
      && UplinkEnd(db'.topo, d, id) == UplinkEnd(db.topo, d, id)
      && UpstreamEnd(db'.topo, d, id) == UpstreamEnd(db.topo, d, id)
      && UpstreamOf(db'.topo, d, id) == UpstreamOf(db.topo, d, id)
  {
    assert forall i :: Owns(db.topo, d, i) <==> Owns(db'.topo, d, i);
  }

  /** One link: the database grows, the link is settled, and a settled link is left alone. */
  lemma LinkSettles(h: Digest, db: Db, d: Id, vrf: int, id: Id)
    ensures var r := ConfigureLink(h, db, d, vrf, id);
      r.Some? ==> Grows(db, r.value) && Settled(h, r.value, d, vrf, id)
    ensures Settled(h, db, d, vrf, id) ==> ConfigureLink(h, db, d, vrf, id) == Some(db)
  {
    if IsUplink(db.topo, d, id) {
      var i, j := UplinkEnd(db.topo, d, id), UpstreamEnd(db.topo, d, id);
      var myIp, peerIp := IpOf(h, id, i, j), PeerIpOf(h, id, i, j);
      var peerVrf := PeerVrf(db.topo, UpstreamOf(db.topo, d, id), vrf);
      var r := ConfigureEnds(db, d, vrf, i, j, myIp, peerIp, peerVrf);
      hide IsUplink, ConfigureEnds, EndsSettled, IpOf, PeerIpOf, PeerVrf, Grows;
      if r.Some? {
        ConfigureEndsGrows(db, d, vrf, i, j, myIp, peerIp, peerVrf);
        EndsSettle(db, d, vrf, i, j, myIp, peerIp, peerVrf);
        UplinkStable(db, r.value, d, id);
      }
      if EndsSettled(db, d, vrf, i, j, myIp, peerIp) {
        SettledEndsAreFixed(db, d, vrf, i, j, myIp, peerIp, peerVrf);
      }
    }
  }

  lemma SettledStays(h: Digest, db: Db, db': Db, d: Id, vrf: int, id: Id)
    requires Grows(db, db') && Settled(h, db, d, vrf, id)
    ensures Settled(h, db', d, vrf, id)
  {
    UplinkStable(db, db', d, id);
    hide Grows, EndsSettled, IsUplink;
    if IsUplink(db.topo, d, id) {
      var i, j := UplinkEnd(db.topo, d, id), UpstreamEnd(db.topo, d, id);
      SettledEndsStay(db, db', d, vrf, i, j, IpOf(h, id, i, j), PeerIpOf(h, id, i, j));
    }
  }

  lemma {:induction false} LinksSettle(h: Digest, db: Db, d: Id, vrf: int, rows: seq<Id>)
    requires ConfigureLinks(h, db, d, vrf, rows).Some?
    ensures var db' := ConfigureLinks(h, db, d, vrf, rows).value;
      Grows(db, db') && forall k :: 0 <= k < |rows| ==> Settled(h, db', d, vrf, rows[k])
    decreases |rows|
  {
    hide Grows, Settled, ConfigureLink;
    if rows != [] {
      var n := |rows| - 1;
      LinksSettle(h, db, d, vrf, rows[..n]);
      var mid := ConfigureLinks(h, db, d, vrf, rows[..n]).value;
      var db' := ConfigureLink(h, mid, d, vrf, rows[n]).value;
      assert ConfigureLinks(h, db, d, vrf, rows) == Some(db');
      LinkSettles(h, mid, d, vrf, rows[n]);
      GrowsTransitive(db, mid, db');
      AllStaySettled(h, mid, db', d, vrf, rows[..n]);
      assert forall k :: 0 <= k < n ==> rows[..n][k] == rows[k];
    } else {
      GrowsFromSelf(db);
    }
  }

  lemma GrowsFromSelf(db: Db)
    ensures Grows(db, db)
  {
  }

  lemma AllStaySettled(h: Digest, db: Db, db': Db, d: Id, vrf: int, rows: seq<Id>)
    requires Grows(db, db') && forall k :: 0 <= k < |rows| ==> Settled(h, db, d, vrf, rows[k])
    ensures forall k :: 0 <= k < |rows| ==> Settled(h, db', d, vrf, rows[k])
  {
    hide Grows, Settled;
    forall k | 0 <= k < |rows| ensures Settled(h, db', d, vrf, rows[k]) {
      SettledStays(h, db, db', d, vrf, rows[k]);
    }
  }

  lemma {:induction false} SettledRowsAreFixed(h: Digest, db: Db, d: Id, vrf: int, rows: seq<Id>)
    requires forall k :: 0 <= k < |rows| ==> Settled(h, db, d, vrf, rows[k])
    ensures ConfigureLinks(h, db, d, vrf, rows) == Some(db)
    decreases |rows|
  {
    hide Settled, ConfigureLink;
    if rows != [] {
      var n := |rows| - 1;
      assert forall k :: 0 <= k < n ==> rows[..n][k] == rows[k];
      SettledRowsAreFixed(h, db, d, vrf, rows[..n]);
      LinkSettles(h, db, d, vrf, rows[n]);
    }
  }

  /** Idempotence, from any database: a second run finds nothing to do. */
  lemma ConfigureIsIdempotent(h: Digest, db: Db, d: Id)
    requires Configure(h, db, d).Some?
    ensures var db' := Configure(h, db, d).value; Configure(h, db', d) == Some(db')
  {
    if d in db.topo.devices && NeedsVrf(db.topo.devices[d].kind) {
      var db1 := AssignVrf(db, d);
      var vrf := db1.topo.devices[d].vrf.value;
      LinksSettle(h, db1, d, vrf, db.linkRows);
      var db' := Configure(h, db, d).value;
      hide Settled, ConfigureLinks;
      SettledRowsAreFixed(h, db', d, vrf, db.linkRows);
    }
  }

  // ---- What a call adds, read off the columns of the rows ----

  /** Row `id` joins port `i` of `d` to port `j` of device `u`, one level further up. */
  ghost predicate RowUplink(t: Topology, d: Id, id: Id, i: Id, j: Id, u: Id) {
    && id in t.links && (t.links[id].a, t.links[id].b) in {(i, j), (j, i)}
    && i in t.ifaces && t.ifaces[i].device == d && j in t.ifaces && t.ifaces[j].device == u
    && d in t.devices && u in t.devices
    && (t.devices[d].kind, t.devices[u].kind) in {(EDGE_ROUTER, CORE_ROUTER), (CORE_ROUTER, BACKBONE_GATEWAY)}
  }

  /** The even host of the pair goes to the lower port id, the odd one to the other. */
  ghost function RowIp(h: Digest, id: Id, i: Id, j: Id): string {
    var y := h(id).1;
    "172.18." + Digits(h(id).0) + "." + Digits(y - y % 2 + if IdLt(i, j) then 0 else 1)
  }

  ghost function RowPeerVrf(t: Topology, u: Id, vrf: int): int
    requires u in t.devices
  {
    if t.devices[u].vrf in {None, Some(0)} then vrf else t.devices[u].vrf.value
  }

  /** An address one of the uplinks of `d` asks for. */
  ghost predicate AskedAddress(h: Digest, t: Topology, rows: seq<Id>, d: Id, vrf: int, a: Address) {
    exists id, i, j, u :: id in rows && RowUplink(t, d, id, i, j, u) &&
      (a == Address(i, RowIp(h, id, i, j), vrf) || a == Address(j, RowIp(h, id, j, i), RowPeerVrf(t, u, vrf)))
  }

  ghost predicate AskedNeighbor(h: Digest, t: Topology, rows: seq<Id>, d: Id, n: Neighbor) {
    exists id, i, j, u :: id in rows && RowUplink(t, d, id, i, j, u) &&
      (n == Neighbor(i, RowIp(h, id, j, i)) || n == Neighbor(j, RowIp(h, id, i, j)))
  }

  /** A default route of `d` in the VRF, out of the port of an uplink to the address asked for the other end. */
  ghost predicate AskedRoute(h: Digest, t: Topology, rows: seq<Id>, d: Id, vrf: int, r: Route) {
    exists id, i, j, u :: id in rows && RowUplink(t, d, id, i, j, u) &&
      r == Route(r.id, vrf, true, RowIp(h, id, j, i), Some(i), 1, 0)
  }

  ghost predicate RowOwnDefault(t: Topology, d: Id, vrf: int, r: Route) {
    r.vrf == vrf && r.isDefault && r.iface.Some? && r.iface.value in t.ifaces && t.ifaces[r.iface.value].device == d
  }

  ghost predicate OnUplink(t: Topology, rows: seq<Id>, d: Id, p: Id) {
    exists id, i, j, u :: id in rows && RowUplink(t, d, id, i, j, u) && (p == i || p == j)
  }

  /** Only ports on uplinks of `d` have changed, and only by coming up. */
  ghost predicate PortsRaised(t: Topology, rows: seq<Id>, d: Id, t0: Topology, t1: Topology) {
    && t1.devices == t0.devices && t1.links == t0.links && t1.ifaces.Keys == t0.ifaces.Keys
    && forall p :: p in t0.ifaces && t1.ifaces[p] != t0.ifaces[p] ==>
         t1.ifaces[p] == t0.ifaces[p].(adminUp := true) && OnUplink(t, rows, d, p)
  }

  /** Asked for, at a port that had no address, and not in use in its VRF. */
  ghost predicate NewAddress(h: Digest, t: Topology, rows: seq<Id>, d: Id, vrf: int, addrs: seq<Address>, k: nat)
    requires k < |addrs|
  {
    && AskedAddress(h, t, rows, d, vrf, addrs[k])
    && forall m :: 0 <= m < k ==>
         addrs[m].iface != addrs[k].iface && (addrs[m].ip != addrs[k].ip || addrs[m].vrf != addrs[k].vrf)
  }

  /** Asked for, while `d` had no default route in the VRF. */
  ghost predicate NewRoute(h: Digest, t: Topology, rows: seq<Id>, d: Id, vrf: int, routes: seq<Route>, k: nat)
    requires k < |routes|
  {
    AskedRoute(h, t, rows, d, vrf, routes[k]) && forall m :: 0 <= m < k ==> !RowOwnDefault(t, d, vrf, routes[m])
  }

  /** Each added row is one that an uplink asks for and that nothing before it made superfluous. */
  ghost predicate AddsAsked(h: Digest, t: Topology, rows: seq<Id>, d: Id, vrf: int, db: Db, db': Db) {
    && db.addrs <= db'.addrs && db.neighbors <= db'.neighbors && db.routes <= db'.routes
    && (forall k :: |db.addrs| <= k < |db'.addrs| ==> NewAddress(h, t, rows, d, vrf, db'.addrs, k))
    && (forall k :: |db.neighbors| <= k < |db'.neighbors| ==>
          AskedNeighbor(h, t, rows, d, db'.neighbors[k]) && db'.neighbors[k] !in db'.neighbors[..k])
    && (forall k :: |db.routes| <= k < |db'.routes| ==> NewRoute(h, t, rows, d, vrf, db'.routes, k))
  }

  /** Everything the uplinks of `d` ask for is there. */
  ghost predicate HasAsked(h: Digest, t: Topology, rows: seq<Id>, d: Id, vrf: int, db: Db) {
    forall id, i, j, u :: id in rows && RowUplink(t, d, id, i, j, u) ==>
      && i in db.topo.ifaces && db.topo.ifaces[i].adminUp && j in db.topo.ifaces && db.topo.ifaces[j].adminUp
      && (exists a :: a in db.addrs && a.iface == i) && (exists a :: a in db.addrs && a.iface == j)
      && Neighbor(i, RowIp(h, id, j, i)) in db.neighbors && Neighbor(j, RowIp(h, id, i, j)) in db.neighbors
      && exists r :: r in db.routes && RowOwnDefault(t, d, vrf, r)
  }

  ghost predicate ConfiguredBy(h: Digest, db: Db, d: Id, db': Db) {
    && d in db.topo.devices
    && var vrf := if db.topo.devices[d].vrf == None then db.mgmtVrf else db.topo.devices[d].vrf.value;
       var t := db.topo.(devices := db.topo.devices[d := db.topo.devices[d].(vrf := Some(vrf))]);
       && PortsRaised(t, db.linkRows, d, t, db'.topo)
       && db'.ifaceRows == db.ifaceRows && db'.linkRows == db.linkRows && db'.mgmtVrf == db.mgmtVrf
       && AddsAsked(h, t, db.linkRows, d, vrf, db, db') && HasAsked(h, t, db.linkRows, d, vrf, db')
  }

  lemma UplinkOnRows(t: Topology, d: Id, id: Id)
    ensures IsUplink(t, d, id) ==>
      RowUplink(t, d, id, UplinkEnd(t, d, id), UpstreamEnd(t, d, id), UpstreamOf(t, d, id))
    ensures forall i, j, u :: RowUplink(t, d, id, i, j, u) ==>
      IsUplink(t, d, id) && i == UplinkEnd(t, d, id) && j == UpstreamEnd(t, d, id) && u == UpstreamOf(t, d, id)
  {
  }

  lemma IpsOnRows(h: Digest, id: Id, i: Id, j: Id)
    requires i != j
    ensures IpOf(h, id, i, j) == RowIp(h, id, i, j) && PeerIpOf(h, id, i, j) == RowIp(h, id, j, i)
  {
    IdLtTotal(i, j);
  }

  ghost predicate Adds(h: Digest, t: Topology, rows: seq<Id>, d: Id, vrf: int, db: Db, db': Db) {
    && PortsRaised(t, rows, d, db.topo, db'.topo) && AddsAsked(h, t, rows, d, vrf, db, db')
  }

  lemma AddsTransitive(h: Digest, t: Topology, rows: seq<Id>, d: Id, vrf: int, a: Db, b: Db, c: Db)
    requires Adds(h, t, rows, d, vrf, a, b) && Adds(h, t, rows, d, vrf, b, c)
    ensures Adds(h, t, rows, d, vrf, a, c)
  {
    hide AskedAddress, AskedNeighbor, AskedRoute, OnUplink, RowOwnDefault;
    forall k | |a.addrs| <= k < |c.addrs| ensures NewAddress(h, t, rows, d, vrf, c.addrs, k) {
      if k < |b.addrs| { assert NewAddress(h, t, rows, d, vrf, b.addrs, k); }
    }
    forall k | |a.routes| <= k < |c.routes| ensures NewRoute(h, t, rows, d, vrf, c.routes, k) {
      if k < |b.routes| { assert NewRoute(h, t, rows, d, vrf, b.routes, k); }
    }
    forall k | |a.neighbors| <= k < |c.neighbors|
      ensures AskedNeighbor(h, t, rows, d, c.neighbors[k]) && c.neighbors[k] !in c.neighbors[..k]
    {
      if k < |b.neighbors| { assert c.neighbors[..k] == b.neighbors[..k]; }
    }
  }

  lemma RaiseAdds(h: Digest, t: Topology, rows: seq<Id>, d: Id, vrf: int, db: Db, p: Id)
    requires OnUplink(t, rows, d, p)
    ensures Adds(h, t, rows, d, vrf, db, db.(topo := RaiseAdmin(db.topo, p)))
  {
    hide OnUplink, NewAddress, NewRoute, AskedNeighbor;
  }

  lemma AddrAdds(h: Digest, t: Topology, rows: seq<Id>, d: Id, vrf: int, db: Db, p: Id, ip: string, v: int)
    requires AskedAddress(h, t, rows, d, vrf, Address(p, ip, v)) && EnsureAddr(db, p, ip, v).Some?
    ensures Adds(h, t, rows, d, vrf, db, EnsureAddr(db, p, ip, v).value)
  {
    hide AskedAddress, NewRoute, AskedNeighbor, HasAddress;
  }

  lemma NeighborAdds(h: Digest, t: Topology, rows: seq<Id>, d: Id, vrf: int, db: Db, p: Id, ip: string)
    requires AskedNeighbor(h, t, rows, d, Neighbor(p, ip))
    ensures Adds(h, t, rows, d, vrf, db, EnsureNeighbor(db, p, ip))
  {
    hide AskedNeighbor, NewRoute, NewAddress;
    var db' := EnsureNeighbor(db, p, ip);
    assert db'.neighbors[..|db.neighbors|] == db.neighbors;
  }

  lemma RouteAdds(h: Digest, t: Topology, rows: seq<Id>, d: Id, vrf: int, db: Db, p: Id, nh: string)
    requires AskedRoute(h, t, rows, d, vrf, Route(|db.routes|, vrf, true, nh, Some(p), 1, 0))
    requires forall r :: OwnRoute(db.topo, d, r) <==> OwnRoute(t, d, r)
    ensures Adds(h, t, rows, d, vrf, db, EnsureDefaultRoute(db, d, vrf, p, nh))
  {
    hide AskedRoute, NewAddress, AskedNeighbor, HasRoute;
  }

  /** The rows one uplink asks for. */
  lemma UplinkAsks(h: Digest, t: Topology, rows: seq<Id>, d: Id, vrf: int, id: Id, i: Id, j: Id, u: Id)
    requires id in rows && RowUplink(t, d, id, i, j, u)
    ensures OnUplink(t, rows, d, i) && OnUplink(t, rows, d, j)
    ensures AskedAddress(h, t, rows, d, vrf, Address(i, RowIp(h, id, i, j), vrf))
    ensures AskedAddress(h, t, rows, d, vrf, Address(j, RowIp(h, id, j, i), RowPeerVrf(t, u, vrf)))
    ensures AskedNeighbor(h, t, rows, d, Neighbor(i, RowIp(h, id, j, i)))
    ensures AskedNeighbor(h, t, rows, d, Neighbor(j, RowIp(h, id, i, j)))
    ensures forall n :: AskedRoute(h, t, rows, d, vrf, Route(n, vrf, true, RowIp(h, id, j, i), Some(i), 1, 0))
  {
    hide RowUplink, RowIp, RowPeerVrf;
  }

  lemma EndsAdd(h: Digest, t: Topology, rows: seq<Id>, d: Id, vrf: int, db: Db, id: Id, i: Id, j: Id, u: Id)
    requires id in rows && RowUplink(t, d, id, i, j, u) && IfacesRise(t, db.topo)
    requires ConfigureEnds(db, d, vrf, i, j, RowIp(h, id, i, j), RowIp(h, id, j, i), RowPeerVrf(t, u, vrf)).Some?
    ensures var db' := ConfigureEnds(db, d, vrf, i, j, RowIp(h, id, i, j), RowIp(h, id, j, i), RowPeerVrf(t, u, vrf));
      Adds(h, t, rows, d, vrf, db, db'.value)
  {
    UplinkAsks(h, t, rows, d, vrf, id, i, j, u);
    var myIp, peerIp, pv := RowIp(h, id, i, j), RowIp(h, id, j, i), RowPeerVrf(t, u, vrf);
    hide *;
    var db1, db2, db3, db4, db5 := EndsSteps(db, d, vrf, i, j, myIp, peerIp, pv);
    var up, mid := db.(topo := RaiseAdmin(db.topo, i)), EnsureNeighbor(db3, i, peerIp);
    RaiseAdds(h, t, rows, d, vrf, db, i);
    RaiseAdds(h, t, rows, d, vrf, up, j);
    AddsTransitive(h, t, rows, d, vrf, db, up, db1);
    AddrAdds(h, t, rows, d, vrf, db1, i, myIp, vrf);
    AddsTransitive(h, t, rows, d, vrf, db, db1, db2);
    AddrAdds(h, t, rows, d, vrf, db2, j, peerIp, pv);
    AddsTransitive(h, t, rows, d, vrf, db, db2, db3);
    NeighborAdds(h, t, rows, d, vrf, db3, i, peerIp);
    AddsTransitive(h, t, rows, d, vrf, db, db3, mid);
    NeighborAdds(h, t, rows, d, vrf, mid, j, myIp);
    AddsTransitive(h, t, rows, d, vrf, db, mid, db4);
    OwnRoutesKept(h, t, rows, d, vrf, db, db4);
    RouteAdds(h, t, rows, d, vrf, db4, i, peerIp);
    AddsTransitive(h, t, rows, d, vrf, db, db4, db5);
  }

  lemma OwnRoutesKept(h: Digest, t: Topology, rows: seq<Id>, d: Id, vrf: int, db: Db, db': Db)
    requires IfacesRise(t, db.topo) && Adds(h, t, rows, d, vrf, db, db')
    ensures forall r :: OwnRoute(db'.topo, d, r) <==> OwnRoute(t, d, r)
  {
    hide OnUplink, AddsAsked;
  }

  lemma LinkAdds(h: Digest, base: Db, rows: seq<Id>, d: Id, vrf: int, db: Db, id: Id)
    requires Grows(base, db) && id in rows && ConfigureLink(h, db, d, vrf, id).Some?
    ensures Adds(h, base.topo, rows, d, vrf, db, ConfigureLink(h, db, d, vrf, id).value)
  {
    UplinkStable(base, db, d, id);
    UplinkOnRows(base.topo, d, id);
    if IsUplink(base.topo, d, id) {
      var i, j := UplinkEnd(base.topo, d, id), UpstreamEnd(base.topo, d, id);
      var u := UpstreamOf(base.topo, d, id);
      EndsDiffer(base.topo, d, id, i, j, u);
      IpsOnRows(h, id, i, j);
      assert RowPeerVrf(base.topo, u, vrf) == PeerVrf(db.topo, u, vrf);
      hide Adds, RowUplink, RowIp, RowPeerVrf, PeerVrf, IsUplink, ConfigureEnds;
      EndsAdd(h, base.topo, rows, d, vrf, db, id, i, j, u);
    } else {
      NothingAdds(h, base.topo, rows, d, vrf, db);
    }
  }

  lemma EndsDiffer(t: Topology, d: Id, id: Id, i: Id, j: Id, u: Id)
    requires RowUplink(t, d, id, i, j, u)
    ensures i != j && d != u
  {
  }

  lemma NothingAdds(h: Digest, t: Topology, rows: seq<Id>, d: Id, vrf: int, db: Db)
    ensures Adds(h, t, rows, d, vrf, db, db)
  {
  }

  lemma {:induction false} LinksAdd(h: Digest, db: Db, rows: seq<Id>, d: Id, vrf: int, n: nat)
    requires n <= |rows| && ConfigureLinks(h, db, d, vrf, rows[..n]).Some?
    ensures Adds(h, db.topo, rows, d, vrf, db, ConfigureLinks(h, db, d, vrf, rows[..n]).value)
    decreases n
  {
    hide Adds, ConfigureLink, Grows;
    if n > 0 {
      assert rows[..n][..n - 1] == rows[..n - 1];
      LinksAdd(h, db, rows, d, vrf, n - 1);
      LinksSettle(h, db, d, vrf, rows[..n - 1]);
      var mid := ConfigureLinks(h, db, d, vrf, rows[..n - 1]).value;
      LinkAdds(h, db, rows, d, vrf, mid, rows[n - 1]);
      AddsTransitive(h, db.topo, rows, d, vrf, db, mid, ConfigureLinks(h, db, d, vrf, rows[..n]).value);
    } else {
      NothingAdds(h, db.topo, rows, d, vrf, db);
    }
  }

  lemma SettledHasAsked(h: Digest, db: Db, db': Db, d: Id, vrf: int, id: Id, i: Id, j: Id, u: Id)
    requires Grows(db, db') && Settled(h, db', d, vrf, id) && RowUplink(db.topo, d, id, i, j, u)
    ensures i in db'.topo.ifaces && db'.topo.ifaces[i].adminUp && j in db'.topo.ifaces && db'.topo.ifaces[j].adminUp
    ensures (exists a :: a in db'.addrs && a.iface == i) && (exists a :: a in db'.addrs && a.iface == j)
    ensures Neighbor(i, RowIp(h, id, j, i)) in db'.neighbors && Neighbor(j, RowIp(h, id, i, j)) in db'.neighbors
    ensures exists r :: r in db'.routes && RowOwnDefault(db.topo, d, vrf, r)
  {
    UplinkStable(db, db', d, id);
    UplinkOnRows(db.topo, d, id);
    EndsDiffer(db.topo, d, id, i, j, u);
    IpsOnRows(h, id, i, j);
    hide IsUplink, RowUplink, RowIp, IpOf, PeerIpOf;
    assert EndsSettled(db', d, vrf, i, j, RowIp(h, id, i, j), RowIp(h, id, j, i));
    AddressRow(db', i);
    AddressRow(db', j);
    var k :| 0 <= k < |db'.routes| && db'.routes[k].vrf == vrf && db'.routes[k].isDefault &&
      OwnRoute(db'.topo, d, db'.routes[k]);
    assert RowOwnDefault(db.topo, d, vrf, db'.routes[k]);
  }

  lemma AddressRow(db: Db, i: Id)
    requires AnyAddress(db, i)
    ensures exists a :: a in db.addrs && a.iface == i
  {
    var k :| 0 <= k < |db.addrs| && db.addrs[k].iface == i;
    assert db.addrs[k] in db.addrs;
  }

  lemma AllAsked(h: Digest, db: Db, db': Db, d: Id, vrf: int, rows: seq<Id>)
    requires Grows(db, db') && forall k :: 0 <= k < |rows| ==> Settled(h, db', d, vrf, rows[k])
    ensures HasAsked(h, db.topo, rows, d, vrf, db')
  {
    hide Grows, Settled, RowUplink, RowIp, RowOwnDefault;
    forall id, i, j, u | id in rows && RowUplink(db.topo, d, id, i, j, u)
      ensures i in db'.topo.ifaces && db'.topo.ifaces[i].adminUp && j in db'.topo.ifaces && db'.topo.ifaces[j].adminUp
      ensures (exists a :: a in db'.addrs && a.iface == i) && (exists a :: a in db'.addrs && a.iface == j)
      ensures Neighbor(i, RowIp(h, id, j, i)) in db'.neighbors && Neighbor(j, RowIp(h, id, i, j)) in db'.neighbors
      ensures exists r :: r in db'.routes && RowOwnDefault(db.topo, d, vrf, r)
    {
      SettledHasAsked(h, db, db', d, vrf, id, i, j, u);
    }
  }

  /**
   What a call does to the rows: `d` keeps its VRF or gets the mgmt VRF, no other device row changes, only
   ports on uplinks come up, and the address, neighbour and route rows added are exactly those asked for.
   */
  lemma ConfigureOnRows(h: Digest, db: Db, d: Id)
    requires Configure(h, db, d).Some?
    ensures var db' := Configure(h, db, d).value;
      if d in db.topo.devices && db.topo.devices[d].kind in {CORE_ROUTER, EDGE_ROUTER} then ConfiguredBy(h, db, d, db')
      else db' == db
  {
    if d in db.topo.devices && NeedsVrf(db.topo.devices[d].kind) {
      var db1 := AssignVrf(db, d);
      var vrf := db1.topo.devices[d].vrf.value;
      var db' := Configure(h, db, d).value;
      assert db.linkRows[..|db.linkRows|] == db.linkRows;
      VrfAssigned(db, d);
      hide Adds, Settled, ConfigureLinks, AssignVrf, HasAsked;
      LinksAdd(h, db1, db.linkRows, d, vrf, |db.linkRows|);
      LinksSettle(h, db1, d, vrf, db.linkRows);
      AllAsked(h, db1, db', d, vrf, db.linkRows);
      ConfiguredParts(h, db, db1, d, vrf, db');
    }
  }

  lemma VrfAssigned(db: Db, d: Id)
    requires d in db.topo.devices
    ensures var vrf := if db.topo.devices[d].vrf == None then db.mgmtVrf else db.topo.devices[d].vrf.value;
      AssignVrf(db, d) ==
        db.(topo := db.topo.(devices := db.topo.devices[d := db.topo.devices[d].(vrf := Some(vrf))]))
  {
    if db.topo.devices[d].vrf.Some? {
      assert db.topo.devices[d := db.topo.devices[d].(vrf := db.topo.devices[d].vrf)] == db.topo.devices;
    }
  }

  lemma ConfiguredParts(h: Digest, db: Db, db1: Db, d: Id, vrf: int, db': Db)
    requires d in db.topo.devices
    requires vrf == if db.topo.devices[d].vrf == None then db.mgmtVrf else db.topo.devices[d].vrf.value
    requires db1 == db.(topo := db.topo.(devices := db.topo.devices[d := db.topo.devices[d].(vrf := Some(vrf))]))
    requires Adds(h, db1.topo, db.linkRows, d, vrf, db1, db') && Grows(db1, db')
    requires HasAsked(h, db1.topo, db.linkRows, d, vrf, db')
    ensures ConfiguredBy(h, db, d, db')
  {
    hide PortsRaised, HasAsked, NewAddress, NewRoute, AskedNeighbor, IfacesRise;
  }

  // ---- When a call fails ----

  /** The port has no address and the one asked for is taken in its VRF. */
  ghost predicate Clashes(db: Db, p: Id, ip: string, vrf: int) {
    (forall a :: a in db.addrs ==> a.iface != p) && exists a :: a in db.addrs && a.ip == ip && a.vrf == vrf
  }

  ghost predicate UplinkClashes(h: Digest, db: Db, d: Id, vrf: int, id: Id) {
    exists i, j, u :: RowUplink(db.topo, d, id, i, j, u) &&
      (Clashes(db, i, RowIp(h, id, i, j), vrf) || Clashes(db, j, RowIp(h, id, j, i), RowPeerVrf(db.topo, u, vrf)))
  }

  lemma AddrFailsIff(db: Db, p: Id, ip: string, vrf: int)
    ensures EnsureAddr(db, p, ip, vrf).None? <==> Clashes(db, p, ip, vrf)
  {
    if Clashes(db, p, ip, vrf) {
      var a :| a in db.addrs && a.ip == ip && a.vrf == vrf;
      var k :| 0 <= k < |db.addrs| && db.addrs[k] == a;
    }
  }

  /** The address of one end gets in the way of the other end neither as a row of its port nor as a taken host. */
  lemma OtherEndClashesIff(db: Db, db': Db, i: Id, myIp: string, vrf: int, j: Id, peerIp: string, peerVrf: int)
    requires i != j && myIp != peerIp && EnsureAddr(db, i, myIp, vrf) == Some(db')
    ensures Clashes(db', j, peerIp, peerVrf) <==> Clashes(db, j, peerIp, peerVrf)
  {
    hide HasAddress, AnyAddress, Taken;
    assert forall a :: a in db'.addrs <==> a in db.addrs || (db' != db && a == Address(i, myIp, vrf));
    hide EnsureAddr;
  }

  lemma EndsFailIff(db: Db, d: Id, vrf: int, i: Id, j: Id, myIp: string, peerIp: string, peerVrf: int)
    requires i != j && myIp != peerIp
    ensures ConfigureEnds(db, d, vrf, i, j, myIp, peerIp, peerVrf).None? <==>
      Clashes(db, i, myIp, vrf) || Clashes(db, j, peerIp, peerVrf)
  {
    hide EnsureAddr, EnsureNeighbor, EnsureDefaultRoute, RaiseAdmin, Clashes;
    var db1 := db.(topo := RaiseAdmin(RaiseAdmin(db.topo, i), j));
    AddrFailsIff(db1, i, myIp, vrf);
    ClashesByAddrs(db, db1, i, myIp, vrf);
    ClashesByAddrs(db, db1, j, peerIp, peerVrf);
    var mine := EnsureAddr(db1, i, myIp, vrf);
    if mine.Some? {
      OtherEndClashesIff(db1, mine.value, i, myIp, vrf, j, peerIp, peerVrf);
      AddrFailsIff(mine.value, j, peerIp, peerVrf);
    }
  }

  lemma ClashesByAddrs(db: Db, db': Db, p: Id, ip: string, vrf: int)
    requires db'.addrs == db.addrs
    ensures Clashes(db', p, ip, vrf) <==> Clashes(db, p, ip, vrf)
  {
  }

  lemma LinkFailsIff(h: Digest, db: Db, d: Id, vrf: int, id: Id)
    ensures ConfigureLink(h, db, d, vrf, id).None? <==> UplinkClashes(h, db, d, vrf, id)
  {
    UplinkOnRows(db.topo, d, id);
    if IsUplink(db.topo, d, id) {
      var i, j, u := UplinkEnd(db.topo, d, id), UpstreamEnd(db.topo, d, id), UpstreamOf(db.topo, d, id);
      EndsDiffer(db.topo, d, id, i, j, u);
      IpsOnRows(h, id, i, j);
      PairEndsDiffer(h, id);
      assert IpOf(h, id, i, j) != PeerIpOf(h, id, i, j);
      assert RowPeerVrf(db.topo, u, vrf) == PeerVrf(db.topo, u, vrf);
      hide IsUplink, RowUplink, RowIp, RowPeerVrf, PeerVrf, Clashes, ConfigureEnds, IpOf, PeerIpOf;
      EndsFailIff(db, d, vrf, i, j, RowIp(h, id, i, j), RowIp(h, id, j, i), RowPeerVrf(db.topo, u, vrf));
    }
  }

  ghost predicate FailsAt(h: Digest, db: Db, d: Id, vrf: int, rows: seq<Id>, n: nat)
    requires n < |rows|
  {
    var mid := ConfigureLinks(h, db, d, vrf, rows[..n]);
    mid.Some? && UplinkClashes(h, mid.value, d, vrf, rows[n])
  }

  /** A call fails exactly when, after the rows before it, some uplink asks for an address that is taken. */
  lemma {:induction false} LinksFailIff(h: Digest, db: Db, d: Id, vrf: int, rows: seq<Id>)
    ensures ConfigureLinks(h, db, d, vrf, rows).None? <==>
      exists n :: 0 <= n < |rows| && FailsAt(h, db, d, vrf, rows, n)
    decreases |rows|
  {
    hide ConfigureLink, UplinkClashes;
    if rows != [] {
      var n := |rows| - 1;
      var front := rows[..n];
      LinksFailIff(h, db, d, vrf, front);
      forall k | 0 <= k < n ensures FailsAt(h, db, d, vrf, front, k) <==> FailsAt(h, db, d, vrf, rows, k) {
        assert front[..k] == rows[..k];
      }
      if ConfigureLinks(h, db, d, vrf, front).Some? {
        LinkFailsIff(h, ConfigureLinks(h, db, d, vrf, front).value, d, vrf, rows[n]);
        assert FailsAt(h, db, d, vrf, rows, n) <==> ConfigureLinks(h, db, d, vrf, rows).None?;
      }
      hide FailsAt;
    }
  }

  lemma ConfigureFailsIff(h: Digest, db: Db, d: Id)
    ensures Configure(h, db, d).None? <==>
      && d in db.topo.devices && db.topo.devices[d].kind in {CORE_ROUTER, EDGE_ROUTER}
      && var vrf := if db.topo.devices[d].vrf == None then db.mgmtVrf else db.topo.devices[d].vrf.value;
         var db1 := db.(topo := db.topo.(devices := db.topo.devices[d := db.topo.devices[d].(vrf := Some(vrf))]));
         exists n :: 0 <= n < |db.linkRows| && FailsAt(h, db1, d, vrf, db.linkRows, n)
  {
    if d in db.topo.devices {
      VrfAssigned(db, d);
      var db1 := AssignVrf(db, d);
      hide ConfigureLinks, AssignVrf, FailsAt;
      LinksFailIff(h, db1, d, db1.topo.devices[d].vrf.value, db.linkRows);
    }
  }
}
