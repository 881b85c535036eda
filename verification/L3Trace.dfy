/**
 The deterministic L3 trace to a backbone anchor (backend/services/dependency_resolver_trace.py).
 Row order is part of the snapshot because the source depends on it for access devices.
 */
module L3Trace {
  import opened Types
  import opened Order
  import opened Topology
  import opened Samples

  datatype Route = Route(id: int, vrf: int, isDefault: bool, nextHop: string, iface: Option<Id>, distance: int,
                         metric: int)

  datatype Address = Address(iface: Id, ip: string, vrf: int)

  datatype Neighbor = Neighbor(iface: Id, ip: string)

  datatype Db = Db(
    topo: Topology, ifaceRows: seq<Id>, linkRows: seq<Id>,
    routes: seq<Route>, addrs: seq<Address>, neighbors: seq<Neighbor>, mgmtVrf: int)

  // ---- Links ----

  predicate EndUsable(t: Topology, i: Id) {
    DeviceOf(t, i).Some? && EndPresent(t, i)
  }

  /** Administratively passable and between existing devices that are not forced down. */
  predicate Traversable(t: Topology, l: Link) {
    AdminPassable(l) && EndUsable(t, l.a) && EndUsable(t, l.b)
  }

  predicate Touches(l: Link, i: Id) {
    l.a == i || l.b == i
  }

  function PeerEnd(l: Link, i: Id): Id {
    if l.a == i then l.b else l.a
  }

  predicate UsableLink(t: Topology, id: Id, i: Id) {
    id in t.links && Touches(t.links[id], i) && Traversable(t, t.links[id])
  }

  /** Passable links at an interface, in row order. */
  function LinksAt(t: Topology, rows: seq<Id>, i: Id): (r: seq<Id>)
    ensures forall id :: id in r <==> id in rows && UsableLink(t, id, i)
  {
    if rows == [] then []
    else if UsableLink(t, rows[0], i) then [rows[0]] + LinksAt(t, rows[1..], i)
    else LinksAt(t, rows[1..], i)
  }

  predicate HasAddress(db: Db, i: Id, ip: string) {
    exists k :: 0 <= k < |db.addrs| && db.addrs[k].iface == i && db.addrs[k].ip == ip
  }

  function Matching(db: Db, links: seq<Id>, i: Id, ip: string): (r: seq<Id>)
    requires forall id :: id in links ==> id in db.topo.links
    ensures forall id :: id in r ==> id in links
    ensures forall id :: id in links && HasAddress(db, PeerEnd(db.topo.links[id], i), ip) ==> id in r
    ensures forall id :: id in r ==> HasAddress(db, PeerEnd(db.topo.links[id], i), ip)
  {
    if links == [] then []
    else if HasAddress(db, PeerEnd(db.topo.links[links[0]], i), ip) then [links[0]] + Matching(db, links[1..], i, ip)
    else Matching(db, links[1..], i, ip)
  }

  predicate BearsNextHop(db: Db, id: Id, i: Id, ip: string) {
    id in db.topo.links && HasAddress(db, PeerEnd(db.topo.links[id], i), ip)
  }

  /** Links that lead to the next-hop address come first, then the smaller id. */
  predicate LinkPreferred(db: Db, i: Id, ip: string, a: Id, b: Id) {
    if BearsNextHop(db, a, i, ip) == BearsNextHop(db, b, i, ip) then IdLe(a, b) else BearsNextHop(db, a, i, ip)
  }

  /** The least passable link to an interface that bears the next-hop address; failing that, the least passable link. */
  function ChosenLink(db: Db, i: Id, ip: string): (r: Option<Id>)
    ensures r.Some? ==> UsableLink(db.topo, r.value, i) && r.value in db.linkRows
    ensures forall id :: id in db.linkRows && UsableLink(db.topo, id, i) ==>
      r.Some? && LinkPreferred(db, i, ip, r.value, id)
  {
    var links := LinksAt(db.topo, db.linkRows, i);
    if links == [] then None
    else
      var m := Matching(db, links, i, ip);
      Some(if m != [] then LeastIn(m) else LeastIn(links))
  }

  /** The chosen link leads to the next-hop address exactly when some passable link at the interface does. */
  lemma ChosenBearsIff(db: Db, i: Id, ip: string)
    ensures (ChosenLink(db, i, ip).Some? && BearsNextHop(db, ChosenLink(db, i, ip).value, i, ip)) <==>
      exists id :: id in db.linkRows && UsableLink(db.topo, id, i) && BearsNextHop(db, id, i, ip)
  {
    hide ChosenLink, UsableLink, BearsNextHop;
    var r := ChosenLink(db, i, ip);
    if id :| id in db.linkRows && UsableLink(db.topo, id, i) && BearsNextHop(db, id, i, ip) {
      assert r.Some? && LinkPreferred(db, i, ip, r.value, id);
    }
  }

  function PeerDevice(t: Topology, id: Id, i: Id): (d: Id)
    requires UsableLink(t, id, i)
    ensures d in t.devices && !ForcedDown(t.devices[d])
  {
    t.ifaces[PeerEnd(t.links[id], i)].device
  }

  // ---- One hop ----

  datatype Reason =
    | SelfForcedDown | ForcedDownHere | NoVrf | NoInterfaces | NoUpstreamRouter
    | NoDefaultRoute | EgressAdminDown | NoNextHop | NoEligibleRoute | PeerUnresolved

  datatype Hop = Arrived | Stuck(reason: Reason) | Next(device: Id)

  function InterfacesOf(t: Topology, rows: seq<Id>, d: Id): (r: seq<Id>)
    ensures forall i :: i in r <==> i in rows && i in t.ifaces && t.ifaces[i].device == d
  {
    if rows == [] then []
    else if rows[0] in t.ifaces && t.ifaces[rows[0]].device == d then [rows[0]] + InterfacesOf(t, rows[1..], d)
    else InterfacesOf(t, rows[1..], d)
  }

  /** Some traversable link joins the two devices. */
  ghost predicate Joined(t: Topology, u: Id, v: Id) {
    exists id, i :: UsableLink(t, id, i) && t.ifaces[i].device == u && t.ifaces[PeerEnd(t.links[id], i)].device == v
  }

  function PeersVia(t: Topology, i: Id, links: seq<Id>): (r: seq<Id>)
    requires forall id :: id in links ==> UsableLink(t, id, i)
    ensures forall d :: d in r ==> d in t.devices && !ForcedDown(t.devices[d])
    ensures forall d :: d in r ==> exists id :: id in links && PeerDevice(t, id, i) == d
    ensures forall id :: id in links ==> PeerDevice(t, id, i) in r
  {
    if links == [] then []
    else [PeerDevice(t, links[0], i)] + PeersVia(t, i, links[1..])
  }

  /** Devices one passable link away, interface by interface in row order. */
  function Upstreams(db: Db, ifaces: seq<Id>): (r: seq<Id>)
    ensures forall d :: d in r ==> d in db.topo.devices && !ForcedDown(db.topo.devices[d])
    ensures forall i, id :: i in ifaces && id in db.linkRows && UsableLink(db.topo, id, i) ==>
      PeerDevice(db.topo, id, i) in r
  {
    if ifaces == [] then []
    else PeersVia(db.topo, ifaces[0], LinksAt(db.topo, db.linkRows, ifaces[0])) + Upstreams(db, ifaces[1..])
  }

  /** `ds[k]` is the first router, or the first device when there is no router. */
  ghost predicate IsFirstChoice(t: Topology, ds: seq<Id>, k: nat)
    requires k < |ds| && forall d :: d in ds ==> d in t.devices
  {
    if IsRouterType(t.devices[ds[k]].kind) then forall j :: 0 <= j < k ==> !IsRouterType(t.devices[ds[j]].kind)
    else k == 0 && forall j :: 0 <= j < |ds| ==> !IsRouterType(t.devices[ds[j]].kind)
  }

  /** Routers first, then the first access device: the head of the stable sort by priority. */
  function Preferred(t: Topology, ds: seq<Id>): (r: Id)
    requires ds != [] && forall d :: d in ds ==> d in t.devices
    ensures exists k :: 0 <= k < |ds| && ds[k] == r && IsFirstChoice(t, ds, k)
  {
    if IsRouterType(t.devices[ds[0]].kind) then ds[0]
    else if |ds| == 1 then ds[0]
    else
      var r := Preferred(t, ds[1..]);
      if IsRouterType(t.devices[r].kind) then r else ds[0]
  }

  function AccessHop(db: Db, d: Id): Hop {
    var ifaces := InterfacesOf(db.topo, db.ifaceRows, d);
    if ifaces == [] then Stuck(NoInterfaces)
    else
      var ups := Upstreams(db, ifaces);
      if ups == [] then Stuck(NoUpstreamRouter) else Next(Preferred(db.topo, ups))
  }

  datatype Scan = Blocked(reason: Reason) | Candidates(routes: seq<Route>)

  /** Default routes of a device in row order; the first unusable egress ends the scan. */
  function ScanRoutes(t: Topology, d: Id, routes: seq<Route>): (s: Scan)
    ensures s.Blocked? ==> s.reason == EgressAdminDown || s.reason == NoNextHop
    ensures s.Candidates? ==> forall r :: r in s.routes <==> r in routes && OwnRoute(t, d, r)
    ensures s.Candidates? ==> forall r :: r in s.routes ==>
      OwnRoute(t, d, r) && t.ifaces[r.iface.value].adminUp && r.nextHop != ""
  {
    if routes == [] then Candidates([])
    else if !OwnRoute(t, d, routes[0]) then ScanRoutes(t, d, routes[1..])
    else if !t.ifaces[routes[0].iface.value].adminUp then Blocked(EgressAdminDown)
    else if routes[0].nextHop == "" then Blocked(NoNextHop)
    else
      var rest := ScanRoutes(t, d, routes[1..]);
      if rest.Blocked? then rest else Candidates([routes[0]] + rest.routes)
  }

  predicate OwnRoute(t: Topology, d: Id, r: Route) {
    r.iface.Some? && r.iface.value in t.ifaces && t.ifaces[r.iface.value].device == d
  }

  function DefaultRoutes(routes: seq<Route>, vrf: int): (r: seq<Route>)
    ensures forall x :: x in r <==> x in routes && x.vrf == vrf && x.isDefault
  {
    if routes == [] then []
    else if routes[0].vrf == vrf && routes[0].isDefault then [routes[0]] + DefaultRoutes(routes[1..], vrf)
    else DefaultRoutes(routes[1..], vrf)
  }

  predicate Preferable(a: Route, b: Route) {
    a.distance < b.distance ||
      (a.distance == b.distance && (a.metric < b.metric || (a.metric == b.metric && a.id <= b.id)))
  }

  function BestRoute(rs: seq<Route>): (r: Route)
    requires rs != []
    ensures r in rs && forall x :: x in rs ==> Preferable(r, x)
  {
    if |rs| == 1 then rs[0]
    else
      var b := BestRoute(rs[1..]);
      assert forall x :: x in rs ==> x == rs[0] || x in rs[1..];
      if Preferable(rs[0], b) then rs[0] else b
  }

  function RouterHop(db: Db, d: Id, vrf: int): Hop {
    var routes := DefaultRoutes(db.routes, vrf);
    if routes == [] then Stuck(NoDefaultRoute)
    else
      match ScanRoutes(db.topo, d, routes)
      case Blocked(reason) => Stuck(reason)
      case Candidates(cand) =>
        if cand == [] then Stuck(NoEligibleRoute)
        else
          var best := BestRoute(cand);
          match ChosenLink(db, best.iface.value, best.nextHop)
          case None => Stuck(PeerUnresolved)
          case Some(id) => Next(PeerDevice(db.topo, id, best.iface.value))
  }

  predicate NeedsVrf(t: DeviceType) {
    t == CORE_ROUTER || t == EDGE_ROUTER
  }

  function NextHop(db: Db, d: Id): Hop
    requires d in db.topo.devices
  {
    var dev := db.topo.devices[d];
    if ForcedDown(dev) then Stuck(ForcedDownHere)
    else if dev.kind == BACKBONE_GATEWAY then Arrived
    else if NeedsVrf(dev.kind) then
      if dev.vrf.None? then Stuck(NoVrf) else RouterHop(db, d, dev.vrf.value)
    else AccessHop(db, d)
  }

  /** A hop leads over a traversable link to a device that is not forced down. */
  lemma HopIsLink(db: Db, d: Id)
    requires d in db.topo.devices && NextHop(db, d).Next?
    ensures var v := NextHop(db, d).device; v in db.topo.devices && Joined(db.topo, d, v)
    ensures !ForcedDown(db.topo.devices[d]) && (NeedsVrf(db.topo.devices[d].kind) ==> db.topo.devices[d].vrf.Some?)
  {
    if !NeedsVrf(db.topo.devices[d].kind) {
      UpstreamsJoined(db, InterfacesOf(db.topo, db.ifaceRows, d), d, NextHop(db, d).device);
    }
  }

  lemma {:induction false} UpstreamsJoined(db: Db, ifaces: seq<Id>, d: Id, v: Id)
    requires forall i :: i in ifaces ==> i in db.topo.ifaces && db.topo.ifaces[i].device == d
    requires v in Upstreams(db, ifaces)
    ensures Joined(db.topo, d, v)
  {
    var i := ifaces[0];
    var links := LinksAt(db.topo, db.linkRows, i);
    if v in PeersVia(db.topo, i, links) {
      var id :| id in links && PeerDevice(db.topo, id, i) == v;
      assert UsableLink(db.topo, id, i);
    } else {
      UpstreamsJoined(db, ifaces[1..], d, v);
    }
  }

  // ---- A next hop that nobody bears ----

  /** A core with a default route to 9.9.9.9, linked to a gateway; there are no addresses at all. */
  const MISROUTED := Db(
    Topology(map["c" := Row(CORE_ROUTER, None).(vrf := Some(1)), "b" := Row(BACKBONE_GATEWAY, None)],
             map["x" := Port("c"), "y" := Port("b")], map["L" := Wire("x", "y", None)]),
    ["x", "y"], ["L"], [Route(1, 1, true, "9.9.9.9", Some("x"), 1, 1)], [], [], 1)

  /** The trace crosses the link all the same. */
  lemma UnborneNextHopIsCrossed()
    ensures !BearsNextHop(MISROUTED, "L", "x", "9.9.9.9") && NextHop(MISROUTED, "c") == Next("b")
  {
    var db, r := MISROUTED, MISROUTED.routes[0];
    assert OwnRoute(db.topo, "c", r);
    assert DefaultRoutes([], 1) == [] && DefaultRoutes(db.routes, 1) == [r];
    assert ScanRoutes(db.topo, "c", []) == Candidates([]) && ScanRoutes(db.topo, "c", [r]) == Candidates([r]);
    assert UsableLink(db.topo, "L", "x");
    assert ChosenLink(db, "x", "9.9.9.9") == Some("L");
    assert PeerDevice(db.topo, "L", "x") == "b";
  }

  // ---- The trace ----

  datatype TraceResult = Reached(chain: Path) | Looped(chain: Path) | Failed(reason: Reason, chain: Path)

  /** `_step`: the walk along next hops, with the devices already visited and the chain so far. */
  function Step(db: Db, d: Id, visited: set<Id>, chain: Path): TraceResult
    requires d in db.topo.devices
    decreases db.topo.devices.Keys - visited
  {
    if d in visited then Looped(chain)
    else
      match NextHop(db, d)
      case Stuck(reason) => Failed(reason, chain)
      case Arrived => Reached(chain)
      case Next(v) =>
        HopIsLink(db, d);
        Step(db, v, visited + {d}, chain + [v])
  }

  function Trace(db: Db, d: Id): TraceResult
    requires d in db.topo.devices
  {
    var dev := db.topo.devices[d];
    if ForcedDown(dev) then Failed(SelfForcedDown, [d])
    else if NeedsVrf(dev.kind) && dev.vrf.None? then Failed(NoVrf, [d])
    else Step(db, d, {}, [d])
  }

  /** The n-th device of the walk that follows next hops from `d` without memory. */
  function Orbit(db: Db, d: Id, n: nat): (r: Option<Id>)
    requires d in db.topo.devices
    ensures r.Some? ==> r.value in db.topo.devices
  {
    if n == 0 then Some(d)
    else
      var p := Orbit(db, d, n - 1);
      if p.Some? && NextHop(db, p.value).Next? then
        HopIsLink(db, p.value);
        Some(NextHop(db, p.value).device)
      else None
  }

  /** Each device of the chain is the next hop of the one before. */
  ghost predicate Follows(db: Db, c: Path) {
    && |c| > 0 && (forall i :: 0 <= i < |c| ==> c[i] in db.topo.devices)
    && (forall i :: 0 <= i < |c| - 1 ==> NextHop(db, c[i]) == Next(c[i + 1]))
  }

  /** A finished walk: hop by hop to a backbone gateway, no device twice. */
  ghost predicate IsAnchoredChain(db: Db, c: Path) {
    Follows(db, c) && NoDuplicates(c) && NextHop(db, c[|c| - 1]) == Arrived
  }

  lemma SuffixFollows(db: Db, c: Path, k: nat)
    requires Follows(db, c) && k < |c|
    ensures Follows(db, c[k..])
  {
    hide NextHop;
    forall i | 0 <= i < |c[k..]| - 1 ensures NextHop(db, c[k..][i]) == Next(c[k..][i + 1]) {
      assert NextHop(db, c[k + i]) == Next(c[k + i + 1]);
    }
  }

  lemma FollowsSnoc(db: Db, c: Path, v: Id)
    requires Follows(db, c) && v in db.topo.devices && NextHop(db, c[|c| - 1]) == Next(v)
    ensures Follows(db, c + [v])
  {
    hide NextHop;
    forall i | 0 <= i < |c + [v]| - 1 ensures NextHop(db, (c + [v])[i]) == Next((c + [v])[i + 1]) {
      if i < |c| - 1 { assert NextHop(db, c[i]) == Next(c[i + 1]); }
    }
  }

  /** Following an anchored chain that avoids the visited devices reaches its end, whatever the past. */
  lemma {:induction false} StepFollowsChain(db: Db, c: Path, visited: set<Id>, chain: Path)
    requires IsAnchoredChain(db, c) && forall i :: 0 <= i < |c| ==> c[i] !in visited
    ensures Step(db, c[0], visited, chain) == Reached(chain + c[1..])
    decreases |c|
  {
    hide NextHop;
    if |c| == 1 {
      assert chain + c[1..] == chain;
    } else {
      var rest := c[1..];
      assert NextHop(db, c[0]) == Next(c[0 + 1]);
      SuffixFollows(db, c, 1);
      hide Follows;
      StepFollowsChain(db, rest, visited + {c[0]}, chain + [c[1]]);
      assert chain + [c[1]] + rest[1..] == chain + c[1..];
    }
  }

  function Front(c: Path): Path
    requires |c| > 0
  {
    c[..|c| - 1]
  }

  function Last(c: Path): Id
    requires |c| > 0
  {
    c[|c| - 1]
  }

  /** What a finished walk proves about its chain: the last device explains the verdict. */
  ghost predicate Explains(db: Db, r: TraceResult) {
    && Follows(db, r.chain) && NoDuplicates(Front(r.chain))
    && match r
       case Reached(c) => Last(c) !in Front(c) && NextHop(db, Last(c)) == Arrived
       case Looped(c) => Last(c) in Front(c)
       case Failed(reason, c) => Last(c) !in Front(c) && NextHop(db, Last(c)) == Stuck(reason)
  }

  lemma {:induction false} StepOutcome(db: Db, visited: set<Id>, chain: Path)
    requires Follows(db, chain) && NoDuplicates(Front(chain))
    requires forall x :: x in visited <==> x in Front(chain)
    ensures var r := Step(db, Last(chain), visited, chain);
      Explains(db, r) && r.chain[0] == chain[0]
    decreases db.topo.devices.Keys - visited
  {
    hide NextHop, Follows;
    ChainInside(db, chain);
    var d := Last(chain);
    if d !in visited && NextHop(db, d).Next? {
      HopIsLink(db, d);
      var v := NextHop(db, d).device;
      FollowsSnoc(db, chain, v);
      assert Front(chain + [v]) == chain && chain == Front(chain) + [d];
      StepOutcome(db, visited + {d}, chain + [v]);
    }
  }

  lemma ChainInside(db: Db, c: Path)
    requires Follows(db, c)
    ensures |c| > 0 && forall x :: x in c ==> x in db.topo.devices
  {
  }

  /** The verdict and the chain of a trace; the two checks on the starting device agree with its next hop. */
  lemma TraceOutcome(db: Db, d: Id)
    requires d in db.topo.devices
    ensures var r := Trace(db, d);
      |r.chain| > 0 && r.chain[0] == d && if r == Failed(SelfForcedDown, [d]) then ForcedDown(db.topo.devices[d])
        else Explains(db, r)
  {
    assert Follows(db, [d]) && Front([d]) == [] && Last([d]) == d;
    StepOutcome(db, {}, [d]);
  }

  /** A trace succeeds with a chain exactly when the chain is the anchored walk from its device. */
  lemma TraceReachesIff(db: Db, d: Id, c: Path)
    requires d in db.topo.devices
    ensures Trace(db, d) == Reached(c) <==> |c| > 0 && c[0] == d && IsAnchoredChain(db, c)
  {
    if Trace(db, d) == Reached(c) {
      TraceOutcome(db, d);
      FrontLastDistinct(c);
    }
    if |c| > 0 && c[0] == d && IsAnchoredChain(db, c) {
      StepFollowsChain(db, c, {}, [d]);
      assert [d] + c[1..] == c;
      assert |c| > 1 ==> NextHop(db, c[0]) == Next(c[0 + 1]);
    }
  }

  lemma FrontLastDistinct(c: Path)
    requires |c| > 0 && NoDuplicates(Front(c)) && Last(c) !in Front(c)
    ensures NoDuplicates(c)
  {
    assert c == Front(c) + [Last(c)];
  }

  /** Every suffix of a successful chain is itself the trace from its first device. */
  lemma SuffixIsTrace(db: Db, d: Id, c: Path, k: nat)
    requires d in db.topo.devices && Trace(db, d) == Reached(c) && k < |c|
    ensures c[k] in db.topo.devices && Trace(db, c[k]) == Reached(c[k..])
  {
    hide Trace, NextHop, Follows;
    TraceReachesIff(db, d, c);
    SuffixFollows(db, c, k);
    ChainInside(db, c);
    assert c[k] in c;
    assert NoDuplicates(c[k..]) && c[k..][|c| - k - 1] == c[|c| - 1];
    TraceReachesIff(db, c[k], c[k..]);
  }

  ghost predicate SoundAt(db: Db, x: Id) {
    && x in db.topo.devices && !ForcedDown(db.topo.devices[x])
    && (NeedsVrf(db.topo.devices[x].kind) ==> db.topo.devices[x].vrf.Some?)
  }

  /**
   A successful chain: simple, over traversable links, ending at a gateway, no forced-down device, no router
   without VRF.
   */
  lemma ReachedChainIsSound(db: Db, d: Id, c: Path)
    requires d in db.topo.devices && Trace(db, d) == Reached(c)
    ensures |c| > 0 && c[0] == d && NoDuplicates(c)
    ensures forall x :: x in c ==> SoundAt(db, x)
    ensures Last(c) in db.topo.devices && db.topo.devices[Last(c)].kind == BACKBONE_GATEWAY
    ensures forall i :: 0 < i < |c| ==> Joined(db.topo, c[i - 1], c[i])
  {
    TraceReachesIff(db, d, c);
    ChainInside(db, c);
    forall i | 0 < i < |c| ensures Joined(db.topo, c[i - 1], c[i]) {
      assert NextHop(db, c[i - 1]) == Next(c[i - 1 + 1]);
      HopIsLink(db, c[i - 1]);
    }
    forall i | 0 <= i < |c| ensures SoundAt(db, c[i]) {
      if i < |c| - 1 {
        assert NextHop(db, c[i]) == Next(c[i + 1]);
        HopIsLink(db, c[i]);
      }
    }
  }

  // ---- The trace is the orbit ----

  lemma {:induction false} OrbitAlongChain(db: Db, c: Path, n: nat)
    requires Follows(db, c) && n < |c|
    ensures c[0] in db.topo.devices && Orbit(db, c[0], n) == Some(c[n])
  {
    hide NextHop;
    if n > 0 {
      OrbitAlongChain(db, c, n - 1);
      assert NextHop(db, c[n - 1]) == Next(c[n - 1 + 1]);
    }
  }

  lemma {:induction false} OrbitEnds(db: Db, d: Id, k: nat, n: nat)
    requires d in db.topo.devices && Orbit(db, d, k).Some? && !NextHop(db, Orbit(db, d, k).value).Next? && k < n
    ensures Orbit(db, d, n) == None
  {
    hide NextHop;
    if n > k + 1 {
      OrbitEnds(db, d, k, n - 1);
    }
  }

  ghost predicate OrbitRevisits(db: Db, d: Id)
    requires d in db.topo.devices
  {
    exists i: nat, j: nat :: i < j && Orbit(db, d, i).Some? && Orbit(db, d, i) == Orbit(db, d, j)
  }

  /**
   The chain of a trace is an initial piece of the orbit; it reports a loop exactly when the orbit revisits a
   device.
   */
  lemma TraceIsOrbit(db: Db, d: Id)
    requires d in db.topo.devices
    ensures forall i :: 0 <= i < |Trace(db, d).chain| ==> Orbit(db, d, i) == Some(Trace(db, d).chain[i])
    ensures Trace(db, d).Looped? <==> OrbitRevisits(db, d)
  {
    TraceOutcome(db, d);
    var r := Trace(db, d);
    var c := r.chain;
    if r == Failed(SelfForcedDown, [d]) {
      StuckOrbit(db, d, [d]);
    } else {
      forall i | 0 <= i < |c| ensures Orbit(db, d, i) == Some(c[i]) {
        OrbitAlongChain(db, c, i);
      }
      if r.Looped? {
        var i :| 0 <= i < |c| - 1 && Front(c)[i] == Last(c);
        assert Orbit(db, d, i) == Orbit(db, d, |c| - 1);
      } else {
        FrontLastDistinct(c);
        StuckOrbit(db, d, c);
      }
    }
  }

  lemma StuckOrbit(db: Db, d: Id, c: Path)
    requires Follows(db, c) && c[0] == d && NoDuplicates(c) && !NextHop(db, Last(c)).Next?
    ensures !OrbitRevisits(db, d)
  {
    hide NextHop;
    forall i: nat, j: nat | i < j && Orbit(db, d, i).Some? ensures Orbit(db, d, i) != Orbit(db, d, j) {
      OrbitAlongChain(db, c, |c| - 1);
      if j >= |c| {
        OrbitEnds(db, d, |c| - 1, j);
      } else {
        OrbitAlongChain(db, c, i);
        OrbitAlongChain(db, c, j);
      }
    }
  }
}
