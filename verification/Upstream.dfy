/**
 Unified upstream evaluation (backend/services/dependency_resolver_core.py): the shortest way through
 the logical graph to a router whose own L3 trace reaches a backbone gateway.
 */
module Upstream {
  import opened Types
  import opened Order
  import opened Graphs
  import opened Topology
  import opened LogicalGraph
  import opened Routes
  import opened L3Trace

  // ---- Graph inputs ----

  function AllowedDevices(t: Topology): Devices {
    map d | d in t.devices && !ForcedDown(t.devices[d]) :: t.devices[d].kind
  }

  /** Interface rows first, then the "-if0" naming convention. */
  function EndDevice(t: Topology, i: Id): Option<Id> {
    if DeviceOf(t, i).Some? then DeviceOf(t, i)
    else if |i| > 4 && i[|i| - 4..] == "-if0" then Some(i[..|i| - 4])
    else None
  }

  /** A record for each passable link between two allowed devices. */
  predicate Recorded(t: Topology, id: Id, r: LinkRecord) {
    && id in t.links && AdminPassable(t.links[id])
    && EndDevice(t, t.links[id].a) == Some(r.a) && EndDevice(t, t.links[id].b) == Some(r.b)
    && r.a in AllowedDevices(t) && r.b in AllowedDevices(t)
    && r.id == id && r.kind == t.links[id].kind
  }

  function CollectOne(t: Topology, id: Id): (r: Option<LinkRecord>)
    requires id in t.links
    ensures forall x :: Recorded(t, id, x) <==> r == Some(x)
  {
    var l := t.links[id];
    var a, b := EndDevice(t, l.a), EndDevice(t, l.b);
    if !AdminPassable(l) || a.None? || b.None? then None
    else if a.value !in AllowedDevices(t) || b.value !in AllowedDevices(t) then None
    else Some(LinkRecord(id, a.value, b.value, t.links[id].kind))
  }

  /** The records in row order. */
  function RecordsOf(t: Topology, rows: seq<Id>): (rs: seq<LinkRecord>)
    requires forall id :: id in rows ==> id in t.links
    ensures forall r :: r in rs <==> r.id in rows && Recorded(t, r.id, r)
  {
    if rows == [] then []
    else
      var n := |rows| - 1;
      assert rows == rows[..n] + [rows[n]];
      var r := CollectOne(t, rows[n]);
      RecordsOf(t, rows[..n]) + if r.Some? then [r.value] else []
  }

  /** The records stand in the order of their rows, each at most once for each row. */
  lemma {:induction false} RecordsKeepOrder(t: Topology, rows: seq<Id>) returns (at: seq<nat>)
    requires forall id :: id in rows ==> id in t.links
    ensures |at| == |RecordsOf(t, rows)|
    ensures forall i :: 0 <= i < |at| ==> at[i] < |rows| && rows[at[i]] == RecordsOf(t, rows)[i].id
    ensures forall i, j :: 0 <= i < j < |at| ==> at[i] < at[j]
  {
    hide Recorded, EndDevice, AllowedDevices;
    if rows == [] {
      at := [];
    } else {
      var n := |rows| - 1;
      at := RecordsKeepOrder(t, rows[..n]);
      var r := CollectOne(t, rows[n]);
      if r.Some? {
        RecordHasId(t, rows[n], r.value);
        at := at + [n];
      }
    }
  }

  lemma RecordHasId(t: Topology, id: Id, r: LinkRecord)
    requires Recorded(t, id, r)
    ensures r.id == id
  {
  }

  /** `_collect_devices_links`. */
  method CollectLinks(t: Topology, rows: seq<Id>) returns (rs: seq<LinkRecord>)
    requires forall id :: id in rows ==> id in t.links
    ensures rs == RecordsOf(t, rows)
    ensures forall r :: r in rs <==> r.id in rows && RowRecord(t, r)
  {
    hide Recorded, RowRecord;
    rs := [];
    for n := 0 to |rows|
      invariant rs == RecordsOf(t, rows[..n])
    {
      assert rows[..n + 1][..n] == rows[..n];
      var r := CollectOne(t, rows[n]);
      if r.Some? {
        rs := rs + [r.value];
      }
    }
    assert rows[..|rows|] == rows;
    forall r: LinkRecord ensures Recorded(t, r.id, r) <==> RowRecord(t, r) { RecordedOnRows(t, r); }
  }

  /** The end belongs to `d` by its interface row or, without one, by the "-if0" name; `d` is not forced down. */
  ghost predicate RowEnd(t: Topology, i: Id, d: Id) {
    && d != "" && d in t.devices && t.devices[d].override != Some(DOWN)
    && if i in t.ifaces && t.ifaces[i].device != "" then t.ifaces[i].device == d else i == d + "-if0"
  }

  /** The record of a link row that is forced up, or not forced and UP. */
  ghost predicate RowRecord(t: Topology, r: LinkRecord) {
    && r.id in t.links && RowEnd(t, t.links[r.id].a, r.a) && RowEnd(t, t.links[r.id].b, r.b)
    && r.kind == t.links[r.id].kind
    && (t.links[r.id].override == Some(UP) || (t.links[r.id].override == None && t.links[r.id].status == UP))
  }

  lemma EndDeviceOnRows(t: Topology, i: Id, d: Id)
    ensures EndDevice(t, i) == Some(d) && d in AllowedDevices(t) <==> RowEnd(t, i, d)
  {
    if EndDevice(t, i) == Some(d) && DeviceOf(t, i).None? {
      assert i == i[..|i| - 4] + i[|i| - 4..];
    }
    if i == d + "-if0" {
      assert i[..|i| - 4] == d && i[|i| - 4..] == "-if0";
    }
  }

  lemma RecordedOnRows(t: Topology, r: LinkRecord)
    ensures Recorded(t, r.id, r) <==> RowRecord(t, r)
  {
    hide EndDevice, RowEnd, AllowedDevices;
    if r.id in t.links {
      EndDeviceOnRows(t, t.links[r.id].a, r.a);
      EndDeviceOnRows(t, t.links[r.id].b, r.b);
    }
  }

  // ---- Evaluation ----

  datatype Why = DeviceNotInGraph | NoRouterPath | RoutersNoL3 | TraceLooped | TraceFailed(reason: Reason)

  datatype UpstreamResult = Found(anchor: Id, chain: Path) | Missing(why: Why, chain: Path)

  /** A router in reach of `d` in the logical graph. */
  ghost predicate RouterInReach(g: Graph, d: Id, r: Id) {
    d in g.nodes && r in g.nodes && IsRouterType(g.nodes[r]) && Reachable(AdjOf(g), d, r)
  }

  predicate TraceOk(db: Db, r: Id) {
    r in db.topo.devices && Trace(db, r).Reached?
  }

  function Tail(db: Db, r: Id): Path
    requires TraceOk(db, r)
  {
    TraceOutcome(db, r);
    Trace(db, r).chain[1..]
  }

  /** The chain through `r`: a shortest logical path to it, continued by its L3 trace. */
  ghost predicate IsChainVia(db: Db, g: Graph, d: Id, r: Id, c: Path) {
    RouterInReach(g, d, r) && TraceOk(db, r) && exists p :: JoinsTrace(db, g, d, r, p, c)
  }

  ghost predicate JoinsTrace(db: Db, g: Graph, d: Id, r: Id, p: Path, c: Path) {
    IsShortest(AdjOf(g), d, r, p) && TraceOk(db, r) && c == p + Tail(db, r)
  }

  /** `c` is no longer than any logical walk to a router joined to that router's trace. */
  ghost predicate NoneShorter(db: Db, g: Graph, d: Id, c: Path) {
    forall r, p :: RouterInReach(g, d, r) && TraceOk(db, r) && IsWalkFrom(AdjOf(g), d, r, p) ==>
      |c| <= |p| + |Tail(db, r)|
  }

  predicate Precedes(c: Path, c': Path) {
    |c| < |c'| || (|c| == |c'| && (c == c' || LexLt(c, c')))
  }

  function RoutersOf(g: Graph): set<Id> {
    set n | n in g.nodes && IsRouterType(g.nodes[n])
  }

  /** The candidate chains: one for each router of `seen` in reach whose trace succeeds. */
  ghost predicate AreCandidates(db: Db, g: Graph, d: Id, seen: set<Id>, cands: map<Id, Path>) {
    && (forall r :: r in cands <==> r in seen && RouterInReach(g, d, r) && TraceOk(db, r))
    && (forall r :: r in cands ==> IsChainVia(db, g, d, r, cands[r]))
  }

  ghost predicate AnyInReach(g: Graph, d: Id, seen: set<Id>) {
    exists r :: r in seen && RouterInReach(g, d, r)
  }

  /** `best` is the first candidate by length, then by ids. */
  ghost predicate IsFirst(cands: map<Id, Path>, best: Option<Path>) {
    && (best.None? <==> cands == map[])
    && (best.Some? ==> best.value in cands.Values && forall r :: r in cands ==> Precedes(best.value, cands[r]))
  }

  method ConsiderRouter(db: Db, g: Graph, d: Id, r: Id) returns (inReach: bool, cand: Option<Path>)
    requires d in g.nodes && r in RoutersOf(g)
    ensures inReach <==> RouterInReach(g, d, r)
    ensures cand.Some? <==> RouterInReach(g, d, r) && TraceOk(db, r)
    ensures cand.Some? ==> IsChainVia(db, g, d, r, cand.value)
  {
    hide Trace, Tail, IsWalkFrom, IsRouterType;
    cand := None;
    var path := FindShortest(AdjOf(g), d, r);
    inReach := path.Some?;
    if path.Some? && TraceOk(db, r) {
      cand := Some(path.value + Tail(db, r));
      assert JoinsTrace(db, g, d, r, path.value, cand.value);
    }
  }

  lemma PrecedesTotal(c: Path, c': Path)
    ensures Precedes(c, c') || Precedes(c', c)
  {
    LexLtTotal(c, c');
  }

  lemma PrecedesTransitive(a: Path, b: Path, c: Path)
    requires Precedes(a, b) && Precedes(b, c)
    ensures Precedes(a, c)
  {
    if LexLt(a, b) && LexLt(b, c) { LexLtTransitive(a, b, c); }
  }

  lemma FirstOfMore(cands: map<Id, Path>, best: Option<Path>, r: Id, cand: Path)
    requires IsFirst(cands, best) && r !in cands
    ensures IsFirst(cands[r := cand], if best.None? || !Precedes(best.value, cand) then Some(cand) else best)
  {
    hide Precedes;
    var cands' := cands[r := cand];
    assert cands'[r] == cand;
    PrecedesTotal(cand, cand);
    if best.Some? {
      PrecedesTotal(best.value, cand);
      if !Precedes(best.value, cand) {
        forall x | x in cands ensures Precedes(cand, cands[x]) {
          PrecedesTransitive(cand, best.value, cands[x]);
        }
      } else {
        var x :| x in cands && cands[x] == best.value;
        assert cands'[x] == best.value;
      }
    }
  }

  lemma CandidatesNext(db: Db, g: Graph, d: Id, seen: set<Id>, cands: map<Id, Path>, r: Id, cand: Option<Path>)
    requires AreCandidates(db, g, d, seen, cands) && r !in seen
    requires cand.Some? <==> RouterInReach(g, d, r) && TraceOk(db, r)
    requires cand.Some? ==> IsChainVia(db, g, d, r, cand.value)
    ensures r !in cands && AreCandidates(db, g, d, seen + {r}, if cand.Some? then cands[r := cand.value] else cands)
  {
    hide RouterInReach, TraceOk, IsChainVia;
  }

  lemma AnyNext(g: Graph, d: Id, seen: set<Id>, r: Id)
    ensures AnyInReach(g, d, seen + {r}) <==> AnyInReach(g, d, seen) || RouterInReach(g, d, r)
  {
    hide RouterInReach;
  }

  lemma NoCandidates(db: Db, g: Graph, d: Id)
    ensures AreCandidates(db, g, d, {}, map[]) && IsFirst(map[], None) && !AnyInReach(g, d, {})
  {
  }

  /** Routers in id order; the shortest candidate chain wins, ties by the tuple of ids. */
  method SurveyRouters(db: Db, g: Graph, d: Id) returns (any: bool, best: Option<Path>, ghost cands: map<Id, Path>)
    requires d in g.nodes
    ensures any <==> AnyInReach(g, d, RoutersOf(g))
    ensures AreCandidates(db, g, d, RoutersOf(g), cands) && IsFirst(cands, best)
  {
    hide *;
    any, best, cands := false, None, map[];
    var ids := SortedOf(RoutersOf(g));
    ghost var seen: set<Id> := {};
    NoCandidates(db, g, d);
    for n := 0 to |ids|
      invariant any <==> AnyInReach(g, d, seen)
      invariant AreCandidates(db, g, d, seen, cands) && IsFirst(cands, best)
      invariant forall x :: x in seen <==> x in ids[..n]
    {
      assert ids[..n + 1] == ids[..n] + [ids[n]];
      DistinctAt(ids, n);
      var inReach, cand := ConsiderRouter(db, g, d, ids[n]);
      AnyNext(g, d, seen, ids[n]);
      any := any || inReach;
      CandidatesNext(db, g, d, seen, cands, ids[n], cand);
      if cand.Some? {
        FirstOfMore(cands, best, ids[n], cand.value);
        cands := cands[ids[n] := cand.value];
        if best.None? || !Precedes(best.value, cand.value) {
          best := cand;
        }
      }
      seen := seen + {ids[n]};
    }
    assert ids[..|ids|] == ids;
    assert seen == RoutersOf(g);
  }

  lemma ViaIsShortest(db: Db, g: Graph, d: Id, r: Id, c: Path, p: Path)
    requires IsChainVia(db, g, d, r, c) && IsWalkFrom(AdjOf(g), d, r, p)
    ensures |c| <= |p| + |Tail(db, r)|
  {
    var q :| JoinsTrace(db, g, d, r, q, c);
    hide TraceOk, Tail, RouterInReach;
  }

  lemma FirstIsShortest(db: Db, g: Graph, d: Id, best: Path, cands: map<Id, Path>)
    requires forall r :: r in cands <==> RouterInReach(g, d, r) && TraceOk(db, r)
    requires forall r :: r in cands ==> IsChainVia(db, g, d, r, cands[r]) && Precedes(best, cands[r])
    ensures NoneShorter(db, g, d, best)
  {
    hide RouterInReach, TraceOk, IsWalkFrom, Tail, IsChainVia, LexLt;
    forall r, p | RouterInReach(g, d, r) && TraceOk(db, r) && IsWalkFrom(AdjOf(g), d, r, p)
      ensures |best| <= |p| + |Tail(db, r)|
    {
      ViaIsShortest(db, g, d, r, cands[r], p);
    }
  }

  lemma SurveyComplete(db: Db, g: Graph, d: Id, best: Option<Path>, cands: map<Id, Path>)
    requires AreCandidates(db, g, d, RoutersOf(g), cands) && IsFirst(cands, best)
    ensures AnyInReach(g, d, RoutersOf(g)) <==> exists r :: RouterInReach(g, d, r)
    ensures forall r :: r in cands <==> RouterInReach(g, d, r) && TraceOk(db, r)
    ensures best.Some? <==> exists r :: RouterInReach(g, d, r) && TraceOk(db, r)
    ensures best.Some? ==> NoneShorter(db, g, d, best.value) && exists r :: IsChainVia(db, g, d, r, best.value)
  {
    assert forall r :: RouterInReach(g, d, r) ==> r in RoutersOf(g);
    hide RouterInReach, TraceOk, IsWalkFrom, RoutersOf, Tail, IsChainVia;
    hide LexLt;
    if best.Some? {
      var x :| x in cands && cands[x] == best.value;
      FirstIsShortest(db, g, d, best.value, cands);
    } else {
      assert cands.Keys == {};
    }
  }

  lemma ChainEnds(db: Db, g: Graph, d: Id, r: Id, c: Path)
    requires IsChainVia(db, g, d, r, c)
    ensures |c| > 0 && c[0] == d && Last(c) in db.topo.devices && db.topo.devices[Last(c)].kind == BACKBONE_GATEWAY
  {
    var p :| JoinsTrace(db, g, d, r, p, c);
    var tc := Trace(db, r).chain;
    ReachedChainIsSound(db, r, tc);
    assert Last(c) == Last(tc);
  }

  /** A candidate chain is a shortest logical path to a router, followed by the anchored chain of that router. */
  lemma ChainViaMeans(db: Db, g: Graph, d: Id, r: Id, c: Path)
    ensures IsChainVia(db, g, d, r, c) <==>
      && d in g.nodes && r in g.nodes && g.nodes[r] in {CORE_ROUTER, EDGE_ROUTER, BACKBONE_GATEWAY}
      && exists p, tc :: IsShortest(AdjOf(g), d, r, p) && IsAnchoredChain(db, tc) && tc[0] == r && c == p + tc[1..]
  {
    hide Trace, NextHop, AdjOf, IsWalk;
    if IsChainVia(db, g, d, r, c) {
      var p :| JoinsTrace(db, g, d, r, p, c);
      var tc := Trace(db, r).chain;
      TraceReachesIff(db, r, tc);
      assert IsShortest(AdjOf(g), d, r, p) && IsAnchoredChain(db, tc) && tc[0] == r && c == p + tc[1..];
    }
    if p, tc :| IsShortest(AdjOf(g), d, r, p) && IsAnchoredChain(db, tc) && tc[0] == r && c == p + tc[1..] {
      ChainInside(db, tc);
      TraceReachesIff(db, r, tc);
      if r in g.nodes && d in g.nodes && IsRouterType(g.nodes[r]) {
        assert IsWalkFrom(AdjOf(g), d, r, p);
        assert JoinsTrace(db, g, d, r, p, c);
      }
    }
  }

  /** What the verdict on a device that is not a router means. */
  ghost predicate IsAccessVerdict(db: Db, g: Graph, d: Id, u: UpstreamResult) {
    match u
    case Found(anchor, c) =>
      && NoneShorter(db, g, d, c) && (exists r :: IsChainVia(db, g, d, r, c))
      && |c| > 0 && c[0] == d && anchor == Last(c)
    case Missing(why, c) =>
      && c == [d] && (forall r :: !(RouterInReach(g, d, r) && TraceOk(db, r)))
      && why == if d !in g.nodes then DeviceNotInGraph else if exists r :: RouterInReach(g, d, r) then RoutersNoL3
        else NoRouterPath
  }

  /** `has_upstream_l3_or_anchor` for a device that is not a router, on the logical graph `g`. */
  method EvaluateAccess(db: Db, g: Graph, d: Id) returns (u: UpstreamResult, ghost cands: map<Id, Path>)
    ensures IsAccessVerdict(db, g, d, u)
    ensures u.Found? <==> exists r :: RouterInReach(g, d, r) && TraceOk(db, r)
    ensures forall r :: r in cands <==> RouterInReach(g, d, r) && TraceOk(db, r)
    ensures forall r :: r in cands ==> IsChainVia(db, g, d, r, cands[r])
    ensures u.Found? ==> u.chain in cands.Values && forall r :: r in cands ==>
      |u.chain| < |cands[r]| || (|u.chain| == |cands[r]| && (u.chain == cands[r] || LexLt(u.chain, cands[r])))
    ensures u.Found? ==> u.anchor in db.topo.devices && db.topo.devices[u.anchor].kind == BACKBONE_GATEWAY
  {
    hide TraceOk, IsChainVia, NoneShorter, AnyInReach, LexLt;
    if d !in g.nodes {
      return Missing(DeviceNotInGraph, [d]), map[];
    }
    var any, best;
    any, best, cands := SurveyRouters(db, g, d);
    SurveyComplete(db, g, d, best, cands);
    hide RouterInReach;
    if best.Some? {
      ghost var r :| IsChainVia(db, g, d, r, best.value);
      ChainEnds(db, g, d, r, best.value);
      u := Found(Last(best.value), best.value);
    } else {
      u := Missing(if any then RoutersNoL3 else NoRouterPath, [d]);
    }
  }

  /**
   What the verdict on a router means: the chain follows next hops from it; it is the anchored chain if there
   is one, and otherwise its last device tells why the walk went no further.
   */
  ghost predicate IsRouterVerdict(db: Db, d: Id, u: UpstreamResult) {
    && Follows(db, u.chain) && u.chain[0] == d
    && (forall c :: u.Found? && u.chain == c <==> |c| > 0 && c[0] == d && IsAnchoredChain(db, c))
    && var last, before := u.chain[|u.chain| - 1], u.chain[..|u.chain| - 1];
       match u
       case Found(anchor, _) => anchor == last && db.topo.devices[anchor].kind == BACKBONE_GATEWAY
       case Missing(TraceLooped, _) => NoDuplicates(before) && last in before
       case Missing(TraceFailed(SelfForcedDown), _) => before == [] && db.topo.devices[d].override == Some(DOWN)
       case Missing(TraceFailed(reason), _) =>
         NoDuplicates(before) && last !in before && NextHop(db, last) == Stuck(reason)
       case Missing(_, _) => false
  }

  /** For a router the evaluation is its own trace. */
  function EvaluateRouter(db: Db, d: Id): (u: UpstreamResult)
    requires d in db.topo.devices
    ensures IsRouterVerdict(db, d, u)
  {
    var r := Trace(db, d);
    TraceIsVerdict(db, d);
    match r
    case Reached(c) => Found(Last(c), c)
    case Looped(c) => Missing(TraceLooped, c)
    case Failed(reason, c) => Missing(TraceFailed(reason), c)
  }

  lemma TraceIsVerdict(db: Db, d: Id)
    requires d in db.topo.devices
    ensures Follows(db, Trace(db, d).chain)
    ensures match Trace(db, d)
      case Reached(c) => IsRouterVerdict(db, d, Found(Last(c), c))
      case Looped(c) => IsRouterVerdict(db, d, Missing(TraceLooped, c))
      case Failed(reason, c) => IsRouterVerdict(db, d, Missing(TraceFailed(reason), c))
  {
    hide Trace, NextHop, IsAnchoredChain, Follows;
    TraceOutcome(db, d);
    var r := Trace(db, d);
    assert Follows(db, r.chain) by { TraceFollows(db, d); }
    forall c ensures r == Reached(c) <==> |c| > 0 && c[0] == d && IsAnchoredChain(db, c) {
      TraceReachesIff(db, d, c);
    }
    if r.Reached? { ReachedChainIsSound(db, d, r.chain); }
    if r.Failed? && r.reason == SelfForcedDown { OnlySelfForcedDown(db, d); }
    ChainInside(db, r.chain);
  }

  lemma TraceFollows(db: Db, d: Id)
    requires d in db.topo.devices
    ensures Follows(db, Trace(db, d).chain)
  {
    hide Trace, NextHop;
    TraceOutcome(db, d);
  }

  lemma OnlySelfForcedDown(db: Db, d: Id)
    requires d in db.topo.devices && Trace(db, d).Failed? && Trace(db, d).reason == SelfForcedDown
    ensures Trace(db, d).chain == [d] && db.topo.devices[d].override == Some(DOWN)
  {
    hide Trace, NextHop, Follows;
    TraceOutcome(db, d);
    var r := Trace(db, d);
    if r != Failed(SelfForcedDown, [d]) {
      ChainInside(db, r.chain);
      OthersAreForcedDown(db, Last(r.chain));
    }
  }

  lemma OthersAreForcedDown(db: Db, x: Id)
    requires x in db.topo.devices
    ensures NextHop(db, x) != Stuck(SelfForcedDown)
  {
  }

  // ---- From rows to verdict ----

  /** Every link row exists. */
  predicate RowsKnown(db: Db) {
    forall id :: id in db.linkRows ==> id in db.topo.links
  }

  /** `g` is the strict logical graph over allowed devices and passable links. */
  ghost predicate IsUpstreamGraph(db: Db, g: Graph) {
    RowsKnown(db) && IsLogicalGraph(AllowedDevices(db.topo), RecordsOf(db.topo, db.linkRows), false, g)
  }

  /** Its nodes: the routing and access devices that are not forced down. */
  lemma UpstreamNodesOnRows(db: Db, g: Graph, d: Id)
    requires IsUpstreamGraph(db, g)
    ensures d in g.nodes <==>
      && d in db.topo.devices && db.topo.devices[d].override != Some(DOWN)
      && db.topo.devices[d].kind in
        {BACKBONE_GATEWAY, CORE_ROUTER, EDGE_ROUTER, DeviceType.OLT, AON_SWITCH, AON_CPE, ONT, BUSINESS_ONT}
    ensures d in g.nodes ==> g.nodes[d] == db.topo.devices[d].kind
  {
    NodesOnRows(AllowedDevices(db.topo), d);
    assert g.nodes == LogicalNodes(AllowedDevices(db.topo));
    hide IsUpstreamGraph, OpticalNodes, OltsOf;
  }

  ghost predicate IsUpstreamVerdict(db: Db, d: Id, u: UpstreamResult) {
    exists g :: IsUpstreamGraph(db, g) && IsAccessVerdict(db, g, d, u)
  }

  /** The same outcome: both fail for the same reason, or both succeed with chains of the same length. */
  predicate SameVerdict(u: UpstreamResult, u': UpstreamResult) {
    if u.Found? then u'.Found? && |u.chain| == |u'.chain| else u == u'
  }

  /** Whatever shortest paths the library returns, the verdict on a database is the same. */
  lemma VerdictsAgree(db: Db, d: Id, u: UpstreamResult, u': UpstreamResult)
    requires IsUpstreamVerdict(db, d, u) && IsUpstreamVerdict(db, d, u')
    ensures SameVerdict(u, u')
  {
    hide IsLogicalGraph, AllowedDevices, RouterInReach, TraceOk, IsChainVia, NoneShorter;
    var g :| IsUpstreamGraph(db, g) && IsAccessVerdict(db, g, d, u);
    var g' :| IsUpstreamGraph(db, g') && IsAccessVerdict(db, g', d, u');
    LogicalGraphUnique(AllowedDevices(db.topo), RecordsOf(db.topo, db.linkRows), false, g, g');
    if u.Found? {
      var r :| IsChainVia(db, g, d, r, u.chain);
      if u'.Found? {
        var r' :| IsChainVia(db, g, d, r', u'.chain);
        ViaIsLongEnough(db, g, d, r, u.chain, u'.chain);
        ViaIsLongEnough(db, g, d, r', u'.chain, u.chain);
      } else {
        ViaQualifies(db, g, d, r, u.chain);
      }
    } else if u'.Found? {
      var r' :| IsChainVia(db, g, d, r', u'.chain);
      ViaQualifies(db, g, d, r', u'.chain);
    }
  }

  lemma ViaQualifies(db: Db, g: Graph, d: Id, r: Id, c: Path)
    requires IsChainVia(db, g, d, r, c)
    ensures RouterInReach(g, d, r) && TraceOk(db, r)
  {
  }

  lemma ViaIsLongEnough(db: Db, g: Graph, d: Id, r: Id, c: Path, best: Path)
    requires IsChainVia(db, g, d, r, c) && NoneShorter(db, g, d, best)
    ensures |best| <= |c|
  {
    hide RouterInReach, Trace;
    var p :| JoinsTrace(db, g, d, r, p, c);
  }

  /** `has_upstream_l3_or_anchor` on a cache miss. */
  method Evaluate(db: Db, d: Id) returns (u: UpstreamResult)
    requires d in db.topo.devices && RowsKnown(db)
    ensures if db.topo.devices[d].kind in {CORE_ROUTER, EDGE_ROUTER, BACKBONE_GATEWAY} then IsRouterVerdict(db, d, u)
            else IsUpstreamVerdict(db, d, u)
    ensures u.Found? ==> u.anchor in db.topo.devices && db.topo.devices[u.anchor].kind == BACKBONE_GATEWAY
  {
    hide IsLogicalGraph, IsProjection, HasOltNeighbour, ReachesAny, AllowedDevices, Recorded, IsAccessVerdict,
      IsAnchoredChain, NextHop;
    if IsRouterType(db.topo.devices[d].kind) {
      u := EvaluateRouter(db, d);
    } else {
      var rs := CollectLinks(db.topo, db.linkRows);
      var g := BuildLogicalGraph(AllowedDevices(db.topo), rs, false);
      ghost var cands;
      u, cands := EvaluateAccess(db, g, d);
      assert IsUpstreamGraph(db, g);
    }
  }

  // ---- Where L3 state matters ----

  /** A gateway that is a node of the graph is not forced down, so its own trace succeeds. */
  lemma GatewayAlwaysTraces(db: Db, g: Graph, b: Id)
    requires IsUpstreamGraph(db, g) && b in g.nodes && g.nodes[b] == BACKBONE_GATEWAY
    ensures TraceOk(db, b)
  {
    assert b in AllowedDevices(db.topo) && !ForcedDown(db.topo.devices[b]);
    assert NextHop(db, b) == Arrived;
    assert Trace(db, b) == Reached([b]);
  }

  /** With a gateway in reach the verdict is success, whatever the routes and addresses are. */
  lemma GatewayInReachIsFound(db: Db, g: Graph, d: Id, b: Id, u: UpstreamResult)
    requires IsUpstreamGraph(db, g) && IsAccessVerdict(db, g, d, u)
    requires RouterInReach(g, d, b) && g.nodes[b] == BACKBONE_GATEWAY
    ensures u.Found?
  {
    GatewayAlwaysTraces(db, g, b);
  }

  /** Two databases with the same devices and links: L3 state decides success only where no gateway is in reach. */
  lemma L3DecidesOnlyWithoutGateway(db: Db, db': Db, g: Graph, d: Id, u: UpstreamResult, u': UpstreamResult)
    requires db'.topo == db.topo && db'.linkRows == db.linkRows && IsUpstreamGraph(db, g)
    requires IsAccessVerdict(db, g, d, u) && IsAccessVerdict(db', g, d, u') && u.Found? && u'.Missing?
    ensures forall b :: RouterInReach(g, d, b) ==> g.nodes[b] != BACKBONE_GATEWAY
    ensures exists r :: RouterInReach(g, d, r) && TraceOk(db, r) && !TraceOk(db', r)
  {
    hide IsLogicalGraph, AllowedDevices, Trace;
    forall b | RouterInReach(g, d, b) ensures g.nodes[b] != BACKBONE_GATEWAY {
      if g.nodes[b] == BACKBONE_GATEWAY {
        GatewayInReachIsFound(db', g, d, b, u');
      }
    }
    var r :| IsChainVia(db, g, d, r, u.chain);
    ViaQualifies(db, g, d, r, u.chain);
  }

  // ---- The shape of the chosen chain ----

  lemma ShortestIsSimple(adj: Adj, src: Id, dst: Id, p: Path)
    requires IsShortest(adj, src, dst, p)
    ensures NoDuplicates(p)
  {
    forall i, j | 0 <= i < j < |p| ensures p[i] != p[j] {
      if p[i] == p[j] {
        var q := CutLoop(adj, p, i, j);
      }
    }
  }

  /** If the trace behind `r` comes back to a router of the path to `r`, then leaving at that router is shorter. */
  lemma ComingBackIsLonger(db: Db, g: Graph, d: Id, r: Id, p: Path, c: Path, i: nat, k: nat)
    requires JoinsTrace(db, g, d, r, p, c) && d in g.nodes && i < |p| - 1 && 0 < k < |Trace(db, r).chain|
    requires p[i] == Trace(db, r).chain[k] && p[i] in g.nodes && IsRouterType(g.nodes[p[i]])
    ensures !NoneShorter(db, g, d, c)
  {
    var x := p[i];
    WalkPrefix(AdjOf(g), p, i + 1);
    assert Reachable(AdjOf(g), d, x) by {
      assert IsWalkFrom(AdjOf(g), d, x, p[..i + 1]);
    }
    SuffixIsTrace(db, r, Trace(db, r).chain, k);
    hide Trace, AdjOf;
    assert RouterInReach(g, d, x) && TraceOk(db, x);
    assert |Tail(db, x)| == |Trace(db, r).chain| - k - 1;
    assert |c| > |p[..i + 1]| + |Tail(db, x)|;
  }

  /** Two equal places of a chain lie on either side of its router: on the path to it, and on the trace behind it. */
  lemma RepeatSpansRouter(p: Path, tc: Path, i: nat, j: nat)
    requires NoDuplicates(p) && NoDuplicates(tc) && |p| > 0 && |tc| > 0 && p[|p| - 1] == tc[0]
    requires i < j < |p| + |tc| - 1 && (p + tc[1..])[i] == (p + tc[1..])[j]
    ensures i < |p| - 1 < j && j - |p| + 1 < |tc| && p[i] == tc[j - |p| + 1]
  {
    var c, m := p + tc[1..], |p| - 1;
    assert forall n :: m <= n < |c| ==> c[n] == tc[n - m];
    assert forall n :: 0 <= n <= m ==> c[n] == p[n];
  }

  lemma WalkNode(g: Graph, p: Path, i: nat)
    requires IsWalk(AdjOf(g), p) && i < |p| - 1
    ensures p[i] in g.nodes
  {
    assert p[i + 1] in Nbrs(AdjOf(g), p[i]);
  }

  /** The chosen chain visits no router of the logical graph twice. */
  lemma ChosenChainRepeatsNoRouter(db: Db, g: Graph, d: Id, r: Id, c: Path, i: nat, j: nat)
    requires IsChainVia(db, g, d, r, c) && NoneShorter(db, g, d, c)
    requires i < j < |c| && c[i] == c[j]
    ensures c[i] in g.nodes && !IsRouterType(g.nodes[c[i]])
  {
    hide Trace, AdjOf, IsWalk, NoneShorter, IsRouterType;
    var p :| JoinsTrace(db, g, d, r, p, c);
    var tc := Trace(db, r).chain;
    ReachedChainIsSound(db, r, tc);
    ShortestIsSimple(AdjOf(g), d, r, p);
    hide NoDuplicates;
    RepeatSpansRouter(p, tc, i, j);
    WalkNode(g, p, i);
    if IsRouterType(g.nodes[p[i]]) {
      ComingBackIsLonger(db, g, d, r, p, c, i, j - |p| + 1);
    }
  }
}
