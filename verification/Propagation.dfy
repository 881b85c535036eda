/**
 Status propagation (backend/services/status_recompute.py): the flood from anchor devices
 through up-candidates, as a loop and as the least set it computes.
 */
module Propagation {
  import opened Types
  import opened Order
  import opened Graphs
  import opened Topology

  predicate HasBackbone(t: Topology) {
    exists d :: d in t.devices && t.devices[d].kind == BACKBONE_GATEWAY
  }

  predicate OverrideAllowsUp(d: Device) {
    d.override == None || d.override == Some(UP)
  }

  predicate IsSeed(t: Topology, d: Id) {
    && d in t.devices && DeriveRole(t.devices[d].kind) == ALWAYS_ONLINE
    && (HasBackbone(t) ==> t.devices[d].kind == BACKBONE_GATEWAY)
    && OverrideAllowsUp(t.devices[d])
  }

  function Seeds(t: Topology): set<Id> {
    set d | d in t.devices && IsSeed(t, d)
  }

  predicate IsUpCandidate(d: Device) {
    OverrideAllowsUp(d) && (DeriveRole(d.kind) == ACTIVE ==> d.provisioned)
  }

  predicate Conducts(t: Topology, d: Id) {
    d in t.devices && IsUpCandidate(t.devices[d])
  }

  /** Contains the anchors and is closed under adjacency into up-candidates. */
  ghost predicate FloodClosed(t: Topology, s: set<Id>) {
    Seeds(t) <= s && forall u, v :: u in s && AdjEdge(t, u, v) && Conducts(t, v) ==> v in s
  }

  /** The least flood-closed set. */
  ghost predicate IsReached(t: Topology, r: set<Id>) {
    FloodClosed(t, r) && forall s :: FloodClosed(t, s) ==> r <= s
  }

  lemma ReachedIsUnique(t: Topology, r: set<Id>, r': set<Id>)
    requires IsReached(t, r) && IsReached(t, r')
    ensures r == r'
  {
  }

  ghost predicate Represents(t: Topology, adj: Adj) {
    forall u, v :: v in Nbrs(adj, u) <==> AdjEdge(t, u, v)
  }

  lemma AdjEdgeSymmetric(t: Topology, u: Id, v: Id)
    ensures AdjEdge(t, u, v) <==> AdjEdge(t, v, u)
  {
    if id :| Carries(t, id, u, v) {
      assert Carries(t, id, v, u);
    }
    if id :| Carries(t, id, v, u) {
      assert Carries(t, id, u, v);
    }
  }

  /** The edges of the links in `seen` and of the container children in `kids`. */
  ghost predicate EdgeSoFar(t: Topology, seen: set<Id>, kids: set<Id>, u: Id, v: Id) {
    || (exists id :: id in seen && Carries(t, id, u, v))
    || (u in kids && IsParent(t, u, v)) || (v in kids && IsParent(t, v, u))
  }

  ghost predicate BuiltFrom(t: Topology, adj: Adj, seen: set<Id>, kids: set<Id>) {
    Closed(adj) && forall u, v :: v in Nbrs(adj, u) <==> EdgeSoFar(t, seen, kids, u, v)
  }

  method AddLink(t: Topology, adj0: Adj, ghost seen: set<Id>, ghost kids: set<Id>, id: Id) returns (adj: Adj)
    requires id in t.links && BuiltFrom(t, adj0, seen, kids)
    ensures BuiltFrom(t, adj, seen + {id}, kids)
  {
    adj := adj0;
    var l := t.links[id];
    if Passable(t, l) && l.viable {
      var a, b := DeviceOf(t, l.a), DeviceOf(t, l.b);
      if a.Some? && b.Some? {
        AddBothAdds(adj, a.value, b.value);
        adj := AddBoth(adj, a.value, b.value);
      }
    }
    assert forall u, v :: v in Nbrs(adj, u) <==> v in Nbrs(adj0, u) || Carries(t, id, u, v);
    hide Carries, IsParent, Passable, LinkEnds, AddBoth, Nbrs;
    forall u, v
      ensures EdgeSoFar(t, seen + {id}, kids, u, v) <==> EdgeSoFar(t, seen, kids, u, v) || Carries(t, id, u, v)
    {
    }
  }

  method AddParent(t: Topology, adj0: Adj, ghost seen: set<Id>, ghost kids: set<Id>, d: Id) returns (adj: Adj)
    requires d in t.devices && BuiltFrom(t, adj0, seen, kids)
    ensures BuiltFrom(t, adj, seen, kids + {d})
  {
    adj := adj0;
    var p := t.devices[d].parent;
    assert forall v :: IsParent(t, d, v) <==> p == Some(v) && v != "";
    hide Carries, IsParent, AddBoth, Nbrs, Closed;
    if p.Some? && p.value != "" {
      AddBothAdds(adj, d, p.value);
      adj := AddBoth(adj, d, p.value);
    }
    forall u, v ensures EdgeSoFar(t, seen, kids + {d}, u, v) <==>
      EdgeSoFar(t, seen, kids, u, v) || (u == d && IsParent(t, d, v)) || (v == d && IsParent(t, d, u))
    {
    }
    hide EdgeSoFar;
  }

  lemma AllBuilt(t: Topology, adj: Adj)
    requires BuiltFrom(t, adj, t.links.Keys, t.devices.Keys)
    ensures Represents(t, adj) && Closed(adj)
  {
    assert forall id, u, v :: Carries(t, id, u, v) ==> id in t.links.Keys;
    assert forall u, v :: IsParent(t, u, v) ==> u in t.devices.Keys;
    hide Carries, IsParent, Nbrs;
  }

  /** The adjacency rebuilt from the rows when the cached one is out of date. */
  method BuildAdjacency(t: Topology) returns (adj: Adj)
    ensures Represents(t, adj) && Closed(adj)
  {
    adj := map[];
    var seen, links := {}, t.links.Keys;
    assert BuiltFrom(t, adj, seen, {});
    hide *;
    while links != {}
      invariant seen + links == t.links.Keys && BuiltFrom(t, adj, seen, {})
      decreases links
    {
      var id :| id in links;
      adj := AddLink(t, adj, seen, {}, id);
      seen, links := seen + {id}, links - {id};
    }
    var kids, rest := {}, t.devices.Keys;
    while rest != {}
      invariant kids + rest == t.devices.Keys && BuiltFrom(t, adj, t.links.Keys, kids)
      decreases rest
    {
      var d :| d in rest;
      adj := AddParent(t, adj, t.links.Keys, kids, d);
      kids, rest := kids + {d}, rest - {d};
    }
    AllBuilt(t, adj);
  }

  /** What the flood knows while `cur` still has to look at the neighbours in `todo`. */
  ghost predicate Flooding(t: Topology, adj: Adj, r: set<Id>, queue: seq<Id>, cur: Id, todo: set<Id>) {
    && Seeds(t) <= r <= t.devices.Keys
    && (forall x :: x in queue ==> x in r)
    && (forall s :: FloodClosed(t, s) ==> r <= s)
    && forall u, v :: u in r && u !in queue && v in Nbrs(adj, u) && Conducts(t, v) && !(u == cur && v in todo) ==>
      v in r
  }

  lemma FloodReaches(t: Topology, adj: Adj, r: set<Id>, queue: seq<Id>, cur: Id, todo: set<Id>, v: Id)
    requires Represents(t, adj) && Flooding(t, adj, r, queue, cur, todo)
    requires cur in r && v in Nbrs(adj, cur) && Conducts(t, v)
    ensures Flooding(t, adj, r + {v}, queue + [v], cur, todo - {v})
  {
    forall s | FloodClosed(t, s) ensures v in s {
      assert AdjEdge(t, cur, v);
    }
    hide FloodClosed, Conducts, AdjEdge, IsSeed, Seeds;
    assert Conducts(t, v);
  }

  /** Flooding only reads the queue as a set. */
  lemma FloodReorders(t: Topology, adj: Adj, r: set<Id>, queue: seq<Id>, queue': seq<Id>, cur: Id, todo: set<Id>)
    requires Flooding(t, adj, r, queue, cur, todo)
    requires forall x :: x in queue' <==> x in queue
    ensures Flooding(t, adj, r, queue', cur, todo)
  {
    hide FloodClosed, Conducts, IsSeed, Seeds;
  }

  lemma FloodSkips(t: Topology, adj: Adj, r: set<Id>, queue: seq<Id>, cur: Id, todo: set<Id>, v: Id)
    requires Flooding(t, adj, r, queue, cur, todo)
    requires v in r || !Conducts(t, v)
    ensures Flooding(t, adj, r, queue, cur, todo - {v})
  {
    hide FloodClosed, Conducts, IsSeed, Seeds;
  }

  lemma FloodPops(t: Topology, adj: Adj, r: set<Id>, queue: seq<Id>, cur: Id)
    requires queue != [] && Flooding(t, adj, r, queue, cur, {})
    ensures queue[0] in r && Flooding(t, adj, r, queue[1..], queue[0], Nbrs(adj, queue[0]))
  {
    hide FloodClosed, Conducts, IsSeed, Seeds;
    assert forall x :: x in queue ==> x == queue[0] || x in queue[1..];
  }

  lemma FloodStarts(t: Topology, adj: Adj, queue: seq<Id>, cur: Id)
    requires forall x :: x in queue <==> x in Seeds(t)
    ensures Flooding(t, adj, Seeds(t), queue, cur, {})
  {
  }

  lemma FloodEnds(t: Topology, adj: Adj, r: set<Id>, cur: Id)
    requires Represents(t, adj) && Flooding(t, adj, r, [], cur, {})
    ensures IsReached(t, r) && r <= t.devices.Keys
  {
    forall u, v | u in r && AdjEdge(t, u, v) && Conducts(t, v) ensures v in r {
      assert v in Nbrs(adj, u);
    }
  }

  /**
   The flood over the sorted queue.  Whatever the queue order, the result is the least
   set that contains the anchors and is closed under adjacency into up-candidates.
   */
  method Flood(t: Topology, adj: Adj) returns (reachable: set<Id>)
    requires Represents(t, adj)
    ensures IsReached(t, reachable) && ReachedOnRows(t, reachable)
  {
    hide *;
    reachable := Seeds(t);
    var queue := SortedOf(reachable);
    ghost var cur: Id := "";
    FloodStarts(t, adj, queue, cur);
    while queue != []
      invariant Flooding(t, adj, reachable, queue, cur, {})
      decreases t.devices.Keys - reachable, |queue|
    {
      FloodPops(t, adj, reachable, queue, cur);
      cur := queue[0];
      var nbs := SortedOf(Nbrs(adj, queue[0]));
      queue := queue[1..];
      ghost var r0, n0, todo := reachable, |queue|, Nbrs(adj, cur);
      for i := 0 to |nbs|
        invariant cur in reachable && todo <= Nbrs(adj, cur)
        invariant Flooding(t, adj, reachable, queue, cur, todo)
        invariant forall x :: x in todo ==> x in nbs[i..]
        invariant r0 <= reachable && (reachable == r0 ==> |queue| == n0)
      {
        var nb := nbs[i];
        assert nbs[i..] == [nb] + nbs[i + 1..];
        if nb !in reachable && Conducts(t, nb) {
          FloodReaches(t, adj, reachable, queue, cur, todo, nb);
          ghost var plain := queue + [nb];
          queue := Enqueue(queue, nb);
          reachable := reachable + {nb};
          FloodReorders(t, adj, reachable, plain, queue, cur, todo - {nb});
        } else {
          FloodSkips(t, adj, reachable, queue, cur, todo, nb);
        }
        todo := todo - {nb};
      }
      assert todo == {};
      FloodGrows(t, adj, reachable, queue, cur);
    }
    FloodEnds(t, adj, reachable, cur);
    ReachedMeans(t, reachable);
  }

  lemma FloodGrows(t: Topology, adj: Adj, r: set<Id>, queue: seq<Id>, cur: Id)
    requires Flooding(t, adj, r, queue, cur, {})
    ensures r <= t.devices.Keys
  {
  }

  // ---- The same set, as paths ----

  ghost predicate ConduitStep(t: Topology, u: Id, v: Id) {
    AdjEdge(t, u, v) && Conducts(t, v)
  }

  /** A chain of devices from an anchor, each next one adjacent and an up-candidate. */
  ghost predicate IsConduit(t: Topology, p: Path) {
    |p| > 0 &&
    if |p| == 1 then p[0] in Seeds(t)
    else IsConduit(t, p[..|p| - 1]) && ConduitStep(t, p[|p| - 2], p[|p| - 1])
  }

  ghost predicate HasConduit(t: Topology, d: Id) {
    exists p :: IsConduit(t, p) && p[|p| - 1] == d
  }

  /** A device is marked reachable exactly when some conduit joins it to an anchor. */
  lemma ReachedByConduit(t: Topology, r: set<Id>, d: Id)
    requires IsReached(t, r)
    ensures d in r <==> HasConduit(t, d)
  {
    hide AdjEdge, Conducts, Seeds;
    if p :| IsConduit(t, p) && p[|p| - 1] == d {
      ConduitInside(t, r, p);
    }
    var s := set x | x in r && HasConduit(t, x);
    forall x | x in Seeds(t) ensures x in s {
      assert IsConduit(t, [x]);
    }
    forall u, v | u in s && AdjEdge(t, u, v) && Conducts(t, v) ensures v in s {
      var p :| IsConduit(t, p) && p[|p| - 1] == u;
      assert (p + [v])[..|p|] == p;
      assert IsConduit(t, p + [v]);
    }
    assert FloodClosed(t, s);
  }

  lemma {:induction false} ConduitInside(t: Topology, r: set<Id>, p: Path)
    requires FloodClosed(t, r) && IsConduit(t, p)
    ensures p[|p| - 1] in r
  {
    if |p| > 1 {
      ConduitInside(t, r, p[..|p| - 1]);
    }
  }

  // ---- The same set, on the columns of the rows ----

  /** Gateways anchor; sites and POPs do so only where the table holds no gateway at all. */
  ghost predicate RowAnchors(t: Topology, d: Id) {
    && d in t.devices && t.devices[d].override in {None, Some(UP)}
    && (t.devices[d].kind == BACKBONE_GATEWAY ||
        (t.devices[d].kind in {POP, CORE_SITE} && !exists g :: g in t.devices && t.devices[g].kind == BACKBONE_GATEWAY))
  }

  /** Not forced away from UP, and provisioned if it is an active device. */
  ghost predicate RowConducts(t: Topology, d: Id) {
    && d in t.devices && t.devices[d].override in {None, Some(UP)}
    && (t.devices[d].kind in {CORE_ROUTER, EDGE_ROUTER, AON_SWITCH, OLT, ONT, AON_CPE, BUSINESS_ONT} ==>
        t.devices[d].provisioned)
  }

  /** Anchors are in; a member's adjacent conducting devices are in; and nothing is in for another reason. */
  ghost predicate ReachedOnRows(t: Topology, r: set<Id>) {
    && (forall d :: RowAnchors(t, d) ==> d in r)
    && (forall u, v :: u in r && RowAdjacent(t, u, v) && RowConducts(t, v) ==> v in r)
    && (forall d :: d in r ==> RowConducts(t, d))
    && (forall d :: d in r ==> RowAnchors(t, d) || exists u :: u in r && u != d && RowAdjacent(t, u, d))
    && (forall s: set<Id> | s < r && (forall d :: RowAnchors(t, d) ==> d in s) ::
          exists u, v :: u in s && v in r && v !in s && RowAdjacent(t, u, v) && RowConducts(t, v))
  }

  lemma SeedOnRows(t: Topology, d: Id)
    ensures d in Seeds(t) <==> RowAnchors(t, d)
  {
    if d in t.devices { KindIsOneOf(t.devices[d].kind); }
  }

  lemma ConductsOnRows(t: Topology, d: Id)
    ensures Conducts(t, d) <==> RowConducts(t, d)
    ensures d in Seeds(t) ==> Conducts(t, d)
  {
    if d in t.devices { KindIsOneOf(t.devices[d].kind); }
  }

  lemma ReachedMeans(t: Topology, r: set<Id>)
    requires IsReached(t, r)
    ensures ReachedOnRows(t, r)
  {
    hide AdjEdge, Conducts, Seeds, RowAdjacent, RowAnchors, RowConducts;
    forall d ensures d in Seeds(t) <==> RowAnchors(t, d) { SeedOnRows(t, d); }
    forall d ensures (Conducts(t, d) <==> RowConducts(t, d)) && (d in Seeds(t) ==> Conducts(t, d)) {
      ConductsOnRows(t, d);
    }
    forall u, v { AdjEdgeOnRows(t, u, v); }
    var s := set d | d in r && Conducts(t, d);
    assert FloodClosed(t, s);
    forall d | d in r && !RowAnchors(t, d) ensures exists u :: u in r && u != d && RowAdjacent(t, u, d) {
      LastIsEntered(t, r, d);
    }
    forall s: set<Id> | s < r && (forall d :: RowAnchors(t, d) ==> d in s)
      ensures exists u, v :: u in s && v in r && v !in s && RowAdjacent(t, u, v) && RowConducts(t, v)
    {
      SmallerIsOpen(t, r, s);
    }
  }

  lemma SmallerIsOpen(t: Topology, r: set<Id>, s: set<Id>)
    requires IsReached(t, r) && s < r && Seeds(t) <= s
    ensures exists u, v :: u in s && v in r && v !in s && AdjEdge(t, u, v) && Conducts(t, v)
  {
    hide AdjEdge, Conducts, Seeds;
    assert !FloodClosed(t, s);
  }

  lemma LastIsEntered(t: Topology, r: set<Id>, d: Id)
    requires IsReached(t, r) && d in r && d !in Seeds(t)
    ensures exists u :: u in r && u != d && AdjEdge(t, u, d)
  {
    SmallerIsOpen(t, r, r - {d});
  }
}
