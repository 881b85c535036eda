/**
 Incremental recompute (backend/services/status_service.py): the affected component of a
 dirty set, and the theorem that nothing outside it can change its anchor reachability.
 */
module Incremental {
  import opened Types
  import opened Order
  import opened Graphs
  import opened Topology
  import opened Propagation
  import opened GraphIndex
  import opened AdjacencyCache
  import opened Samples

  /** Ends, in the current snapshot, of dirty links that still exist. */
  ghost predicate EndOfDirty(t: Topology, links: set<Id>, d: Id) {
    exists id :: id in links && id in t.links &&
      (DeviceOf(t, t.links[id].a) == Some(d) || DeviceOf(t, t.links[id].b) == Some(d))
  }

  method SeedFrontier(t: Topology, dirty: DirtySet) returns (seeds: set<Id>)
    ensures forall d :: d in seeds <==> d in dirty.devices || EndOfDirty(t, dirty.links, d)
  {
    seeds := dirty.devices;
    var seen, rest := {}, dirty.links;
    while rest != {}
      invariant seen + rest == dirty.links
      invariant forall d :: d in seeds <==> d in dirty.devices || EndOfDirty(t, seen, d)
      decreases rest
    {
      var id :| id in rest;
      if id in t.links {
        var a, b := DeviceOf(t, t.links[id].a), DeviceOf(t, t.links[id].b);
        if a.Some? { seeds := seeds + {a.value}; }
        if b.Some? { seeds := seeds + {b.value}; }
      }
      seen, rest := seen + {id}, rest - {id};
    }
  }

  /** The least set that contains the seeds and is closed under the adjacency. */
  ghost predicate IsComponent(adj: Adj, seeds: set<Id>, c: set<Id>) {
    && seeds <= c && EdgeClosed(adj, c)
    && forall s :: seeds <= s && EdgeClosed(adj, s) ==> c <= s
  }

  ghost predicate Expanding(adj: Adj, seeds: set<Id>, visited: set<Id>, queue: seq<Id>, cur: Id, todo: set<Id>) {
    && visited <= adj.Keys + seeds
    && (forall x :: x in queue ==> x in adj.Keys + seeds)
    && (forall x :: x in seeds ==> x in visited || x in queue)
    && (forall s :: seeds <= s && EdgeClosed(adj, s) ==> visited <= s && forall x :: x in queue ==> x in s)
    && (forall u, v :: u in visited && v in Nbrs(adj, u) && !(u == cur && v in todo) ==> v in visited || v in queue)
  }

  lemma ExpandStart(adj: Adj, seeds: set<Id>, queue: seq<Id>)
    requires forall x :: x in queue <==> x in seeds
    ensures Expanding(adj, seeds, {}, queue, "", {})
  {
  }

  lemma ExpandStale(adj: Adj, seeds: set<Id>, visited: set<Id>, queue: seq<Id>, cur: Id)
    requires queue != [] && queue[0] in visited && Expanding(adj, seeds, visited, queue, cur, {})
    ensures Expanding(adj, seeds, visited, queue[1..], cur, {})
  {
    hide EdgeClosed, Nbrs;
    assert forall x :: x in queue <==> x == queue[0] || x in queue[1..];
  }

  lemma ExpandVisit(adj: Adj, seeds: set<Id>, visited: set<Id>, queue: seq<Id>, cur: Id)
    requires queue != [] && Expanding(adj, seeds, visited, queue, cur, {})
    ensures Expanding(adj, seeds, visited + {queue[0]}, queue[1..], queue[0], Nbrs(adj, queue[0]))
  {
    hide EdgeClosed, Nbrs;
    assert forall x :: x in queue <==> x == queue[0] || x in queue[1..];
  }

  lemma ExpandPush(adj: Adj, seeds: set<Id>, visited: set<Id>, queue: seq<Id>, queue': seq<Id>, cur: Id, todo: set<Id>,
                   v: Id)
    requires Closed(adj) && Expanding(adj, seeds, visited, queue, cur, todo)
    requires cur in visited && v in Nbrs(adj, cur)
    requires forall x :: x in queue' <==> x in queue || x == v
    ensures Expanding(adj, seeds, visited, queue', cur, todo - {v})
  {
    forall s | seeds <= s && EdgeClosed(adj, s) ensures v in s {
    }
    assert v in adj;
    hide EdgeClosed, Nbrs;
  }

  lemma ExpandSkip(adj: Adj, seeds: set<Id>, visited: set<Id>, queue: seq<Id>, cur: Id, todo: set<Id>, v: Id)
    requires Expanding(adj, seeds, visited, queue, cur, todo) && v in visited
    ensures Expanding(adj, seeds, visited, queue, cur, todo - {v})
  {
    hide EdgeClosed, Nbrs;
  }

  lemma ExpandDone(adj: Adj, seeds: set<Id>, visited: set<Id>, cur: Id)
    requires Expanding(adj, seeds, visited, [], cur, {})
    ensures IsComponent(adj, seeds, visited)
  {
  }

  lemma ExpandBound(adj: Adj, seeds: set<Id>, visited: set<Id>, queue: seq<Id>, cur: Id, todo: set<Id>)
    requires Expanding(adj, seeds, visited, queue, cur, todo)
    ensures visited <= adj.Keys + seeds && forall x :: x in queue ==> x in adj.Keys + seeds
  {
  }

  /** The sorted breadth-first expansion of the seeds to the affected component. */
  method AffectedComponent(adj: Adj, seeds: set<Id>) returns (visited: set<Id>)
    requires Closed(adj)
    ensures IsComponent(adj, seeds, visited)
  {
    hide *;
    visited := {};
    var queue := SortedOf(seeds);
    ghost var cur: Id := "";
    ExpandStart(adj, seeds, queue);
    while queue != []
      invariant Expanding(adj, seeds, visited, queue, cur, {})
      decreases adj.Keys + seeds - visited, |queue|
    {
      ExpandBound(adj, seeds, visited, queue, cur, {});
      if queue[0] in visited {
        ExpandStale(adj, seeds, visited, queue, cur);
        queue := queue[1..];
      } else {
        ExpandVisit(adj, seeds, visited, queue, cur);
        cur := queue[0];
        var nbs := SortedOf(Nbrs(adj, queue[0]));
        visited, queue := visited + {queue[0]}, queue[1..];
        ghost var todo := Nbrs(adj, cur);
        for i := 0 to |nbs|
          invariant cur in visited && todo <= Nbrs(adj, cur)
          invariant Expanding(adj, seeds, visited, queue, cur, todo)
          invariant forall x :: x in todo ==> x in nbs[i..]
        {
          var nb := nbs[i];
          assert nbs[i..] == [nb] + nbs[i + 1..];
          if nb !in visited {
            ghost var plain := queue;
            queue := Enqueue(queue, nb);
            ExpandPush(adj, seeds, visited, plain, queue, cur, todo, nb);
          } else {
            ExpandSkip(adj, seeds, visited, queue, cur, todo, nb);
          }
          todo := todo - {nb};
        }
        assert todo == {};
      }
    }
    ExpandDone(adj, seeds, visited, cur);
  }

  ghost predicate InFrontier(t: Topology, dirty: DirtySet, d: Id) {
    d in dirty.devices || EndOfDirty(t, dirty.links, d)
  }

  /** Contains the dirty frontier and no propagation edge leaves it. */
  ghost predicate ClosedOver(t: Topology, dirty: DirtySet, s: set<Id>) {
    (forall d :: InFrontier(t, dirty, d) ==> d in s) && forall u, v :: u in s && AdjEdge(t, u, v) ==> v in s
  }

  /** The devices re-evaluated for a dirty set: its component, or every device when nothing is dirty. */
  ghost predicate Reevaluates(t: Topology, dirty: DirtySet, affected: set<Id>) {
    if exists d :: InFrontier(t, dirty, d)
    then ClosedOver(t, dirty, affected) && forall s :: ClosedOver(t, dirty, s) ==> affected <= s
    else affected == t.devices.Keys
  }

  lemma ComponentReevaluates(t: Topology, adj: Adj, dirty: DirtySet, seeds: set<Id>, c: set<Id>)
    requires Represents(t, adj) && IsComponent(adj, seeds, c) && seeds != {}
    requires forall d :: d in seeds <==> InFrontier(t, dirty, d)
    ensures Reevaluates(t, dirty, c)
  {
    hide EndOfDirty, AdjEdge, InFrontier;
    forall s | ClosedOver(t, dirty, s) ensures c <= s {
      assert seeds <= s && EdgeClosed(adj, s);
    }
    var d :| d in seeds;
    assert InFrontier(t, dirty, d);
  }

  /**
   `recompute_dirty`: the expansion runs over the cached adjacency, so it re-evaluates what it should
   whenever that can be trusted.
   */
  method RecomputeDirty(cache: GraphCache, t: Topology, v: int, dirty: DirtySet) returns (affected: set<Id>)
    requires cache.Valid()
    modifies cache
    ensures cache.Valid() && (cache.cached == old(cache.cached) || Accessed(old(cache.cached), t, v, cache.cached))
    ensures Trusted(old(cache.cached), t, v) ==> Reevaluates(t, dirty, affected)
  {
    var seeds := SeedFrontier(t, dirty);
    assert forall d :: d in seeds <==> InFrontier(t, dirty, d);
    hide EndOfDirty, AdjEdge, InFrontier, OverrideCounts;
    if seeds == {} {
      affected := t.devices.Keys;
    } else {
      var adj, ids := cache.Ensure(t, v);
      affected := AffectedComponent(adj, seeds);
      if Represents(t, adj) {
        ComponentReevaluates(t, adj, dirty, seeds, affected);
      }
    }
  }

  // ---- What the change record must cover ----

  ghost predicate SameEnd(t0: Topology, t1: Topology, i: Id) {
    && (i in t0.ifaces <==> i in t1.ifaces)
    && (i in t0.ifaces ==> t0.ifaces[i].device == t1.ifaces[i].device)
  }

  /** The columns of a device row that propagation reads; a recomputed status is not one of them. */
  predicate SameDevice(a: Device, b: Device) {
    a.kind == b.kind && a.provisioned == b.provisioned && a.override == b.override && a.parent == b.parent
  }

  predicate SameLink(a: Link, b: Link) {
    a.a == b.a && a.b == b.b && a.status == b.status && a.override == b.override && a.viable == b.viable
  }

  /** Links not listed as added, updated or deleted are the same rows with the same ends. */
  ghost predicate LinksCovered(t0: Topology, t1: Topology, ch: Change) {
    forall id :: id !in ChangedLinks(ch) ==>
      && (id in t0.links <==> id in t1.links)
      && (id in t0.links ==>
        SameLink(t0.links[id], t1.links[id]) && SameEnd(t0, t1, t0.links[id].a) && SameEnd(t0, t1, t0.links[id].b))
  }

  /** Device rows outside the touched ones are the same. */
  ghost predicate DevicesCovered(t0: Topology, t1: Topology, ch: Change) {
    forall d :: !Touched(t0, ch, d) ==>
      && (d in t0.devices <==> d in t1.devices)
      && (d in t0.devices ==> SameDevice(t0.devices[d], t1.devices[d]))
  }

  /** A device that leaves a container does not leave its old container unlisted. */
  ghost predicate ParentsCovered(t0: Topology, t1: Topology, ch: Change) {
    forall d, p :: IsParent(t0, d, p) ==> IsParent(t1, d, p) || Touched(t0, ch, p)
  }

  ghost predicate Covers(t0: Topology, t1: Topology, ch: Change) {
    LinksCovered(t0, t1, ch) && DevicesCovered(t0, t1, ch) && ParentsCovered(t0, t1, ch)
  }

  /** The set recomputed after the change: seeded by the dirty set of the old index and the new link ends. */
  ghost predicate IsAffected(t0: Topology, t1: Topology, ch: Change, c: set<Id>) {
    && (forall d :: Dirty(t0, ch, d) ==> d in c)
    && (forall d :: EndOfDirty(t1, ChangedLinks(ch), d) ==> d in c)
    && (forall u, v :: u in c && AdjEdge(t1, u, v) ==> v in c)
  }

  lemma UntouchedOutside(t0: Topology, t1: Topology, ch: Change, c: set<Id>, u: Id, v: Id)
    requires IsAffected(t0, t1, ch, c) && u !in c && IndexEdge(t0, u, v)
    ensures !Touched(t0, ch, u) && !Touched(t0, ch, v)
  {
    IndexEdgeSymmetric(t0, u, v);
  }

  lemma IndexEdgeSymmetric(t: Topology, u: Id, v: Id)
    requires IndexEdge(t, u, v)
    ensures IndexEdge(t, v, u)
  {
    var id :| id in t.links && LinkEnds(t, t.links[id], u, v);
    assert LinkEnds(t, t.links[id], v, u);
  }

  lemma ChangedEndIsDirty(t: Topology, ch: Change, id: Id, u: Id, v: Id)
    requires id in ChangedLinks(ch) && Carries(t, id, u, v)
    ensures Dirty(t, ch, u)
  {
    assert EndOfChanged(t, ch, u);
  }

  lemma TouchedIsDirty(t: Topology, ch: Change, d: Id)
    requires Touched(t, ch, d)
    ensures Dirty(t, ch, d)
  {
  }

  lemma CarriedEndIsDirty(t: Topology, links: set<Id>, id: Id, u: Id, v: Id)
    requires id in links && Carries(t, id, u, v)
    ensures EndOfDirty(t, links, u)
  {
  }

  /** A link outside the component is unlisted, and it carries propagation before exactly when it does after. */
  lemma LinkAgrees(t0: Topology, t1: Topology, ch: Change, c: set<Id>, id: Id, u: Id, v: Id)
    requires Covers(t0, t1, ch) && IsAffected(t0, t1, ch, c) && u !in c
    ensures Carries(t0, id, u, v) <==> Carries(t1, id, u, v)
  {
    if id in ChangedLinks(ch) {
      if Carries(t0, id, u, v) {
        ChangedEndIsDirty(t0, ch, id, u, v);
      }
      if Carries(t1, id, u, v) {
        CarriedEndIsDirty(t1, ChangedLinks(ch), id, u, v);
      }
    } else if id in t0.links {
      SameLinkAgrees(t0, t1, ch, c, id, u, v);
    }
  }

  lemma SameLinkAgrees(t0: Topology, t1: Topology, ch: Change, c: set<Id>, id: Id, u: Id, v: Id)
    requires Covers(t0, t1, ch) && IsAffected(t0, t1, ch, c) && u !in c
    requires id !in ChangedLinks(ch) && id in t0.links
    ensures Carries(t0, id, u, v) <==> Carries(t1, id, u, v)
  {
    var l := t0.links[id];
    assert LinkEnds(t0, l, u, v) <==> LinkEnds(t1, l, u, v);
    if LinkEnds(t0, l, u, v) {
      assert IndexEdge(t0, u, v);
      UntouchedOutside(t0, t1, ch, c, u, v);
      hide Touched, IsAffected, IndexEdge;
      assert EndPresent(t0, l.a) <==> EndPresent(t1, l.a);
      assert EndPresent(t0, l.b) <==> EndPresent(t1, l.b);
    }
  }

  lemma EdgeAgrees(t0: Topology, t1: Topology, ch: Change, c: set<Id>, u: Id, v: Id)
    requires Covers(t0, t1, ch) && IsAffected(t0, t1, ch, c) && u !in c
    ensures AdjEdge(t0, u, v) <==> AdjEdge(t1, u, v)
    ensures AdjEdge(t1, u, v) ==> v !in c
  {
    forall id { LinkAgrees(t0, t1, ch, c, id, u, v); }
    if Touched(t0, ch, u) {
      TouchedIsDirty(t0, ch, u);
    }
    assert IsParent(t0, u, v) <==> IsParent(t1, u, v);
    if Touched(t0, ch, v) {
      TouchedIsDirty(t0, ch, v);
    }
    AdjEdgeSymmetric(t1, u, v);
  }

  /** Reachability outside a set that edges do not leave carries over from one snapshot to another. */
  lemma FloodTransfers(tA: Topology, tB: Topology, c: set<Id>, rA: set<Id>, rB: set<Id>)
    requires IsReached(tA, rA) && IsReached(tB, rB)
    requires forall d :: d !in c && IsSeed(tA, d) ==> IsSeed(tB, d)
    requires forall d :: d !in c && Conducts(tA, d) ==> Conducts(tB, d)
    requires forall u, v :: u !in c && AdjEdge(tA, u, v) ==> AdjEdge(tB, u, v) && v !in c
    ensures rA <= rB + c
  {
    hide AdjEdge, Conducts;
    var s := rB + c;
    assert Seeds(tA) <= s;
    forall u, v | u in s && AdjEdge(tA, u, v) && Conducts(tA, v) ensures v in s {
      AdjEdgeSymmetric(tA, u, v);
    }
    assert FloodClosed(tA, s);
  }

  /**
   Incremental soundness.  A device outside the affected component is reachable from the
   anchors after the change exactly when it was before.
   */
  lemma IncrementalSound(t0: Topology, t1: Topology, ch: Change, c: set<Id>, r0: set<Id>, r1: set<Id>, d: Id)
    requires Covers(t0, t1, ch) && HasBackbone(t0) == HasBackbone(t1)
    requires IsAffected(t0, t1, ch, c)
    requires IsReached(t0, r0) && IsReached(t1, r1)
    requires d !in c
    ensures d in r0 <==> d in r1
  {
    forall u | u !in c ensures IsSeed(t0, u) == IsSeed(t1, u) && Conducts(t0, u) == Conducts(t1, u) {
      OutsideUnchanged(t0, t1, ch, c, u);
    }
    forall u, v | u !in c ensures AdjEdge(t0, u, v) == AdjEdge(t1, u, v) && (AdjEdge(t1, u, v) ==> v !in c) {
      EdgeAgrees(t0, t1, ch, c, u, v);
    }
    hide IsAffected, Covers, AdjEdge, IsSeed, Conducts, IsReached;
    FloodTransfers(t0, t1, c, r0, r1);
    FloodTransfers(t1, t0, c, r1, r0);
  }

  lemma OutsideUnchanged(t0: Topology, t1: Topology, ch: Change, c: set<Id>, u: Id)
    requires Covers(t0, t1, ch) && HasBackbone(t0) == HasBackbone(t1) && IsAffected(t0, t1, ch, c) && u !in c
    ensures IsSeed(t0, u) == IsSeed(t1, u) && Conducts(t0, u) == Conducts(t1, u)
  {
    if Touched(t0, ch, u) {
      TouchedIsDirty(t0, ch, u);
    }
  }

  /**
   The whole incremental step: the index describes the old snapshot, the recompute runs on the
   new one, and no device left out of it can have changed its reachability.
   */
  method RecomputeAfterChange(index: GraphIndex, cache: GraphCache, ghost t0: Topology, t1: Topology, v: int,
                              ch: Change)
    returns (affected: set<Id>)
    requires index.Valid(t0) && cache.Valid()
    modifies cache
    ensures cache.Valid()
    ensures Trusted(old(cache.cached), t1, v) ==> IsRecomputed(t0, t1, ch, affected)
    ensures Trusted(old(cache.cached), t1, v) && Covers(t0, t1, ch) && HasBackbone(t0) == HasBackbone(t1) ==>
      forall r0, r1, d :: IsReached(t0, r0) && IsReached(t1, r1) && d in t1.devices && d !in affected ==>
        (d in r0 <==> d in r1)
  {
    var dirty := index.DirtySetForChange(t0, ch);
    affected := RecomputeDirty(cache, t1, v, dirty);
    assert dirty.links == ChangedLinks(ch);
    assert Trusted(old(cache.cached), t1, v) ==> IsRecomputed(t0, t1, ch, affected) by {
      hide Reevaluates, Trusted, Dirty, GraphIndex.Valid;
    }
    hide *;
    if Trusted(old(cache.cached), t1, v) && Covers(t0, t1, ch) && HasBackbone(t0) == HasBackbone(t1) {
      forall r0, r1, d | IsReached(t0, r0) && IsReached(t1, r1) && d in t1.devices && d !in affected
        ensures d in r0 <==> d in r1
      {
        AffectedFromDirty(t0, t1, ch, dirty, affected, d);
        IncrementalSound(t0, t1, ch, affected, r0, r1, d);
      }
    }
  }

  lemma AffectedFromDirty(t0: Topology, t1: Topology, ch: Change, dirty: DirtySet, affected: set<Id>, d: Id)
    requires Reevaluates(t1, dirty, affected) && d in t1.devices && d !in affected
    requires (forall x :: x in dirty.devices <==> Dirty(t0, ch, x)) && dirty.links == ChangedLinks(ch)
    ensures IsAffected(t0, t1, ch, affected)
  {
    hide Dirty, EndOfDirty, AdjEdge;
    assert forall x :: Dirty(t0, ch, x) ==> InFrontier(t1, dirty, x);
    assert forall x :: EndOfDirty(t1, ChangedLinks(ch), x) ==> InFrontier(t1, dirty, x);
  }

  /** What is re-evaluated after the change: the component of the dirty set that the old index gives. */
  ghost predicate IsRecomputed(t0: Topology, t1: Topology, ch: Change, c: set<Id>) {
    exists dirty: DirtySet ::
      && (forall x :: x in dirty.devices <==> Dirty(t0, ch, x)) && dirty.links == ChangedLinks(ch)
      && Reevaluates(t1, dirty, c)
  }

  /** A device the change touched or a neighbour of one, on the old rows; or an end of a changed link, on the new. */
  ghost predicate RowFrontier(t0: Topology, t1: Topology, ch: Change, d: Id) {
    || (exists x :: RowTouched(t0, ch, x) && (d == x || exists id :: RowJoins(t0, id, x, d)))
    || exists id :: (id in ch.linksAdded || id in ch.linksUpdated || id in ch.linksDeleted) && RowEndsAt(t1, id, d)
  }

  ghost predicate RowClosed(t0: Topology, t1: Topology, ch: Change, s: set<Id>) {
    (forall d :: RowFrontier(t0, t1, ch, d) ==> d in s) && forall u, v :: u in s && RowAdjacent(t1, u, v) ==> v in s
  }

  lemma DirtyEndOnRows(t: Topology, ch: Change, d: Id)
    ensures EndOfDirty(t, ChangedLinks(ch), d) <==>
      exists id :: (id in ch.linksAdded || id in ch.linksUpdated || id in ch.linksDeleted) && RowEndsAt(t, id, d)
  {
    forall id { EndOnRows(t, id, d); }
    hide RowEndsAt, DeviceOf;
    if EndOfDirty(t, ChangedLinks(ch), d) {
      var id :| id in ChangedLinks(ch) && id in t.links &&
        (DeviceOf(t, t.links[id].a) == Some(d) || DeviceOf(t, t.links[id].b) == Some(d));
      assert RowEndsAt(t, id, d);
    }
  }

  /** What is re-evaluated, on the rows: the least closed set around the frontier, or everything without one. */
  lemma RecomputedMeans(t0: Topology, t1: Topology, ch: Change, c: set<Id>)
    requires IsRecomputed(t0, t1, ch, c)
    ensures if exists d :: RowFrontier(t0, t1, ch, d)
      then RowClosed(t0, t1, ch, c) && forall s :: RowClosed(t0, t1, ch, s) ==> c <= s
      else c == t1.devices.Keys
  {
    hide Dirty, EndOfDirty, AdjEdge, RowAdjacent, RowTouched;
    var dirty: DirtySet :|
      && (forall x :: x in dirty.devices <==> Dirty(t0, ch, x)) && dirty.links == ChangedLinks(ch)
      && Reevaluates(t1, dirty, c);
    forall d ensures InFrontier(t1, dirty, d) <==> RowFrontier(t0, t1, ch, d) {
      DirtyOnRows(t0, ch, d);
      DirtyEndOnRows(t1, ch, d);
    }
    forall u, v { AdjEdgeOnRows(t1, u, v); }
    hide InFrontier, RowFrontier;
    forall s ensures ClosedOver(t1, dirty, s) <==> RowClosed(t0, t1, ch, s) {
    }
    hide ClosedOver, RowClosed;
  }

  /** It stays within every closed set around the dirty devices. */
  lemma RecomputedWithin(t0: Topology, t1: Topology, ch: Change, c: set<Id>, s: set<Id>, x: Id)
    requires IsRecomputed(t0, t1, ch, c) && IsAffected(t0, t1, ch, s)
    requires x in ch.devicesAdded + ch.devicesUpdated + ch.devicesMoved
    ensures c <= s
  {
    var dirty: DirtySet :|
      && (forall x :: x in dirty.devices <==> Dirty(t0, ch, x)) && dirty.links == ChangedLinks(ch)
      && Reevaluates(t1, dirty, c);
    TouchedIsDirty(t0, ch, x);
    hide Dirty, EndOfDirty, AdjEdge;
    assert InFrontier(t1, dirty, x);
    assert ClosedOver(t1, dirty, s);
  }

  // ---- Why the change record must list links and old containers ----

  /** `B` anchors `X` over the link `L`; `X` may sit in the container `P`. */
  function Sample(linkOverride: Option<Status>, parent: Option<Id>): Topology {
    Topology(map["B" := Row(BACKBONE_GATEWAY, None), "X" := Row(EDGE_ROUTER, parent), "P" := Row(POP, None)],
             map["b" := Port("B"), "x" := Port("X")],
             map["L" := Wire("b", "x", linkOverride)])
  }

  predicate Both(u: Id, v: Id, a: Id, b: Id) {
    (u == a && v == b) || (u == b && v == a)
  }

  lemma SampleEdges(o: Option<Status>, parent: Option<Id>, u: Id, v: Id)
    requires o == None || o == Some(DOWN)
    requires parent == None || parent == Some("P")
    ensures AdjEdge(Sample(o, parent), u, v) <==>
      (o == None && Both(u, v, "B", "X")) || (parent == Some("P") && Both(u, v, "X", "P"))
    ensures IndexEdge(Sample(o, parent), u, v) <==> Both(u, v, "B", "X")
  {
    var t := Sample(o, parent);
    assert LinkEnds(t, t.links["L"], u, v) <==> Both(u, v, "B", "X");
    if o == None && Both(u, v, "B", "X") {
      assert Carries(t, "L", u, v);
    }
  }

  function SampleSet(o: Option<Status>, parent: Option<Id>): set<Id> {
    if o.Some? then {"B"} else if parent.Some? then {"B", "X", "P"} else {"B", "X"}
  }

  lemma SampleReached(o: Option<Status>, parent: Option<Id>)
    requires o == None || o == Some(DOWN)
    requires parent == None || parent == Some("P")
    ensures IsReached(Sample(o, parent), SampleSet(o, parent))
  {
    hide AdjEdge, Conducts, Seeds, Sample;
    var t, r := Sample(o, parent), SampleSet(o, parent);
    SampleSeeds(o, parent);
    forall u, v { SampleEdges(o, parent, u, v); }
    assert FloodClosed(t, r);
    forall s | FloodClosed(t, s) ensures r <= s {
      if o == None {
        assert AdjEdge(t, "B", "X") && "X" in s;
        if parent.Some? { assert AdjEdge(t, "X", "P"); }
      }
    }
  }

  lemma SampleSeeds(o: Option<Status>, parent: Option<Id>)
    ensures forall d :: d in Seeds(Sample(o, parent)) <==> d == "B"
    ensures Conducts(Sample(o, parent), "X") && Conducts(Sample(o, parent), "P")
  {
    var t := Sample(o, parent);
    assert t.devices["B"].kind == BACKBONE_GATEWAY;
    assert HasBackbone(t);
  }

  lemma SampleTouched(o: Option<Status>, parent: Option<Id>, ch: Change, d: Id)
    requires o == None || o == Some(DOWN)
    requires parent == None || parent == Some("P")
    requires ch.overridesChanged !! {"B", "X", "P"}
    ensures Touched(Sample(o, parent), ch, d) <==> d in ch.devicesAdded + ch.devicesUpdated + ch.devicesMoved
  {
    forall v { SampleEdges(o, parent, d, v); }
  }

  /** With no changed link, the affected set is a closed set around the listed devices and their neighbours. */
  lemma SampleAffected(p0: Option<Id>, o1: Option<Status>, p1: Option<Id>, ch: Change, c: set<Id>)
    requires o1 == None || o1 == Some(DOWN)
    requires (p0 == None || p0 == Some("P")) && (p1 == None || p1 == Some("P"))
    requires ChangedLinks(ch) == {} && ch.overridesChanged !! {"B", "X", "P"}
    requires ch.devicesAdded + ch.devicesUpdated + ch.devicesMoved <= c
    requires forall x, d :: x in c && (Both(x, d, "B", "X") || (p1.Some? && Both(x, d, "X", "P"))) ==> d in c
    ensures IsAffected(Sample(None, p0), Sample(o1, p1), ch, c)
  {
    hide Sample, AdjEdge, IndexEdge, Touched, EndOfChanged, EndOfDirty;
    var t0, t1 := Sample(None, p0), Sample(o1, p1);
    forall d | Dirty(t0, ch, d) ensures d in c {
      var x :| (Touched(t0, ch, x) || EndOfChanged(t0, ch, x)) && (d == x || IndexEdge(t0, x, d));
      NoChangedEnds(t0, ch, x);
      SampleTouched(None, p0, ch, x);
      SampleEdges(None, p0, x, d);
    }
    forall d { NoDirtyEnds(t1, d); }
    forall u, v { SampleEdges(o1, p1, u, v); }
  }

  lemma NoChangedEnds(t: Topology, ch: Change, x: Id)
    requires ChangedLinks(ch) == {}
    ensures !EndOfChanged(t, ch, x)
  {
  }

  lemma NoDirtyEnds(t: Topology, x: Id)
    ensures !EndOfDirty(t, {}, x)
  {
  }

  /**
   `overridesChanged` is documented to hold device or link ids, but a link id in it is dropped:
   forcing `L` down there, next to an unrelated update of `P`, leaves the lost `X` out of the recompute.
   */
  lemma LinkOverrideIsDropped()
    ensures var t0, t1 := Sample(None, None), Sample(Some(DOWN), None);
      var ch := Change({}, {"P"}, {}, {}, {}, {}, {"L"});
      && t0.(links := t1.links) == t1 && IsAffected(t0, t1, ch, {"P"})
      && (forall c :: IsRecomputed(t0, t1, ch, c) ==> "X" !in c)
      && exists r0, r1 :: IsReached(t0, r0) && IsReached(t1, r1) && "X" in r0 && "X" !in r1
  {
    hide Sample, IsReached, IsAffected, IsRecomputed;
    SampleDiffers();
    SampleReached(None, None);
    SampleReached(Some(DOWN), None);
    assert "X" in SampleSet(None, None) && "X" !in SampleSet(Some(DOWN), None);
    var ch := Change({}, {"P"}, {}, {}, {}, {}, {"L"});
    assert ChangedLinks(ch) == {};
    SampleAffected(None, Some(DOWN), None, ch, {"P"});
    forall c | IsRecomputed(Sample(None, None), Sample(Some(DOWN), None), ch, c) ensures "X" !in c {
      RecomputedWithin(Sample(None, None), Sample(Some(DOWN), None), ch, c, {"P"}, "P");
    }
  }

  lemma SampleDiffers()
    ensures var t0, t1 := Sample(None, None), Sample(Some(DOWN), None); t0.(links := t1.links) == t1
    ensures var t0, t1 := Sample(None, Some("P")), Sample(None, None); t0.(devices := t1.devices) == t1
  {
  }

  /**
   Moving a device out of a container dirties the device and its link neighbours, not the container:
   `P` was reachable through `X`, is not any more, and is left out of the recompute.
   */
  lemma OldContainerIsMissed()
    ensures var t0, t1 := Sample(None, Some("P")), Sample(None, None);
      var ch := Change({}, {}, {"X"}, {}, {}, {}, {});
      && t0.(devices := t1.devices) == t1 && IsAffected(t0, t1, ch, {"B", "X"})
      && (forall c :: IsRecomputed(t0, t1, ch, c) ==> "P" !in c)
      && exists r0, r1 :: IsReached(t0, r0) && IsReached(t1, r1) && "P" in r0 && "P" !in r1
  {
    hide Sample, IsReached, IsAffected, IsRecomputed;
    SampleDiffers();
    SampleReached(None, Some("P"));
    SampleReached(None, None);
    assert "P" in SampleSet(None, Some("P")) && "P" !in SampleSet(None, None);
    var ch := Change({}, {}, {"X"}, {}, {}, {}, {});
    assert ChangedLinks(ch) == {};
    SampleAffected(Some("P"), None, None, ch, {"B", "X"});
    forall c | IsRecomputed(Sample(None, Some("P")), Sample(None, None), ch, c) ensures "P" !in c {
      RecomputedWithin(Sample(None, Some("P")), Sample(None, None), ch, c, {"B", "X"}, "X");
    }
  }
}
