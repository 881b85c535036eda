/**
 The device index of backend/services/graph_index.py: raw link adjacency, connected
 regions with their printed ids, and the dirty set of a topology change.
 */
module GraphIndex {
  import opened Order
  import opened Graphs
  import opened Topology

  datatype Change = Change(
    devicesAdded: set<Id>, devicesUpdated: set<Id>, devicesMoved: set<Id>,
    linksAdded: set<Id>, linksUpdated: set<Id>, linksDeleted: set<Id>,
    overridesChanged: set<Id>)

  datatype DirtySet = DirtySet(devices: set<Id>, links: set<Id>, regionId: string)

  // ---- Region ids ----

  function RegionId(root: Id, size: nat): string {
    "r:" + root + ":" + Digits(size)
  }

  lemma ColonAfterRoot(s: string, root: Id, tail: string, k: nat)
    requires s == "r:" + root + ":" + tail && |root| < k && 2 + k < |s| && s[2 + k] == ':'
    ensures ':' in tail
  {
    assert tail[k - |root| - 1] == ':';
  }

  /** Ids may themselves contain colons; the printed region id still determines its root and size. */
  lemma RegionIdDeterminesRoot(r1: Id, n1: nat, r2: Id, n2: nat)
    requires RegionId(r1, n1) == RegionId(r2, n2)
    ensures r1 == r2 && n1 == n2
  {
    var s := RegionId(r1, n1);
    assert s == "r:" + r1 + ":" + Digits(n1) == "r:" + r2 + ":" + Digits(n2);
    if |r1| < |r2| {
      ColonAfterRoot(s, r1, Digits(n1), |r2|);
    } else if |r2| < |r1| {
      ColonAfterRoot(s, r2, Digits(n2), |r1|);
    }
    assert s[2..2 + |r1|] == r1;
    assert s[2..2 + |r2|] == r2;
    assert s[3 + |r1|..] == Digits(n1) && s[3 + |r2|..] == Digits(n2);
    DigitsInjective(n1, n2);
  }

  // ---- Connected components ----

  ghost predicate EdgeClosed(adj: Adj, s: set<Id>) {
    forall u, v :: u in s && v in Nbrs(adj, u) ==> v in s
  }

  lemma ReachableInside(adj: Adj, s: set<Id>, a: Id, b: Id)
    requires EdgeClosed(adj, s) && a in s && Reachable(adj, a, b)
    ensures b in s
  {
    var p :| IsWalkFrom(adj, a, b, p);
    WalkStaysInside(adj, s, p);
  }

  /** The members of one region found so far: `comp` was dequeued, `queue` is waiting. */
  ghost predicate Growing(adj: Adj, root: Id, past: set<Id>, visited: set<Id>, comp: seq<Id>, queue: seq<Id>, cur: Id,
                          todo: set<Id>) {
    && visited <= adj.Keys
    && NoDuplicates(comp + queue) && |comp + queue| > 0 && (comp + queue)[0] == root
    && (forall x :: x in visited <==> x in past || x in comp + queue)
    && (forall x :: x in comp + queue ==> x !in past && Reachable(adj, root, x))
    && (forall u, v :: u in comp && v in Nbrs(adj, u) && !(u == cur && v in todo) ==> v in visited)
  }

  lemma GrowStart(adj: Adj, root: Id, past: set<Id>)
    requires root in adj && root !in past && past <= adj.Keys
    ensures Growing(adj, root, past, past + {root}, [], [root], root, {})
  {
    assert IsWalkFrom(adj, root, root, [root]);
    assert [] + [root] == [root];
  }

  lemma GrowPop(adj: Adj, root: Id, past: set<Id>, visited: set<Id>, comp: seq<Id>, queue: seq<Id>, cur: Id)
    requires queue != [] && Growing(adj, root, past, visited, comp, queue, cur, {})
    ensures Growing(adj, root, past, visited, comp + [queue[0]], queue[1..], queue[0], Nbrs(adj, queue[0]))
  {
    hide Reachable;
    assert comp + [queue[0]] + queue[1..] == comp + queue;
  }

  lemma GrowPush(adj: Adj, root: Id, past: set<Id>, visited: set<Id>, comp: seq<Id>, queue: seq<Id>, cur: Id,
                 todo: set<Id>, v: Id)
    requires Growing(adj, root, past, visited, comp, queue, cur, todo)
    requires Closed(adj) && cur in comp && v in Nbrs(adj, cur) && v !in visited
    ensures Growing(adj, root, past, visited + {v}, comp, queue + [v], cur, todo - {v})
  {
    ReachableStep(adj, cur, v);
    ReachableTransitive(adj, root, cur, v);
    hide Reachable;
    assert comp + (queue + [v]) == comp + queue + [v];
  }

  lemma GrowSkip(adj: Adj, root: Id, past: set<Id>, visited: set<Id>, comp: seq<Id>, queue: seq<Id>, cur: Id,
                 todo: set<Id>, v: Id)
    requires Growing(adj, root, past, visited, comp, queue, cur, todo) && v in visited
    ensures Growing(adj, root, past, visited, comp, queue, cur, todo - {v})
  {
  }

  /** One region: everything connected to `root`, in breadth-first order from `root`. */
  ghost predicate IsRegion(adj: Adj, root: Id, comp: seq<Id>) {
    && NoDuplicates(comp) && comp != [] && comp[0] == root
    && forall x :: x in comp <==> Reachable(adj, root, x)
  }

  lemma GrowDone(adj: Adj, root: Id, past: set<Id>, visited: set<Id>, comp: seq<Id>, cur: Id)
    requires Symmetric(adj) && EdgeClosed(adj, past)
    requires Growing(adj, root, past, visited, comp, [], cur, {})
    ensures EdgeClosed(adj, visited) && IsRegion(adj, root, comp)
    ensures visited <= adj.Keys && forall x :: x in visited <==> x in past || x in comp
  {
    assert comp + [] == comp;
    forall x | Reachable(adj, root, x) ensures x in comp {
      ReachableInside(adj, visited, root, x);
      if x in past {
        ReachableSymmetric(adj, root, x);
        ReachableInside(adj, past, x, root);
      }
    }
  }

  method GrowRegion(adj: Adj, root: Id, visited0: set<Id>) returns (visited: set<Id>, comp: seq<Id>)
    requires Closed(adj) && Symmetric(adj) && EdgeClosed(adj, visited0) && visited0 <= adj.Keys
    requires root in adj && root !in visited0
    ensures EdgeClosed(adj, visited) && IsRegion(adj, root, comp)
    ensures visited <= adj.Keys && forall x :: x in visited <==> x in visited0 || x in comp
  {
    hide *;
    comp := [];
    var queue := [root];
    visited := visited0 + {root};
    ghost var cur := root;
    GrowStart(adj, root, visited0);
    while queue != []
      invariant Growing(adj, root, visited0, visited, comp, queue, cur, {})
      decreases adj.Keys - visited, |queue|
    {
      GrowPop(adj, root, visited0, visited, comp, queue, cur);
      cur := queue[0];
      var nbs := SortedOf(Nbrs(adj, queue[0]));
      comp, queue := comp + [queue[0]], queue[1..];
      ghost var v0, n0, todo := visited, |queue|, Nbrs(adj, cur);
      for i := 0 to |nbs|
        invariant cur in comp && todo <= Nbrs(adj, cur)
        invariant Growing(adj, root, visited0, visited, comp, queue, cur, todo)
        invariant forall x :: x in todo ==> x in nbs[i..]
        invariant v0 <= visited && (visited == v0 ==> |queue| == n0)
      {
        var n := nbs[i];
        assert nbs[i..] == [n] + nbs[i + 1..];
        if n !in visited {
          GrowPush(adj, root, visited0, visited, comp, queue, cur, todo, n);
          visited, queue := visited + {n}, queue + [n];
        } else {
          GrowSkip(adj, root, visited0, visited, comp, queue, cur, todo, n);
        }
        todo := todo - {n};
      }
      assert todo == {};
      GrowBounded(adj, root, visited0, visited, comp, queue, cur);
    }
    GrowDone(adj, root, visited0, visited, comp, cur);
  }

  lemma GrowBounded(adj: Adj, root: Id, past: set<Id>, visited: set<Id>, comp: seq<Id>, queue: seq<Id>, cur: Id)
    requires Growing(adj, root, past, visited, comp, queue, cur, {})
    ensures visited <= adj.Keys
  {
  }

  /** Everything connected to `u`. */
  ghost function Members(adj: Adj, u: Id): set<Id> {
    set x | x in adj.Keys && Reachable(adj, u, x)
  }

  ghost predicate IsLeastMember(adj: Adj, u: Id, root: Id) {
    Reachable(adj, u, root) && forall x :: Reachable(adj, u, x) ==> IdLe(root, x)
  }

  /** The id of the region of `u`: its least device and the number of its devices. */
  ghost predicate IsRegionTag(adj: Adj, u: Id, tag: string) {
    exists root :: IsLeastMember(adj, u, root) && tag == RegionId(root, |Members(adj, u)|)
  }

  /** Each labelled device carries the id of its region, and connected devices are labelled alike. */
  ghost predicate Labelled(adj: Adj, visited: set<Id>, tags: map<Id, string>) {
    && tags.Keys == visited
    && (forall u :: u in visited ==> IsRegionTag(adj, u, tags[u]))
    && (forall u, v :: u in visited && Reachable(adj, u, v) ==> v in visited && tags[u] == tags[v])
  }

  function Relabel(tags: map<Id, string>, comp: seq<Id>, id: string): map<Id, string> {
    map d | d in tags.Keys + (set x | x in comp) :: if d in comp then id else tags[d]
  }

  lemma RegionOfMember(adj: Adj, root: Id, comp: seq<Id>, u: Id)
    requires Closed(adj) && Symmetric(adj) && root in adj && IsRegion(adj, root, comp) && u in comp
    requires forall x :: x in comp ==> IdLe(root, x)
    ensures IsRegionTag(adj, u, RegionId(root, |comp|))
  {
    ReachableSymmetric(adj, root, u);
    forall x ensures Reachable(adj, u, x) <==> x in comp {
      if Reachable(adj, u, x) { ReachableTransitive(adj, root, u, x); }
      if x in comp { ReachableTransitive(adj, u, root, x); }
    }
    hide Reachable, IdLe;
    assert root in comp by { RegionHasRoot(adj, root, comp); }
    forall x | x in comp ensures x in adj { ReachableIsNode(adj, root, x); }
    assert Members(adj, u) == set x | x in comp;
    DistinctSize(comp);
  }

  lemma ReachableIsNode(adj: Adj, u: Id, v: Id)
    requires Closed(adj) && u in adj && Reachable(adj, u, v)
    ensures v in adj
  {
    var p :| IsWalkFrom(adj, u, v, p);
    WalkStaysInside(adj, adj.Keys, p);
  }

  lemma {:induction false} DistinctSize(s: seq<Id>)
    requires NoDuplicates(s)
    ensures |set x | x in s| == |s|
  {
    if s != [] {
      var n := |s| - 1;
      DistinctSize(s[..n]);
      DistinctAt(s, n);
      assert (set x | x in s) == (set x | x in s[..n]) + {s[n]};
    }
  }

  lemma LabelRegion(adj: Adj, visited0: set<Id>, visited: set<Id>, tags: map<Id, string>, root: Id, comp: seq<Id>)
    requires Closed(adj) && Symmetric(adj) && root in adj && Labelled(adj, visited0, tags)
    requires IsRegion(adj, root, comp) && root !in visited0 && forall x :: x in comp ==> IdLe(root, x)
    requires forall x :: x in visited <==> x in visited0 || x in comp
    ensures Labelled(adj, visited, Relabel(tags, comp, RegionId(root, |comp|)))
  {
    hide IsRegionTag, RegionId;
    var tags' := Relabel(tags, comp, RegionId(root, |comp|));
    forall u | u in comp ensures u !in visited0 {
      if u in visited0 {
        ReachableSymmetric(adj, root, u);
      }
    }
    forall u | u in comp ensures IsRegionTag(adj, u, RegionId(root, |comp|)) {
      RegionOfMember(adj, root, comp, u);
    }
    forall u, v | u in visited && Reachable(adj, u, v) ensures v in visited && tags'[u] == tags'[v] {
      if u in comp {
        ReachableTransitive(adj, root, u, v);
      }
    }
  }

  /** Two indexed devices get the same region id exactly when they are connected. */
  lemma SameRegionIffConnected(adj: Adj, tags: map<Id, string>, u: Id, v: Id)
    requires Symmetric(adj) && Labelled(adj, adj.Keys, tags)
    requires u in adj && v in adj
    ensures tags[u] == tags[v] <==> Reachable(adj, u, v)
  {
    hide Reachable, RegionId, IsRegionTag, Symmetric;
    assert IsRegionTag(adj, u, tags[u]) && IsRegionTag(adj, v, tags[v]);
    if tags[u] == tags[v] {
      var r1, n1 := RootOf(adj, u, tags[u]);
      var r2, n2 := RootOf(adj, v, tags[v]);
      RegionIdDeterminesRoot(r1, n1, r2, n2);
      ReachableSymmetric(adj, v, r1);
      ReachableTransitive(adj, u, r1, v);
    }
  }

  /**
   Every device carries the id of its region, made of the least device and the number of the devices
   connected to it, and two devices carry the same id exactly when they are connected.
   */
  ghost predicate RegionsDescribe(adj: Adj, tags: map<Id, string>) {
    && tags.Keys == adj.Keys
    && (forall u :: u in adj ==> IsRegionTag(adj, u, tags[u]))
    && (forall u, v :: u in adj && v in adj ==> (tags[u] == tags[v] <==> Reachable(adj, u, v)))
  }

  lemma RegionsAreComponents(adj: Adj, tags: map<Id, string>)
    requires Symmetric(adj) && Labelled(adj, adj.Keys, tags)
    ensures RegionsDescribe(adj, tags)
  {
    hide Reachable, IsRegionTag, Symmetric;
    forall u, v | u in adj && v in adj ensures tags[u] == tags[v] <==> Reachable(adj, u, v) {
      SameRegionIffConnected(adj, tags, u, v);
    }
  }

  lemma RootOf(adj: Adj, u: Id, tag: string) returns (root: Id, n: nat)
    requires IsRegionTag(adj, u, tag)
    ensures Reachable(adj, u, root) && tag == RegionId(root, n)
  {
    hide Reachable, RegionId;
    root :| IsLeastMember(adj, u, root) && tag == RegionId(root, |Members(adj, u)|);
    n := |Members(adj, u)|;
  }

  lemma NothingLabelled(adj: Adj)
    ensures Labelled(adj, {}, map[]) && EdgeClosed(adj, {})
  {
  }

  method LabelRegions(adj: Adj, devs: seq<Id>) returns (tags: map<Id, string>)
    requires Closed(adj) && Symmetric(adj) && Sorted(devs) && forall x :: x in devs <==> x in adj
    ensures Labelled(adj, adj.Keys, tags) && tags.Keys == adj.Keys
  {
    tags := map[];
    var visited: set<Id> := {};
    NothingLabelled(adj);
    hide *;
    for i := 0 to |devs|
      invariant Labelled(adj, visited, tags) && EdgeClosed(adj, visited) && visited <= adj.Keys
      invariant forall x :: x in devs[..i] ==> x in visited
    {
      assert devs[..i + 1] == devs[..i] + [devs[i]];
      if devs[i] !in visited {
        ghost var before := visited;
        var comp;
        visited, comp := GrowRegion(adj, devs[i], visited);
        FirstIsLeast(adj, devs, i, before, comp, visited);
        LabelRegion(adj, before, visited, tags, devs[i], comp);
        tags := Relabel(tags, comp, RegionId(devs[i], |comp|));
        RegionHasRoot(adj, devs[i], comp);
      }
    }
    assert devs[..|devs|] == devs;
    assert visited == adj.Keys;
    LabelKeys(adj, visited, tags);
  }

  /** The root of a new region is the least of its devices, since the earlier ones are all labelled. */
  lemma FirstIsLeast(adj: Adj, devs: seq<Id>, i: nat, before: set<Id>, comp: seq<Id>, visited: set<Id>)
    requires Closed(adj) && Symmetric(adj) && EdgeClosed(adj, before)
    requires Sorted(devs) && i < |devs| && (forall x :: x in devs <==> x in adj)
    requires (forall x :: x in devs[..i] ==> x in before) && devs[i] !in before && IsRegion(adj, devs[i], comp)
    ensures forall x :: x in comp ==> IdLe(devs[i], x)
  {
    assert devs[i] in devs;
    forall x | x in comp ensures IdLe(devs[i], x) {
      ReachableIsNode(adj, devs[i], x);
      ReachableSymmetric(adj, devs[i], x);
      if x in before { ReachableInside(adj, before, x, devs[i]); }
      LaterIsNotLess(devs, i, x);
    }
  }

  lemma LaterIsNotLess(devs: seq<Id>, i: nat, x: Id)
    requires Sorted(devs) && i < |devs| && x in devs && x !in devs[..i]
    ensures IdLe(devs[i], x)
  {
    forall k | 0 <= k < i ensures devs[k] != x {
      assert devs[..i][k] == devs[k];
    }
    var k :| 0 <= k < |devs| && devs[k] == x;
  }

  lemma RegionText()
    ensures RegionId("A", 12) == "r:A:12"
  {
    assert Digits(1) == "1";
    assert Digits(12) == "12";
  }

  // ---- The index ----

  ghost predicate IndexKey(t: Topology, d: Id) {
    d in t.devices || exists v :: IndexEdge(t, d, v)
  }

  predicate Indexed(t: Topology, id: Id) {
    id in t.links && DeviceOf(t, t.links[id].a).Some? && DeviceOf(t, t.links[id].b).Some?
  }

  function EndsOf(t: Topology, id: Id): (Id, Id)
    requires Indexed(t, id)
  {
    (DeviceOf(t, t.links[id].a).value, DeviceOf(t, t.links[id].b).value)
  }

  /** A link is indexed when both its interface rows name a device, under those devices in the order of its ends. */
  lemma EndsOfMeans(t: Topology, id: Id)
    ensures Indexed(t, id) <==> exists u, v :: RowJoins(t, id, u, v)
    ensures Indexed(t, id) ==>
      RowJoins(t, id, EndsOf(t, id).0, EndsOf(t, id).1) && EndsOf(t, id).0 == t.ifaces[t.links[id].a].device
  {
    if Indexed(t, id) {
      assert RowJoins(t, id, EndsOf(t, id).0, EndsOf(t, id).1);
    }
  }

  /** Directly changed devices; an id in `overridesChanged` counts only when it is an indexed device. */
  ghost predicate Touched(t: Topology, ch: Change, d: Id) {
    d in ch.devicesAdded + ch.devicesUpdated + ch.devicesMoved || (d in ch.overridesChanged && IndexKey(t, d))
  }

  function ChangedLinks(ch: Change): set<Id> {
    ch.linksAdded + ch.linksUpdated + ch.linksDeleted
  }

  ghost predicate EndOfChanged(t: Topology, ch: Change, d: Id) {
    exists id :: id in ChangedLinks(ch) && Indexed(t, id) && (d == EndsOf(t, id).0 || d == EndsOf(t, id).1)
  }

  /** A touched device or an end of a changed link, or one of its neighbours over any link. */
  ghost predicate Dirty(t: Topology, ch: Change, d: Id) {
    exists x :: (Touched(t, ch, x) || EndOfChanged(t, ch, x)) && (d == x || IndexEdge(t, x, d))
  }

  /** A changed device, a known device with a changed override, or an end of a changed link, on the rows. */
  ghost predicate RowTouched(t: Topology, ch: Change, x: Id) {
    || x in ch.devicesAdded || x in ch.devicesUpdated || x in ch.devicesMoved
    || (x in ch.overridesChanged && (x in t.devices || exists id, y :: RowJoins(t, id, x, y)))
    || exists id, y :: (id in ch.linksAdded || id in ch.linksUpdated || id in ch.linksDeleted) && RowJoins(t, id, x, y)
  }

  lemma DirtyOnRows(t: Topology, ch: Change, d: Id)
    ensures Dirty(t, ch, d) <==> exists x :: RowTouched(t, ch, x) && (d == x || exists id :: RowJoins(t, id, x, d))
  {
    forall x, y ensures IndexEdge(t, x, y) <==> exists id :: RowJoins(t, id, x, y) { IndexEdgeOnRows(t, x, y); }
    forall x ensures EndOfChanged(t, ch, x) <==>
      exists id, y :: (id in ch.linksAdded || id in ch.linksUpdated || id in ch.linksDeleted) && RowJoins(t, id, x, y)
    {
      EndOfChangedOnRows(t, ch, x);
    }
    hide EndOfChanged, IndexEdge, RowJoins;
    forall x ensures RowTouched(t, ch, x) <==> Touched(t, ch, x) || EndOfChanged(t, ch, x) {
      if y, id :| RowJoins(t, id, x, y) {
        assert IndexEdge(t, x, y);
      }
      if IndexKey(t, x) && x !in t.devices {
        var y :| IndexEdge(t, x, y);
      }
    }
    hide RowTouched, Touched;
  }

  lemma EndOfChangedOnRows(t: Topology, ch: Change, x: Id)
    ensures EndOfChanged(t, ch, x) <==>
      exists id, y :: (id in ch.linksAdded || id in ch.linksUpdated || id in ch.linksDeleted) && RowJoins(t, id, x, y)
  {
    if EndOfChanged(t, ch, x) {
      var id :| id in ChangedLinks(ch) && Indexed(t, id) && (x == EndsOf(t, id).0 || x == EndsOf(t, id).1);
      var y := if x == EndsOf(t, id).0 then EndsOf(t, id).1 else EndsOf(t, id).0;
      assert RowJoins(t, id, x, y);
    }
    if id, y :| (id in ch.linksAdded || id in ch.linksUpdated || id in ch.linksDeleted) && RowJoins(t, id, x, y) {
      assert id in ChangedLinks(ch) && Indexed(t, id);
    }
  }

  /** The raw adjacency of a topology: exactly its index edges, over exactly its index keys. */
  ghost predicate Indexes(t: Topology, adj: Adj) {
    && Closed(adj) && Symmetric(adj)
    && (forall d :: d in adj <==> IndexKey(t, d))
    && (forall u, v :: v in Nbrs(adj, u) <==> IndexEdge(t, u, v))
  }

  ghost predicate IndexedBy(t: Topology, seen: set<Id>, u: Id, v: Id) {
    exists id :: id in seen && id in t.links && LinkEnds(t, t.links[id], u, v)
  }

  /** The index after the links in `seen`; so far only link ends are keys. */
  ghost predicate Indexing(t: Topology, adj: Adj, seen: set<Id>) {
    && Closed(adj) && Symmetric(adj)
    && (forall d :: d in adj ==> Nbrs(adj, d) != {})
    && (forall u, v :: v in Nbrs(adj, u) <==> IndexedBy(t, seen, u, v))
  }

  ghost predicate EndsIndexed(t: Topology, ends: map<Id, (Id, Id)>, seen: set<Id>) {
    && (forall id :: id in ends <==> id in seen && Indexed(t, id))
    && (forall id :: id in ends ==> ends[id] == EndsOf(t, id))
  }

  lemma IndexedByMore(t: Topology, seen: set<Id>, id: Id, u: Id, v: Id)
    requires id in t.links
    ensures IndexedBy(t, seen + {id}, u, v) <==> IndexedBy(t, seen, u, v) || JoinedByIndexed(t, id, u, v)
  {
    if LinkEnds(t, t.links[id], u, v) {
      assert id in seen + {id};
    }
  }

  ghost predicate JoinedByIndexed(t: Topology, id: Id, u: Id, v: Id) {
    Indexed(t, id) && (EndsOf(t, id) == (u, v) || EndsOf(t, id) == (v, u))
  }

  lemma IndexLink(t: Topology, adj: Adj, seen: set<Id>, id: Id)
    requires Indexing(t, adj, seen) && id in t.links
    ensures if Indexed(t, id)
      then Indexing(t, AddBoth(adj, EndsOf(t, id).0, EndsOf(t, id).1), seen + {id})
      else Indexing(t, adj, seen + {id})
  {
    hide IndexedBy, Indexed, EndsOf, AddBoth, Nbrs, Closed, Symmetric;
    forall u, v { IndexedByMore(t, seen, id, u, v); }
    if Indexed(t, id) {
      var a, b := EndsOf(t, id).0, EndsOf(t, id).1;
      AddBothAdds(adj, a, b);
      var adj' := AddBoth(adj, a, b);
      forall d | d in adj' ensures Nbrs(adj', d) != {} {
        if d == a { assert b in Nbrs(adj', d); }
        else if d == b { assert a in Nbrs(adj', d); }
        else { var y :| y in Nbrs(adj, d); assert y in Nbrs(adj', d); }
      }
    }
  }

  lemma IndexDevices(t: Topology, adj: Adj)
    requires Indexing(t, adj, t.links.Keys)
    ensures var all := (map d | d in t.devices :: {}) + adj;
      Indexes(t, all) && Closed(all) && Symmetric(all)
  {
    hide IndexedBy, IndexEdge, Nbrs, IndexKey, Closed, Symmetric;
    forall u, v { IndexedByAll(t, u, v); }
    PaddedAdjacency(t, adj);
    forall d { IndexKeys(t, adj, d); }
  }

  lemma IndexedByAll(t: Topology, u: Id, v: Id)
    ensures IndexedBy(t, t.links.Keys, u, v) <==> IndexEdge(t, u, v)
  {
  }

  lemma PaddedAdjacency(t: Topology, adj: Adj)
    ensures var all := (map d | d in t.devices :: {}) + adj;
      && (forall u :: Nbrs(all, u) == Nbrs(adj, u))
      && (Closed(adj) ==> Closed(all)) && (Symmetric(adj) ==> Symmetric(all))
  {
  }

  lemma IndexKeys(t: Topology, adj: Adj, d: Id)
    requires forall u, v :: v in Nbrs(adj, u) <==> IndexEdge(t, u, v)
    requires forall d :: d in adj ==> Nbrs(adj, d) != {}
    ensures IndexKey(t, d) <==> d in t.devices || d in adj
  {
    hide IndexEdge;
    if d in adj {
      var y :| y in Nbrs(adj, d);
      assert IndexEdge(t, d, y);
    }
    if v :| IndexEdge(t, d, v) {
      assert v in Nbrs(adj, d);
    }
  }

  class GraphIndex {
    var linkEndpoints: map<Id, (Id, Id)>
    var deviceNeighbors: Adj
    var regionOf: map<Id, string>

    constructor ()
      ensures linkEndpoints == map[] && deviceNeighbors == map[] && regionOf == map[]
    {
      linkEndpoints, deviceNeighbors, regionOf := map[], map[], map[];
    }

    /** The fields describe the snapshot `t`. */
    ghost predicate Valid(t: Topology)
      reads this
    {
      && Indexes(t, deviceNeighbors)
      && (forall id :: id in linkEndpoints <==> Indexed(t, id))
      && (forall id :: id in linkEndpoints ==> linkEndpoints[id] == EndsOf(t, id))
      && Labelled(deviceNeighbors, deviceNeighbors.Keys, regionOf)
    }

    method Build(t: Topology)
      modifies this
      ensures Valid(t)
      ensures RegionsDescribe(deviceNeighbors, regionOf)
    {
      linkEndpoints, deviceNeighbors, regionOf := map[], map[], map[];
      var seen, rest := {}, t.links.Keys;
      assert Indexing(t, deviceNeighbors, seen) && EndsIndexed(t, linkEndpoints, seen);
      hide *;
      while rest != {}
        invariant seen + rest == t.links.Keys
        invariant Indexing(t, deviceNeighbors, seen) && EndsIndexed(t, linkEndpoints, seen)
        decreases rest
      {
        var id :| id in rest;
        IndexLink(t, deviceNeighbors, seen, id);
        IndexEnds(t, linkEndpoints, seen, id);
        if Indexed(t, id) {
          var ends := EndsOf(t, id);
          deviceNeighbors, linkEndpoints := AddBoth(deviceNeighbors, ends.0, ends.1), linkEndpoints[id := ends];
        }
        seen, rest := seen + {id}, rest - {id};
      }
      IndexDevices(t, deviceNeighbors);
      deviceNeighbors := (map d | d in t.devices :: {}) + deviceNeighbors;
      ComputeRegions();
      ValidFrom(t);
    }

    lemma ValidFrom(t: Topology)
      requires Indexes(t, deviceNeighbors) && Labelled(deviceNeighbors, deviceNeighbors.Keys, regionOf)
      requires EndsIndexed(t, linkEndpoints, t.links.Keys)
      ensures Valid(t)
      ensures RegionsDescribe(deviceNeighbors, regionOf)
    {
      hide Labelled, Reachable, Closed, Symmetric, IsRegionTag, IndexKey, IndexEdge, Nbrs;
      LabelKeys(deviceNeighbors, deviceNeighbors.Keys, regionOf);
      RegionsAreComponents(deviceNeighbors, regionOf);
    }

    method ComputeRegions()
      requires Closed(deviceNeighbors) && Symmetric(deviceNeighbors)
      modifies this`regionOf
      ensures Labelled(deviceNeighbors, deviceNeighbors.Keys, regionOf)
      ensures RegionsDescribe(deviceNeighbors, regionOf)
    {
      var adj := deviceNeighbors;
      var devs := SortedOf(adj.Keys);
      var tags := LabelRegions(adj, devs);
      regionOf := tags;
      RegionsAreComponents(adj, tags);
    }

    /** `region_id_of_device`. */
    function RegionIdOf(d: Id): string
      reads this
    {
      if d in regionOf then regionOf[d] else RegionId(d, 1)
    }

    /** A dirty set is tagged with the region of its least device. */
    ghost predicate HasRegionOfLeast(dirty: DirtySet)
      reads this
    {
      exists d :: d in dirty.devices && (forall x :: x in dirty.devices ==> IdLe(d, x)) &&
        dirty.regionId == if d in regionOf then regionOf[d] else RegionId(d, 1)
    }

    method DirtySetForChange(ghost t: Topology, ch: Change) returns (dirty: DirtySet)
      requires Valid(t)
      ensures forall d :: d in dirty.devices <==> Dirty(t, ch, d)
      ensures dirty.links == ch.linksAdded + ch.linksUpdated + ch.linksDeleted
      ensures if dirty.devices == {} then dirty.regionId == "r:unknown:0" else HasRegionOfLeast(dirty)
    {
      hide Labelled, RegionId;
      var overridden := set i | i in ch.overridesChanged && i in deviceNeighbors;
      var direct := ch.devicesAdded + ch.devicesUpdated + ch.devicesMoved + overridden;
      assert forall x :: x in direct <==> Touched(t, ch, x);
      var devices := ClosedNeighbourhood(direct, {});
      var links := ChangedLinks(ch);
      var ends := (set id | id in links && id in linkEndpoints :: linkEndpoints[id].0)
                + (set id | id in links && id in linkEndpoints :: linkEndpoints[id].1);
      assert forall x :: x in ends <==> EndOfChanged(t, ch, x);
      devices := ClosedNeighbourhood(ends, devices);
      var regionId := "r:unknown:0";
      if devices != {} {
        var first := LeastOf(devices);
        regionId := RegionIdOf(first);
      }
      dirty := DirtySet(devices, links, regionId);
      hide Touched, EndOfChanged, Indexes;
      forall d ensures d in devices <==> Dirty(t, ch, d) {
        NeighboursAreIndexed(t);
      }
    }

    /** Adds every device of `base` together with its neighbours. */
    method ClosedNeighbourhood(base: set<Id>, devices0: set<Id>) returns (devices: set<Id>)
      ensures forall d :: d in devices <==>
        d in devices0 || exists x :: x in base && (d == x || d in Nbrs(deviceNeighbors, x))
    {
      devices := devices0;
      var seen, rest := {}, base;
      while rest != {}
        invariant seen + rest == base
        invariant forall d :: d in devices <==>
          d in devices0 || exists x :: x in seen && (d == x || d in Nbrs(deviceNeighbors, x))
        decreases rest
      {
        var did :| did in rest;
        devices := devices + {did} + Nbrs(deviceNeighbors, did);
        seen, rest := seen + {did}, rest - {did};
      }
    }

    lemma NeighboursAreIndexed(t: Topology)
      requires Valid(t)
      ensures forall u, v :: v in Nbrs(deviceNeighbors, u) <==> IndexEdge(t, u, v)
    {
    }
  }

  lemma IndexEnds(t: Topology, ends: map<Id, (Id, Id)>, seen: set<Id>, id: Id)
    requires EndsIndexed(t, ends, seen)
    ensures if Indexed(t, id) then EndsIndexed(t, ends[id := EndsOf(t, id)], seen + {id})
            else EndsIndexed(t, ends, seen + {id})
  {
  }

  lemma RegionHasRoot(adj: Adj, root: Id, comp: seq<Id>)
    requires IsRegion(adj, root, comp)
    ensures root in comp
  {
    assert comp[0] in comp;
  }

  lemma LabelKeys(adj: Adj, visited: set<Id>, tags: map<Id, string>)
    requires Labelled(adj, visited, tags)
    ensures tags.Keys == visited
  {
  }

  // ---- What a dirty set cannot see ----

  /** Ids in `overridesChanged` that are not indexed devices, such as link ids, never change the dirty set. */
  lemma OtherOverridesAreIgnored(t: Topology, ch: Change, ids: set<Id>, d: Id)
    requires forall x :: x in ids ==> !IndexKey(t, x)
    ensures var ch' := ch.(overridesChanged := ch.overridesChanged + ids);
      ChangedLinks(ch') == ChangedLinks(ch) && (Dirty(t, ch', d) <==> Dirty(t, ch, d))
  {
    hide IndexKey, IndexEdge, Indexed, EndsOf;
    var ch' := ch.(overridesChanged := ch.overridesChanged + ids);
    forall x ensures Touched(t, ch', x) <==> Touched(t, ch, x) {
    }
    forall x ensures EndOfChanged(t, ch', x) <==> EndOfChanged(t, ch, x) {
    }
    hide Touched, EndOfChanged;
  }

  /** The dirty set does not depend on which containers the devices are in. */
  lemma ContainersAreInvisible(t: Topology, t': Topology, ch: Change, d: Id)
    requires t'.links == t.links && t'.ifaces == t.ifaces && t'.devices.Keys == t.devices.Keys
    ensures Dirty(t, ch, d) <==> Dirty(t', ch, d)
  {
    forall id, u, v ensures id in t.links ==> (LinkEnds(t, t.links[id], u, v) <==> LinkEnds(t', t'.links[id], u, v)) {
    }
    hide LinkEnds;
    forall x, y ensures IndexEdge(t, x, y) <==> IndexEdge(t', x, y) {
    }
    forall x ensures Touched(t, ch, x) <==> Touched(t', ch, x) {
    }
    forall x ensures EndOfChanged(t, ch, x) <==> EndOfChanged(t', ch, x) {
    }
    hide Touched, EndOfChanged, IndexEdge;
  }
}
