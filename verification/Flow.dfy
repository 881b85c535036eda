/**
 Traffic aggregation (steps 1 and 2 of `process_tick` in backend/services/metrics_service.py):
 each leaf's load is added along its path to the nearest anchor.
 */
module Flow {
  import opened Types
  import opened Order
  import opened Graphs
  import opened LogicalGraph
  import opened Routes
  import opened Sums

  type Loads = map<Id, real>

  /** The chosen path of every routed leaf. */
  type Paths = map<Id, Path>

  datatype Sample = Sample(device: Id, bps: real)

  function SampledLoad(samples: seq<Sample>, d: Id): real {
    if samples == [] then 0.0
    else
      var last := samples[|samples| - 1];
      SampledLoad(samples[..|samples| - 1], d) + if last.device == d then last.bps else 0.0
  }

  method Aggregate(samples: seq<Sample>) returns (base: Loads)
    ensures forall d :: d in base <==> exists i :: 0 <= i < |samples| && samples[i].device == d
    ensures forall d :: At(base, d) == SampledLoad(samples, d)
  {
    base := map[];
    for n := 0 to |samples|
      invariant forall d :: d in base <==> exists i :: 0 <= i < n && samples[i].device == d
      invariant forall d :: At(base, d) == SampledLoad(samples[..n], d)
    {
      var s := samples[n];
      assert samples[..n + 1][..n] == samples[..n] && samples[..n + 1][n] == s;
      base := base[s.device := At(base, s.device) + s.bps];
    }
    assert samples[..|samples|] == samples;
  }

  predicate IsAnchorType(t: DeviceType) {
    t == BACKBONE_GATEWAY || t == CORE_ROUTER
  }

  function AnchorSet(g: Graph): set<Id> {
    set n | n in g.nodes && IsAnchorType(g.nodes[n])
  }

  /** The anchors in the order in which they are tried. */
  ghost predicate ListsAnchors(g: Graph, anchors: seq<Id>) {
    forall a :: a in anchors <==> a in g.nodes && g.nodes[a] in {BACKBONE_GATEWAY, CORE_ROUTER}
  }

  lemma AnchorsOnNodes(g: Graph, a: Id)
    ensures a in AnchorSet(g) <==> a in g.nodes && g.nodes[a] in {BACKBONE_GATEWAY, CORE_ROUTER}
  {
  }

  // ---- What each leaf contributes ----

  ghost predicate HasRoute(g: Graph, anchors: seq<Id>, leaf: Id) {
    leaf in g.nodes && leaf !in anchors && ReachesOne(AdjOf(g), leaf, anchors)
  }

  ghost predicate IsRoute(g: Graph, anchors: seq<Id>, leaf: Id, p: Path) {
    IsNearestPath(AdjOf(g), leaf, anchors, p) && |p| >= 2 && NoDuplicates(p) && IsWalk(AdjOf(g), p)
  }

  ghost predicate AreRoutes(g: Graph, anchors: seq<Id>, paths: Paths) {
    forall x :: x in paths ==> IsRoute(g, anchors, x, paths[x])
  }

  /** Leaves whose path passes through `n` after its start. */
  function Passing(paths: Paths, n: Id): set<Id> {
    set x | x in paths && PassesBy(paths[x], n)
  }

  predicate PassesBy(p: Path, n: Id) {
    |p| > 0 && n in p[1..]
  }

  predicate HopOn(g: Graph, p: Path, i: nat, id: Id) {
    i + 1 < |p| && HasEdge(g, p[i], p[i + 1]) && AttrOf(g, p[i], p[i + 1]) == EdgeAttr(id, false)
  }

  predicate Crosses(g: Graph, p: Path, id: Id) {
    exists i | 0 <= i < |p| :: HopOn(g, p, i, id)
  }

  /** Leaves whose path crosses the link `id`. */
  function Crossing(g: Graph, paths: Paths, id: Id): set<Id> {
    set x | x in paths && Crosses(g, paths[x], id)
  }

  /** Every device carries its own load and that of the paths through it; every link that of the paths across it. */
  ghost predicate Carries(g: Graph, base: Loads, paths: Paths, totals: Loads, linkTotals: Loads) {
    && (forall n :: At(totals, n) == At(base, n) + Sum(base, Passing(paths, n)))
    && (forall id :: At(linkTotals, id) == Sum(base, Crossing(g, paths, id)))
    && (forall id :: id in linkTotals <==> Crossing(g, paths, id) != {})
  }

  /** A link id labels one edge. */
  ghost predicate IdsDistinct(g: Graph) {
    forall u, v, x, y :: HasEdge(g, u, v) && HasEdge(g, x, y) && SameLink(AttrOf(g, u, v), AttrOf(g, x, y)) ==>
      (x == u && y == v) || (x == v && y == u)
  }

  predicate SameLink(a: EdgeAttr, b: EdgeAttr) {
    a == b && !a.synthetic
  }

  /** Link rows have distinct primary keys, so the edges of the graph have distinct ids. */
  lemma RowsGiveDistinctIds(devices: Devices, links: seq<LinkRecord>, relaxed: bool, g: Graph)
    requires forall i, j :: 0 <= i < j < |links| ==> links[i].id != links[j].id
    requires IsLogicalGraph(devices, links, relaxed, g)
    ensures IdsDistinct(g)
  {
    hide HasEdge, ProjectionLabel, ProjectionEdge, WellFormed, LogicalNodes;
    forall u, v, x, y | HasEdge(g, u, v) && HasEdge(g, x, y) && SameLink(AttrOf(g, u, v), AttrOf(g, x, y))
      ensures (x == u && y == v) || (x == v && y == u)
    {
      var k := LabellingRow(devices, links, u, v, AttrOf(g, u, v));
      var l := LabellingRow(devices, links, x, y, AttrOf(g, x, y));
      assert k == l;
    }
  }

  lemma LabellingRow(devices: Devices, links: seq<LinkRecord>, u: Id, v: Id, attr: EdgeAttr) returns (l: LinkRecord)
    requires ProjectionLabel(devices, links, u, v, attr) && !attr.synthetic
    ensures l in links && Joins(l, u, v) && l.id == attr.id
  {
    var nodes := LogicalNodes(devices);
    hide Contracts, RelaxedEdge, IsLabel, LogicalNodes;
    LabelIsLink(LOGICAL_KINDS, nodes, links, u, v, attr);
    l :| l in links && IsEdgeLink(LOGICAL_KINDS, nodes, l, u, v) && l.id == attr.id;
  }

  lemma HopsUnique(g: Graph, p: Path, i: nat, j: nat, id: Id)
    requires IdsDistinct(g) && NoDuplicates(p) && HopOn(g, p, i, id) && HopOn(g, p, j, id)
    ensures i == j
  {
    hide HasEdge, AttrOf;
    assert SameLink(AttrOf(g, p[i], p[i + 1]), AttrOf(g, p[j], p[j + 1]));
  }

  // ---- Adding one leaf ----

  method BumpDevices(totals0: Loads, p: Path, bps: real) returns (totals: Loads)
    requires NoDuplicates(p) && |p| > 0
    ensures forall n :: At(totals, n) == At(totals0, n) + if PassesBy(p, n) then bps else 0.0
  {
    totals := totals0;
    for i := 1 to |p|
      invariant forall n :: At(totals, n) == At(totals0, n) + if n in p[1..i] then bps else 0.0
    {
      assert p[1..i + 1] == p[1..i] + [p[i]];
      totals := totals[p[i] := At(totals, p[i]) + bps];
    }
  }

  /** The link ids among the first `n` hops. */
  ghost predicate CrossedBy(g: Graph, p: Path, n: nat, id: Id) {
    exists i :: 0 <= i < n && HopOn(g, p, i, id)
  }

  lemma CrossedNext(g: Graph, p: Path, n: nat)
    requires IdsDistinct(g) && NoDuplicates(p)
    ensures forall id :: CrossedBy(g, p, n + 1, id) <==> CrossedBy(g, p, n, id) || HopOn(g, p, n, id)
    ensures forall id :: HopOn(g, p, n, id) ==> !CrossedBy(g, p, n, id)
  {
    hide HopOn;
    forall id | HopOn(g, p, n, id) ensures !CrossedBy(g, p, n, id) {
      if i :| 0 <= i < n && HopOn(g, p, i, id) {
        HopsUnique(g, p, i, n, id);
      }
    }
  }

  lemma HopEdge(g: Graph, p: Path, i: nat)
    requires IsWalk(AdjOf(g), p) && i + 1 < |p|
    ensures HasEdge(g, p[i], p[i + 1])
    ensures forall id :: HopOn(g, p, i, id) <==> AttrOf(g, p[i], p[i + 1]) == EdgeAttr(id, false)
  {
    assert p[i + 1] in Nbrs(AdjOf(g), p[i]);
  }

  method BumpLinks(g: Graph, linkTotals0: Loads, p: Path, bps: real) returns (linkTotals: Loads)
    requires IdsDistinct(g) && NoDuplicates(p) && |p| > 0 && IsWalk(AdjOf(g), p)
    ensures forall id :: At(linkTotals, id) == At(linkTotals0, id) + if Crosses(g, p, id) then bps else 0.0
    ensures forall id :: id in linkTotals <==> id in linkTotals0 || Crosses(g, p, id)
  {
    hide IdsDistinct, HopOn, IsWalk, CrossedBy, Crosses, AdjOf, HasEdge, AttrOf;
    linkTotals := linkTotals0;
    NoneCrossed(g, p);
    for i := 0 to |p| - 1
      invariant forall id :: At(linkTotals, id) == At(linkTotals0, id) + if CrossedBy(g, p, i, id) then bps else 0.0
      invariant forall id :: id in linkTotals <==> id in linkTotals0 || CrossedBy(g, p, i, id)
    {
      HopEdge(g, p, i);
      CrossedNext(g, p, i);
      var attr := AttrOf(g, p[i], p[i + 1]);
      if !attr.synthetic {
        assert HopOn(g, p, i, attr.id);
        linkTotals := linkTotals[attr.id := At(linkTotals, attr.id) + bps];
      }
    }
    AllCrossed(g, p);
  }

  lemma NoneCrossed(g: Graph, p: Path)
    ensures forall id :: !CrossedBy(g, p, 0, id)
  {
  }

  lemma AllCrossed(g: Graph, p: Path)
    requires |p| > 0
    ensures forall id :: Crosses(g, p, id) <==> CrossedBy(g, p, |p| - 1, id)
  {
  }

  lemma SumGains(base: Loads, s: set<Id>, x: Id)
    requires x !in s
    ensures Sum(base, s + {x}) == Sum(base, s) + At(base, x)
  {
    SumPick(base, s + {x}, x);
    assert s + {x} - {x} == s;
  }

  lemma DeviceGains(base: Loads, paths: Paths, leaf: Id, p: Path, n: Id)
    requires leaf !in paths
    ensures Sum(base, Passing(paths[leaf := p], n)) == Sum(base, Passing(paths, n)) + if PassesBy(p, n)
      then At(base, leaf) else 0.0
  {
    hide PassesBy;
    if PassesBy(p, n) {
      assert Passing(paths[leaf := p], n) == Passing(paths, n) + {leaf};
      SumGains(base, Passing(paths, n), leaf);
    } else {
      assert Passing(paths[leaf := p], n) == Passing(paths, n);
    }
  }

  lemma LinkGains(g: Graph, base: Loads, paths: Paths, leaf: Id, p: Path, id: Id)
    requires leaf !in paths
    ensures Sum(base, Crossing(g, paths[leaf := p], id)) == Sum(base, Crossing(g, paths, id)) + if Crosses(g, p, id)
      then At(base, leaf) else 0.0
    ensures Crossing(g, paths[leaf := p], id) != {} <==> Crossing(g, paths, id) != {} || Crosses(g, p, id)
  {
    hide Crosses;
    if Crosses(g, p, id) {
      assert Crossing(g, paths[leaf := p], id) == Crossing(g, paths, id) + {leaf};
      SumGains(base, Crossing(g, paths, id), leaf);
    } else {
      assert Crossing(g, paths[leaf := p], id) == Crossing(g, paths, id);
    }
  }

  lemma LeafCarried(g: Graph, base: Loads, paths: Paths, totals: Loads, linkTotals: Loads, leaf: Id, p: Path,
                    totals': Loads, linkTotals': Loads)
    requires Carries(g, base, paths, totals, linkTotals) && leaf !in paths
    requires forall n :: At(totals', n) == At(totals, n) + if PassesBy(p, n) then At(base, leaf) else 0.0
    requires forall id :: At(linkTotals', id) == At(linkTotals, id) + if Crosses(g, p, id) then At(base, leaf) else 0.0
    requires forall id :: id in linkTotals' <==> id in linkTotals || Crosses(g, p, id)
    ensures Carries(g, base, paths[leaf := p], totals', linkTotals')
  {
    hide Passing, Crossing, Sum, PassesBy, Crosses, At;
    forall n { DeviceGains(base, paths, leaf, p, n); }
    forall id { LinkGains(g, base, paths, leaf, p, id); }
  }

  lemma NothingCarried(g: Graph, base: Loads)
    ensures Carries(g, base, map[], base, map[])
  {
    assert forall n :: Passing(map[], n) == {};
    assert forall id :: Crossing(g, map[], id) == {};
  }

  /** The path of one leaf, unless it is an anchor itself or reaches none. */
  method RouteLeaf(g: Graph, anchors: seq<Id>, leaf: Id) returns (r: Option<Path>)
    ensures r.Some? <==> HasRoute(g, anchors, leaf)
    ensures r.Some? ==> IsRoute(g, anchors, leaf, r.value)
  {
    if leaf !in g.nodes {
      return None;
    }
    GraphClosed(g);
    r := NearestPath(AdjOf(g), leaf, anchors);
    hide AdjOf;
    if r.Some? {
      NearestPathShape(AdjOf(g), leaf, anchors, r.value);
      if |r.value| < 2 {
        r := None;
      }
    }
  }

  /** Every leaf that has a route is routed, and its load is carried along exactly that route. */
  method PushUpstream(g: Graph, base: Loads, anchors: seq<Id>) returns (totals: Loads, linkTotals: Loads, paths: Paths)
    requires IdsDistinct(g)
    ensures AreRoutes(g, anchors, paths) && Carries(g, base, paths, totals, linkTotals)
    ensures forall x :: x in paths <==> x in base && HasRoute(g, anchors, x)
  {
    hide *;
    totals, linkTotals, paths := base, map[], map[];
    NothingCarried(g, base);
    NoRoutes(g, anchors);
    var rest := base.Keys;
    while rest != {}
      invariant rest <= base.Keys
      invariant AreRoutes(g, anchors, paths) && Carries(g, base, paths, totals, linkTotals)
      invariant forall x :: x in paths <==> x in base && x !in rest && HasRoute(g, anchors, x)
      decreases rest
    {
      var leaf :| leaf in rest;
      rest := rest - {leaf};
      var r := RouteLeaf(g, anchors, leaf);
      if r.Some? {
        RouteShape(g, anchors, leaf, r.value);
        var totals' := BumpDevices(totals, r.value, base[leaf]);
        var linkTotals' := BumpLinks(g, linkTotals, r.value, base[leaf]);
        LoadAt(base, leaf);
        LeafCarried(g, base, paths, totals, linkTotals, leaf, r.value, totals', linkTotals');
        OneMoreRoute(g, anchors, paths, leaf, r.value);
        totals, linkTotals, paths := totals', linkTotals', paths[leaf := r.value];
      }
    }
  }

  lemma LoadAt(base: Loads, leaf: Id)
    requires leaf in base
    ensures At(base, leaf) == base[leaf]
  {
  }

  lemma NoRoutes(g: Graph, anchors: seq<Id>)
    ensures AreRoutes(g, anchors, map[])
  {
  }

  lemma OneMoreRoute(g: Graph, anchors: seq<Id>, paths: Paths, leaf: Id, p: Path)
    requires AreRoutes(g, anchors, paths) && IsRoute(g, anchors, leaf, p)
    ensures AreRoutes(g, anchors, paths[leaf := p])
  {
    hide IsRoute;
  }

  lemma RouteShape(g: Graph, anchors: seq<Id>, leaf: Id, p: Path)
    requires IsRoute(g, anchors, leaf, p)
    ensures NoDuplicates(p) && |p| > 0 && IsWalk(AdjOf(g), p)
  {
  }

  // ---- Conservation ----

  function EndOf(paths: Paths): map<Id, Id> {
    map x | x in paths && |paths[x]| > 0 :: paths[x][|paths[x]| - 1]
  }

  /** What the tick adds at each anchor. */
  function Added(base: Loads, totals: Loads, anchors: set<Id>): Loads {
    map a | a in anchors :: At(totals, a) - At(base, a)
  }

  /** A route passes no anchor but the one it ends at. */
  lemma RoutePassesOneAnchor(g: Graph, anchors: seq<Id>, leaf: Id, p: Path, a: Id)
    requires IsRoute(g, anchors, leaf, p) && a in anchors
    ensures PassesBy(p, a) <==> p[|p| - 1] == a
  {
    NearestPathShape(AdjOf(g), leaf, anchors, p);
    var n := |p| - 1;
    assert p[1..][n - 1] == p[n];
    if PassesBy(p, a) {
      var i :| 0 <= i < |p[1..]| && p[1..][i] == a;
      assert p[i + 1] == a;
    }
  }

  lemma PassingIsEnding(g: Graph, anchors: seq<Id>, paths: Paths, a: Id)
    requires AreRoutes(g, anchors, paths) && a in anchors
    ensures Passing(paths, a) == Class(EndOf(paths), a)
  {
    forall x | x in paths ensures |paths[x]| > 0 && (PassesBy(paths[x], a) <==> EndOf(paths)[x] == a) {
      assert IsRoute(g, anchors, x, paths[x]);
      RoutePassesOneAnchor(g, anchors, x, paths[x], a);
    }
    hide PassesBy;
  }

  /** Flow conservation: the traffic added at all anchors is the load of all routed leaves. */
  lemma AnchorsCollectAll(g: Graph, anchors: seq<Id>, base: Loads, paths: Paths, totals: Loads, linkTotals: Loads)
    requires ListsAnchors(g, anchors) && AreRoutes(g, anchors, paths) && Carries(g, base, paths, totals, linkTotals)
    ensures Sum(Added(base, totals, AnchorSet(g)), AnchorSet(g)) == Sum(base, paths.Keys)
  {
    var got, place := Added(base, totals, AnchorSet(g)), EndOf(paths);
    forall a { AnchorsOnNodes(g, a); }
    forall a | a in AnchorSet(g) ensures At(got, a) == Sum(base, Class(place, a)) {
      PassingIsEnding(g, anchors, paths, a);
    }
    SumByClass(base, place, got, AnchorSet(g));
    assert Placed(place, AnchorSet(g)) == paths.Keys by {
      forall x | x in paths ensures x in place && place[x] in AnchorSet(g) {
        assert IsRoute(g, anchors, x, paths[x]);
      }
    }
  }
}
