/**
 The logical upstream graph: routed links plus one synthetic edge per ONT, obtained by
 contracting its first optical path to an OLT (backend/services/pathfinding.py).
 */
module LogicalGraph {
  import opened Types
  import opened Order
  import opened Graphs
  import opened Dijkstra

  datatype LinkRecord = LinkRecord(id: string, a: Id, b: Id, kind: LinkKind)

  /** Device records, keyed by primary key. */
  type Devices = map<Id, DeviceType>

  datatype EdgeAttr = EdgeAttr(id: string, synthetic: bool)

  /** An undirected graph: `edges` holds both orientations of every edge. */
  datatype Graph = Graph(nodes: map<Id, DeviceType>, edges: map<(Id, Id), EdgeAttr>)

  predicate IsLogicalActive(t: DeviceType) {
    t in {BACKBONE_GATEWAY, CORE_ROUTER, EDGE_ROUTER, DeviceType.OLT, AON_SWITCH, AON_CPE, ONT, BUSINESS_ONT}
  }

  predicate IsOptical(t: DeviceType) {
    t == DeviceType.OLT || IsOntType(t) || IsPassiveType(t)
  }

  const LOGICAL_KINDS := {RoutedP2p, AccessEdge, AccessOpticalTerm, LinkKind.FIBER, LinkKind.P2P}

  predicate Joins(l: LinkRecord, u: Id, v: Id) {
    (l.a == u && l.b == v) || (l.a == v && l.b == u)
  }

  predicate HasEdge(g: Graph, u: Id, v: Id) {
    (u, v) in g.edges
  }

  function WithEdge(g: Graph, u: Id, v: Id, attr: EdgeAttr): Graph {
    g.(edges := g.edges[(u, v) := attr][(v, u) := attr])
  }

  function AttrOf(g: Graph, u: Id, v: Id): EdgeAttr
    requires HasEdge(g, u, v)
  {
    g.edges[(u, v)]
  }

  ghost predicate WellFormed(g: Graph) {
    forall u, v :: (u, v) in g.edges ==>
      u in g.nodes && v in g.nodes && (v, u) in g.edges && g.edges[(v, u)] == g.edges[(u, v)]
  }

  lemma EdgeAdded(g: Graph, u: Id, v: Id, attr: EdgeAttr)
    requires WellFormed(g) && u in g.nodes && v in g.nodes
    ensures var g' := WithEdge(g, u, v, attr);
      && WellFormed(g') && g'.nodes == g.nodes
      && (forall x, y :: HasEdge(g', x, y) <==> HasEdge(g, x, y) || (x == u && y == v) || (x == v && y == u))
      && (forall x, y :: HasEdge(g', x, y) ==>
            AttrOf(g', x, y) == if (x == u && y == v) || (x == v && y == u) then attr else AttrOf(g, x, y))
  {
  }

  // ---- Optical adjacency and the first optical path ----

  ghost predicate Joined(links: seq<LinkRecord>, u: Id, v: Id) {
    exists l :: l in links && Joins(l, u, v)
  }

  /** Connectivity over actual link records between the given devices, whatever their kind. */
  ghost function LinkAdj(nodes: set<Id>, links: seq<LinkRecord>): Adj {
    map u | u in nodes :: set v | v in nodes && Joined(links, u, v)
  }

  method BuildOpticalAdjacency(optical: map<Id, DeviceType>, links: seq<LinkRecord>) returns (adj: Adj)
    ensures adj == LinkAdj(optical.Keys, links)
  {
    adj := map u | u in optical :: {};
    assert forall u :: u in optical ==> LinkAdj(optical.Keys, [])[u] == {};
    for i := 0 to |links|
      invariant adj == LinkAdj(optical.Keys, links[..i])
    {
      var l := links[i];
      assert links[..i + 1] == links[..i] + [l];
      LinkAdjLast(optical.Keys, links[..i], l);
      if l.a in optical && l.b in optical {
        adj := adj[l.a := adj[l.a] + {l.b}];
        adj := adj[l.b := adj[l.b] + {l.a}];
      }
    }
    assert links[..|links|] == links;
  }

  lemma LinkAdjLast(nodes: set<Id>, links: seq<LinkRecord>, l: LinkRecord)
    ensures var adj := LinkAdj(nodes, links);
      LinkAdj(nodes, links + [l]) ==
      if l.a in nodes && l.b in nodes then
        var adj' := adj[l.a := adj[l.a] + {l.b}];
        adj'[l.b := adj'[l.b] + {l.a}]
      else adj
  {
    forall u, v ensures Joined(links + [l], u, v) <==> Joined(links, u, v) || Joins(l, u, v) {
      JoinedLast(links, l, u, v);
    }
    hide Joined;
    var adj, next := LinkAdj(nodes, links), LinkAdj(nodes, links + [l]);
    if l.a in nodes && l.b in nodes {
      var adj' := adj[l.a := adj[l.a] + {l.b}];
      var adj'' := adj'[l.b := adj'[l.b] + {l.a}];
      forall u | u in nodes ensures next[u] == adj''[u] {
        assert forall v :: v in next[u] <==> v in adj''[u];
      }
      assert next == adj'';
    } else {
      forall u | u in nodes ensures next[u] == adj[u] {
        assert forall v :: v in next[u] <==> v in adj[u];
      }
    }
  }

  lemma JoinedLast(links: seq<LinkRecord>, l: LinkRecord, u: Id, v: Id)
    ensures Joined(links + [l], u, v) <==> Joined(links, u, v) || Joins(l, u, v)
  {
    if x :| x in links && Joins(x, u, v) {
      assert x in links + [l];
    }
    if Joins(l, u, v) {
      assert l in links + [l];
    }
  }

  function Unit(u: Id, v: Id): real { 1.0 }

  /** Fewer hops first, then the lexicographically smaller tuple of ids. */
  predicate HopNotAfter(p: Path, q: Path) {
    p == q || |p| < |q| || (|p| == |q| && LexLt(p, q))
  }

  /** `p` leads from `src` to another node of `dst` and precedes every other such walk. */
  ghost predicate IsFirstPath(adj: Adj, src: Id, dst: set<Id>, p: Path) {
    && IsWalk(adj, p) && p[0] == src && p[|p| - 1] in dst - {src}
    && forall q :: IsWalk(adj, q) && q[0] == src && q[|q| - 1] in dst - {src} ==> HopNotAfter(p, q)
  }

  ghost predicate ReachesAny(adj: Adj, src: Id, dst: set<Id>) {
    exists t :: t in dst - {src} && Reachable(adj, src, t)
  }

  lemma {:induction false} UnitCost(p: Path)
    ensures Cost(Unit, p) == if p == [] then 0.0 else (|p| - 1) as real
  {
    if |p| >= 2 {
      UnitCost(p[..|p| - 1]);
    }
  }

  lemma UnitOrder(p: Path, q: Path)
    requires p != [] && q != []
    ensures NotAfter(Unit, p, q) <==> HopNotAfter(p, q)
  {
    UnitCost(p);
    UnitCost(q);
  }

  lemma HopNotAfterTransitive(p: Path, q: Path, r: Path)
    requires HopNotAfter(p, q) && HopNotAfter(q, r)
    ensures HopNotAfter(p, r)
  {
    if LexLt(p, q) && LexLt(q, r) {
      LexLtTransitive(p, q, r);
    }
  }

  method ShortestOpticalPath(adj: Adj, src: Id, dst: set<Id>) returns (r: Option<Path>)
    requires Closed(adj)
    ensures src !in adj ==> r == None
    ensures src in adj ==> (r.Some? <==> ReachesAny(adj, src, dst))
    ensures r.Some? ==> IsFirstPath(adj, src, dst, r.value)
  {
    if src !in adj {
      return None;
    }
    var done := Search(adj, src, Unit);
    var targets := done.Keys * (dst - {src});
    r := None;
    var rest := targets;
    while rest != {}
      invariant rest <= targets
      invariant r.None? ==> rest == targets
      invariant r.Some? ==> exists t :: t in targets && r.value == done[t]
      invariant forall t :: t in targets - rest ==> r.Some? && HopNotAfter(r.value, done[t])
      decreases rest
    {
      var t :| t in rest;
      var cand := done[t];
      if r.None? {
        r := Some(cand);
      } else {
        LexLtTotal(cand, r.value);
        if !HopNotAfter(r.value, cand) {
          forall s | s in targets - rest ensures HopNotAfter(cand, done[s]) {
            HopNotAfterTransitive(cand, r.value, done[s]);
          }
          r := Some(cand);
        }
      }
      rest := rest - {t};
    }
    if r.Some? {
      forall q | IsWalk(adj, q) && q[0] == src && q[|q| - 1] in dst - {src} ensures HopNotAfter(r.value, q) {
        var t := q[|q| - 1];
        assert IsWalkFrom(adj, src, t, q);
        assert t in targets - rest;
        UnitOrder(done[t], q);
        HopNotAfterTransitive(r.value, done[t], q);
      }
    }
  }

  lemma FirstPathReaches(adj: Adj, src: Id, dst: set<Id>, p: Path)
    requires IsFirstPath(adj, src, dst, p)
    ensures ReachesAny(adj, src, dst)
  {
    assert IsWalkFrom(adj, src, p[|p| - 1], p);
  }

  /** The first path meets no target before its end and visits no node twice. */
  lemma FirstPathShape(adj: Adj, src: Id, dst: set<Id>, p: Path)
    requires IsFirstPath(adj, src, dst, p)
    ensures |p| >= 2
    ensures forall i :: 0 < i < |p| - 1 ==> p[i] !in dst
    ensures NoDuplicates(p)
  {
    forall i, j | 0 <= i < j < |p| ensures p[i] != p[j] {
      if p[i] == p[j] {
        var q := CutLoop(adj, p, i, j);
      }
    }
    forall i | 0 < i < |p| - 1 ensures p[i] !in dst {
      WalkPrefix(adj, p, i + 1);
      assert p[0] != p[i];
      assert |p[..i + 1]| < |p|;
    }
  }

  // ---- The logical graph ----

  function LogicalNodes(devices: Devices): map<Id, DeviceType> {
    map d | d in devices && IsLogicalActive(devices[d]) :: devices[d]
  }

  function OpticalNodes(devices: Devices): map<Id, DeviceType> {
    map d | d in devices && IsOptical(devices[d]) :: devices[d]
  }

  function OltsOf(nodes: map<Id, DeviceType>): set<Id> {
    set d | d in nodes && nodes[d] == DeviceType.OLT
  }

  ghost function OpticalAdj(devices: Devices, links: seq<LinkRecord>): Adj {
    LinkAdj(OpticalNodes(devices).Keys, links)
  }

  /** A record of one of the given kinds that joins two nodes. */
  predicate IsEdgeLink(kinds: set<LinkKind>, nodes: map<Id, DeviceType>, l: LinkRecord, u: Id, v: Id) {
    u in nodes && v in nodes && l.kind in kinds && Joins(l, u, v)
  }

  ghost predicate EdgeFromLink(kinds: set<LinkKind>, nodes: map<Id, DeviceType>, links: seq<LinkRecord>, u: Id, v: Id) {
    exists l :: l in links && IsEdgeLink(kinds, nodes, l, u, v)
  }

  ghost predicate IsLastLink(kinds: set<LinkKind>, nodes: map<Id, DeviceType>, links: seq<LinkRecord>, u: Id, v: Id,
                             k: nat) {
    && k < |links| && IsEdgeLink(kinds, nodes, links[k], u, v)
    && forall j :: k < j < |links| ==> !IsEdgeLink(kinds, nodes, links[j], u, v)
  }

  /** `add_edge` overwrites: an edge bears the id of the last record that joins its ends. */
  ghost predicate IsLabel(kinds: set<LinkKind>, nodes: map<Id, DeviceType>, links: seq<LinkRecord>, u: Id, v: Id,
                          attr: EdgeAttr) {
    exists k: nat :: IsLastLink(kinds, nodes, links, u, v, k) && attr == EdgeAttr(links[k].id, false)
  }

  lemma LabelIsUnique(kinds: set<LinkKind>, nodes: map<Id, DeviceType>, links: seq<LinkRecord>, u: Id, v: Id,
                      a: EdgeAttr, b: EdgeAttr)
    requires IsLabel(kinds, nodes, links, u, v, a) && IsLabel(kinds, nodes, links, u, v, b)
    ensures a == b
  {
    hide IsEdgeLink;
    var i: nat :| IsLastLink(kinds, nodes, links, u, v, i) && a == EdgeAttr(links[i].id, false);
    var j: nat :| IsLastLink(kinds, nodes, links, u, v, j) && b == EdgeAttr(links[j].id, false);
  }

  lemma LabelIsLink(kinds: set<LinkKind>, nodes: map<Id, DeviceType>, links: seq<LinkRecord>, u: Id, v: Id,
                    attr: EdgeAttr)
    requires IsLabel(kinds, nodes, links, u, v, attr)
    ensures exists l :: l in links && IsEdgeLink(kinds, nodes, l, u, v) && l.id == attr.id
  {
    var k: nat :| IsLastLink(kinds, nodes, links, u, v, k) && attr == EdgeAttr(links[k].id, false);
    assert links[k] in links;
  }

  /** The ONT `o` is contracted onto `t`, the end of its first optical path to an OLT. */
  ghost predicate Contracts(devices: Devices, links: seq<LinkRecord>, o: Id, t: Id) {
    && o in devices && IsOntType(devices[o])
    && exists p :: IsFirstPath(OpticalAdj(devices, links), o, OltsOf(devices), p) && p[|p| - 1] == t
  }

  lemma EdgeFromLast(kinds: set<LinkKind>, nodes: map<Id, DeviceType>, links: seq<LinkRecord>, l: LinkRecord, u: Id,
                     v: Id)
    ensures EdgeFromLink(kinds, nodes, links + [l], u, v) <==>
      EdgeFromLink(kinds, nodes, links, u, v) || IsEdgeLink(kinds, nodes, l, u, v)
    ensures IsEdgeLink(kinds, nodes, l, u, v) ==> IsLabel(kinds, nodes, links + [l], u, v, EdgeAttr(l.id, false))
    ensures !IsEdgeLink(kinds, nodes, l, u, v) ==>
      forall attr :: IsLabel(kinds, nodes, links, u, v, attr) ==> IsLabel(kinds, nodes, links + [l], u, v, attr)
  {
    hide IsEdgeLink;
    var links' := links + [l];
    assert forall x :: x in links' <==> x in links || x == l;
    if IsEdgeLink(kinds, nodes, l, u, v) {
      assert IsLastLink(kinds, nodes, links', u, v, |links|);
    } else {
      forall attr | IsLabel(kinds, nodes, links, u, v, attr) ensures IsLabel(kinds, nodes, links', u, v, attr) {
        var k: nat :| IsLastLink(kinds, nodes, links, u, v, k) && attr == EdgeAttr(links[k].id, false);
        assert IsLastLink(kinds, nodes, links', u, v, k);
      }
    }
  }

  /** The graph whose edges are the records of the given kinds, each labelled with the last one. */
  ghost predicate IsLinkGraph(kinds: set<LinkKind>, nodes: map<Id, DeviceType>, links: seq<LinkRecord>, g: Graph) {
    && g.nodes == nodes && WellFormed(g)
    && (forall u, v :: HasEdge(g, u, v) <==> EdgeFromLink(kinds, nodes, links, u, v))
    && (forall u, v :: HasEdge(g, u, v) ==> IsLabel(kinds, nodes, links, u, v, AttrOf(g, u, v)))
  }

  lemma LinkGraphNext(kinds: set<LinkKind>, nodes: map<Id, DeviceType>, links: seq<LinkRecord>, g: Graph, l: LinkRecord)
    requires IsLinkGraph(kinds, nodes, links, g)
    ensures var added := l.a in nodes && l.b in nodes && l.kind in kinds;
      IsLinkGraph(kinds, nodes, links + [l], if added then WithEdge(g, l.a, l.b, EdgeAttr(l.id, false)) else g)
  {
    hide WellFormed, WithEdge, HasEdge, AttrOf, EdgeFromLink, IsLabel;
    forall u, v { EdgeFromLast(kinds, nodes, links, l, u, v); }
    if l.a in nodes && l.b in nodes && l.kind in kinds {
      EdgeAdded(g, l.a, l.b, EdgeAttr(l.id, false));
    }
  }

  /** The loop over link records; a later link between the same devices overwrites the attributes. */
  method AddLinkEdges(kinds: set<LinkKind>, nodes: map<Id, DeviceType>, links: seq<LinkRecord>) returns (g: Graph)
    ensures IsLinkGraph(kinds, nodes, links, g)
  {
    g := Graph(nodes, map[]);
    assert IsLinkGraph(kinds, nodes, links[..0], g);
    hide IsLinkGraph;
    for i := 0 to |links|
      invariant IsLinkGraph(kinds, nodes, links[..i], g)
    {
      var l := links[i];
      assert links[..i + 1] == links[..i] + [l];
      LinkGraphNext(kinds, nodes, links[..i], g, l);
      if l.a in nodes && l.b in nodes && l.kind in kinds {
        g := WithEdge(g, l.a, l.b, EdgeAttr(l.id, false));
      }
    }
    assert links[..|links|] == links;
  }

  ghost predicate SameEdges(g: Graph, g': Graph) {
    && (forall u, v :: HasEdge(g, u, v) <==> HasEdge(g', u, v))
    && (forall u, v :: HasEdge(g, u, v) && HasEdge(g', u, v) ==> AttrOf(g, u, v) == AttrOf(g', u, v))
  }

  lemma SameEdgesSameGraph(g: Graph, g': Graph)
    requires g.nodes == g'.nodes && SameEdges(g, g')
    ensures g == g'
  {
    forall e ensures e in g.edges <==> e in g'.edges {
      assert HasEdge(g, e.0, e.1) <==> HasEdge(g', e.0, e.1);
    }
    forall e | e in g.edges ensures g.edges[e] == g'.edges[e] {
      assert HasEdge(g, e.0, e.1) && HasEdge(g', e.0, e.1);
      assert AttrOf(g, e.0, e.1) == AttrOf(g', e.0, e.1);
    }
    assert g.edges == g'.edges;
  }

  /** There is one such graph. */
  lemma LinkGraphUnique(kinds: set<LinkKind>, nodes: map<Id, DeviceType>, links: seq<LinkRecord>, g: Graph, g': Graph)
    requires IsLinkGraph(kinds, nodes, links, g) && IsLinkGraph(kinds, nodes, links, g')
    ensures g == g'
  {
    hide WellFormed, HasEdge, AttrOf, EdgeFromLink, IsLabel;
    forall u, v | HasEdge(g, u, v) && HasEdge(g', u, v) ensures AttrOf(g, u, v) == AttrOf(g', u, v) {
      LabelIsUnique(kinds, nodes, links, u, v, AttrOf(g, u, v), AttrOf(g', u, v));
    }
    SameEdgesSameGraph(g, g');
  }

  function CollapsedAttr(o: Id, t: Id): EdgeAttr {
    EdgeAttr("collapsed_optical:" + o + "->" + t, true)
  }

  function SyntheticAttr(n: Id, core: Id): EdgeAttr {
    EdgeAttr("synthetic:" + n + "->" + core, true)
  }

  ghost predicate CollapsedLabel(devices: Devices, links: seq<LinkRecord>, u: Id, v: Id, attr: EdgeAttr) {
    (Contracts(devices, links, u, v) && attr == CollapsedAttr(u, v)) ||
      (Contracts(devices, links, v, u) && attr == CollapsedAttr(v, u))
  }

  ghost predicate ContractedBy(devices: Devices, links: seq<LinkRecord>, seen: set<Id>, u: Id, v: Id) {
    (u in seen && Contracts(devices, links, u, v)) || (v in seen && Contracts(devices, links, v, u))
  }

  /** The graph after the ONTs in `seen` have been contracted. */
  ghost predicate Contracting(devices: Devices, links: seq<LinkRecord>, g0: Graph, g: Graph, seen: set<Id>) {
    && g.nodes == g0.nodes && WellFormed(g)
    && (forall u, v :: HasEdge(g, u, v) <==> HasEdge(g0, u, v) || ContractedBy(devices, links, seen, u, v))
    && (forall u, v :: HasEdge(g, u, v) ==>
          if HasEdge(g0, u, v) then AttrOf(g, u, v) == AttrOf(g0, u, v)
            else CollapsedLabel(devices, links, u, v, AttrOf(g, u, v)))
    && (forall o :: o in seen && ReachesAny(OpticalAdj(devices, links), o, OltsOf(devices)) ==>
          exists t :: Contracts(devices, links, o, t))
  }

  lemma ContractStart(devices: Devices, links: seq<LinkRecord>, g0: Graph)
    requires WellFormed(g0)
    ensures Contracting(devices, links, g0, g0, {})
  {
  }

  /** An ONT is contracted onto one OLT only, because the order of paths is total. */
  lemma ContractsToOne(devices: Devices, links: seq<LinkRecord>, o: Id, t: Id, t': Id)
    requires Contracts(devices, links, o, t) && Contracts(devices, links, o, t')
    ensures t == t'
  {
    hide OpticalAdj, OltsOf, Nbrs;
    var adj, olts := OpticalAdj(devices, links), OltsOf(devices);
    var p :| IsFirstPath(adj, o, olts, p) && p[|p| - 1] == t;
    var q :| IsFirstPath(adj, o, olts, q) && q[|q| - 1] == t';
    LexLtTotal(p, q);
  }

  lemma ContractOne(devices: Devices, links: seq<LinkRecord>, g0: Graph, g: Graph, seen: set<Id>, o: Id, t: Id)
    requires Contracting(devices, links, g0, g, seen)
    requires Contracts(devices, links, o, t) && o in g.nodes && t in g.nodes
    ensures WithEdge(g, o, t, CollapsedAttr(o, t)).nodes == g.nodes
    ensures HasEdge(g, o, t) ==> Contracting(devices, links, g0, g, seen + {o})
    ensures !HasEdge(g, o, t) ==> Contracting(devices, links, g0, WithEdge(g, o, t, CollapsedAttr(o, t)), seen + {o})
  {
    assert WithEdge(g, o, t, CollapsedAttr(o, t)).nodes == g.nodes;
    hide Contracts, CollapsedAttr, WellFormed, HasEdge, AttrOf, WithEdge, ReachesAny;
    forall t' | Contracts(devices, links, o, t') ensures t' == t {
      ContractsToOne(devices, links, o, t, t');
    }
    EdgeAdded(g, o, t, CollapsedAttr(o, t));
    forall u, v ensures ContractedBy(devices, links, seen + {o}, u, v) <==>
      ContractedBy(devices, links, seen, u, v) || (u == o && v == t) || (u == t && v == o)
    {
    }
    hide ContractedBy;
    if HasEdge(g, o, t) {
      EdgeIsMutual(g, o, t);
    }
  }

  lemma EdgeIsMutual(g: Graph, u: Id, v: Id)
    requires WellFormed(g) && HasEdge(g, u, v)
    ensures HasEdge(g, v, u)
  {
  }

  lemma ContractionReaches(devices: Devices, links: seq<LinkRecord>, o: Id, t: Id)
    requires Contracts(devices, links, o, t)
    ensures ReachesAny(OpticalAdj(devices, links), o, OltsOf(devices))
  {
    var adj, olts := OpticalAdj(devices, links), OltsOf(devices);
    var p :| IsFirstPath(adj, o, olts, p) && p[|p| - 1] == t;
    FirstPathReaches(adj, o, olts, p);
  }

  lemma ContractNone(devices: Devices, links: seq<LinkRecord>, g0: Graph, g: Graph, seen: set<Id>, o: Id)
    requires Contracting(devices, links, g0, g, seen)
    requires !ReachesAny(OpticalAdj(devices, links), o, OltsOf(devices))
    ensures Contracting(devices, links, g0, g, seen + {o})
  {
    hide Contracts, CollapsedAttr, WellFormed, HasEdge, AttrOf, WithEdge, ReachesAny, OpticalAdj, OltsOf;
    forall t ensures !Contracts(devices, links, o, t) {
      if Contracts(devices, links, o, t) {
        ContractionReaches(devices, links, o, t);
      }
    }
    assert forall u, v :: ContractedBy(devices, links, seen + {o}, u, v) <==> ContractedBy(devices, links, seen, u, v);
  }

  lemma ContractAll(devices: Devices, links: seq<LinkRecord>, g0: Graph, g: Graph)
    requires Contracting(devices, links, g0, g, OntsOf(devices))
    ensures forall u, v :: HasEdge(g, u, v) <==>
      HasEdge(g0, u, v) || Contracts(devices, links, u, v) || Contracts(devices, links, v, u)
  {
    assert forall o, t :: Contracts(devices, links, o, t) ==> o in OntsOf(devices);
    hide Contracts, WellFormed, HasEdge, AttrOf, WithEdge, ReachesAny;
  }

  function OntsOf(devices: Devices): set<Id> {
    set d | d in devices && IsOntType(devices[d])
  }

  /** One synthetic edge from every ONT to the OLT at the end of its first optical path. */
  method ContractOptical(devices: Devices, links: seq<LinkRecord>, g0: Graph) returns (g: Graph)
    requires g0.nodes == LogicalNodes(devices) && WellFormed(g0)
    ensures Contracting(devices, links, g0, g, OntsOf(devices))
  {
    hide *;
    var adj := BuildOpticalAdjacency(OpticalNodes(devices), links);
    var onts := OntsOf(devices);
    g := g0;
    var seen, rest := {}, onts;
    ContractStart(devices, links, g0);
    while rest != {}
      invariant seen + rest == onts && g.nodes == g0.nodes
      invariant Contracting(devices, links, g0, g, seen)
      decreases rest
    {
      var o :| o in rest;
      var end := ContractionEnd(devices, links, adj, o);
      if end.Some? {
        var t := end.value;
        ContractOne(devices, links, g0, g, seen, o, t);
        if !HasEdge(g, o, t) {
          g := WithEdge(g, o, t, CollapsedAttr(o, t));
        }
      } else {
        ContractNone(devices, links, g0, g, seen, o);
      }
      seen, rest := seen + {o}, rest - {o};
    }
  }

  method ContractionEnd(devices: Devices, links: seq<LinkRecord>, adj: Adj, o: Id) returns (t: Option<Id>)
    requires adj == LinkAdj(OpticalNodes(devices).Keys, links)
    requires o in OntsOf(devices)
    ensures o in LogicalNodes(devices)
    ensures t.Some? <==> ReachesAny(OpticalAdj(devices, links), o, OltsOf(devices))
    ensures t.Some? ==> Contracts(devices, links, o, t.value) && t.value in LogicalNodes(devices)
  {
    var r := ShortestOpticalPath(adj, o, OltsOf(devices));
    if r.None? {
      return None;
    }
    t := Some(r.value[|r.value| - 1]);
    assert Contracts(devices, links, o, t.value);
  }

  /** In relaxed mode an OLT or AON switch is also attached to the least core router. */
  ghost predicate RelaxedEdge(nodes: map<Id, DeviceType>, u: Id, v: Id) {
    && u in nodes && nodes[u] in {DeviceType.OLT, AON_SWITCH}
    && v in nodes && nodes[v] == CORE_ROUTER
    && forall c :: c in nodes && nodes[c] == CORE_ROUTER ==> IdLe(v, c)
  }

  ghost predicate RelaxedLabel(nodes: map<Id, DeviceType>, u: Id, v: Id, attr: EdgeAttr) {
    (RelaxedEdge(nodes, u, v) && attr == SyntheticAttr(u, v)) ||
      (RelaxedEdge(nodes, v, u) && attr == SyntheticAttr(v, u))
  }

  method AddRelaxedEdges(g0: Graph) returns (g: Graph)
    requires WellFormed(g0)
    ensures g.nodes == g0.nodes && WellFormed(g)
    ensures forall u, v :: HasEdge(g, u, v) <==>
      HasEdge(g0, u, v) || RelaxedEdge(g.nodes, u, v) || RelaxedEdge(g.nodes, v, u)
    ensures forall u, v :: HasEdge(g, u, v) ==>
      if HasEdge(g0, u, v) then AttrOf(g, u, v) == AttrOf(g0, u, v) else RelaxedLabel(g.nodes, u, v, AttrOf(g, u, v))
  {
    g := g0;
    var cores := set n | n in g.nodes && g.nodes[n] == CORE_ROUTER;
    if cores == {} {
      assert forall c :: c in g.nodes && g.nodes[c] == CORE_ROUTER ==> c in cores;
      return;
    }
    var core := LeastOf(cores);
    assert forall v :: v in cores && v != core ==> !IdLe(v, core) by {
      forall v | v in cores && v != core ensures !IdLe(v, core) { IdLtTotal(v, core); }
    }
    var access := set n | n in g.nodes && g.nodes[n] in {DeviceType.OLT, AON_SWITCH};
    assert forall u, v :: RelaxedEdge(g0.nodes, u, v) <==> u in access && v == core;
    hide RelaxedEdge, SyntheticAttr, WellFormed, WithEdge, HasEdge, AttrOf;
    var rest := access;
    while rest != {}
      invariant rest <= access
      invariant g.nodes == g0.nodes && WellFormed(g)
      invariant forall u, v :: HasEdge(g, u, v) <==>
        HasEdge(g0, u, v) || (u in access - rest && v == core) || (v in access - rest && u == core)
      invariant forall u, v :: HasEdge(g, u, v) ==>
        if HasEdge(g0, u, v) then AttrOf(g, u, v) == AttrOf(g0, u, v) else RelaxedLabel(g.nodes, u, v, AttrOf(g, u, v))
      decreases rest
    {
      var n :| n in rest;
      if !HasEdge(g, n, core) {
        EdgeAdded(g, n, core, SyntheticAttr(n, core));
        g := WithEdge(g, n, core, SyntheticAttr(n, core));
      }
      rest := rest - {n};
    }
  }

  ghost predicate HasOltNeighbour(g: Graph, o: Id) {
    exists t :: t in g.nodes && g.nodes[t] == DeviceType.OLT && HasEdge(g, o, t)
  }

  /** Exactly the edges of the logical projection. */
  ghost predicate ProjectionEdge(devices: Devices, links: seq<LinkRecord>, relaxed: bool, u: Id, v: Id) {
    var nodes := LogicalNodes(devices);
    || EdgeFromLink(LOGICAL_KINDS, nodes, links, u, v)
    || Contracts(devices, links, u, v) || Contracts(devices, links, v, u)
    || (relaxed && (RelaxedEdge(nodes, u, v) || RelaxedEdge(nodes, v, u)))
  }

  lemma OltNeighbourReached(devices: Devices, links: seq<LinkRecord>, relaxed: bool, g: Graph, o: Id)
    requires g.nodes == LogicalNodes(devices) && o in devices && IsOntType(devices[o])
    requires forall v :: HasEdge(g, o, v) <==> ProjectionEdge(devices, links, relaxed, o, v)
    requires ReachesAny(OpticalAdj(devices, links), o, OltsOf(devices)) ==> exists t :: Contracts(devices, links, o, t)
    ensures HasOltNeighbour(g, o) <==> ReachesAny(OpticalAdj(devices, links), o, OltsOf(devices))
  {
    var adj, olts := OpticalAdj(devices, links), OltsOf(devices);
    if HasOltNeighbour(g, o) {
      var t :| t in g.nodes && g.nodes[t] == DeviceType.OLT && HasEdge(g, o, t);
      assert t in olts - {o};
      if EdgeFromLink(LOGICAL_KINDS, g.nodes, links, o, t) {
        ReachableStep(adj, o, t);
      } else {
        var p :| IsFirstPath(adj, o, olts, p) && p[|p| - 1] == t;
        assert IsWalkFrom(adj, o, t, p);
      }
    }
    if ReachesAny(adj, o, olts) {
      var t :| Contracts(devices, links, o, t);
      assert t in g.nodes && g.nodes[t] == DeviceType.OLT && HasEdge(g, o, t);
    }
  }

  /** No phantom connectivity: a strict-mode edge stands for a walk over link records. */
  lemma StrictEdgeIsReal(devices: Devices, links: seq<LinkRecord>, u: Id, v: Id)
    requires ProjectionEdge(devices, links, false, u, v)
    ensures Reachable(LinkAdj(devices.Keys, links), u, v)
  {
    var adj := LinkAdj(devices.Keys, links);
    if EdgeFromLink(LOGICAL_KINDS, LogicalNodes(devices), links, u, v) {
      ReachableStep(adj, u, v);
    } else if Contracts(devices, links, u, v) {
      ContractionIsReal(devices, links, u, v);
    } else {
      ContractionIsReal(devices, links, v, u);
      ReachableSymmetric(adj, v, u);
    }
  }

  lemma ContractionIsReal(devices: Devices, links: seq<LinkRecord>, o: Id, t: Id)
    requires Contracts(devices, links, o, t)
    ensures Reachable(LinkAdj(devices.Keys, links), o, t)
  {
    var p :| IsFirstPath(OpticalAdj(devices, links), o, OltsOf(devices), p) && p[|p| - 1] == t;
    WalkMonotone(OpticalAdj(devices, links), LinkAdj(devices.Keys, links), p);
    assert IsWalkFrom(LinkAdj(devices.Keys, links), o, t, p);
  }

  /** A record's label wins over a contraction's, and that over a relaxed edge's. */
  ghost predicate ProjectionLabel(devices: Devices, links: seq<LinkRecord>, u: Id, v: Id, attr: EdgeAttr) {
    var nodes := LogicalNodes(devices);
    if EdgeFromLink(LOGICAL_KINDS, nodes, links, u, v) then IsLabel(LOGICAL_KINDS, nodes, links, u, v, attr)
    else if Contracts(devices, links, u, v) || Contracts(devices, links, v, u)
      then CollapsedLabel(devices, links, u, v, attr)
    else RelaxedLabel(nodes, u, v, attr)
  }

  /** Nodes, edges and labels of the logical projection. */
  ghost predicate IsLogicalGraph(devices: Devices, links: seq<LinkRecord>, relaxed: bool, g: Graph) {
    && g.nodes == LogicalNodes(devices) && WellFormed(g)
    && (forall u, v :: HasEdge(g, u, v) <==> ProjectionEdge(devices, links, relaxed, u, v))
    && (forall u, v :: HasEdge(g, u, v) ==> ProjectionLabel(devices, links, u, v, AttrOf(g, u, v)))
  }

  lemma ProjectionLabelUnique(devices: Devices, links: seq<LinkRecord>, u: Id, v: Id, a: EdgeAttr, b: EdgeAttr)
    requires ProjectionLabel(devices, links, u, v, a) && ProjectionLabel(devices, links, u, v, b)
    ensures a == b
  {
    hide EdgeFromLink, IsLabel;
    if EdgeFromLink(LOGICAL_KINDS, LogicalNodes(devices), links, u, v) {
      LabelIsUnique(LOGICAL_KINDS, LogicalNodes(devices), links, u, v, a, b);
    } else {
      OneWay(devices, links, u, v);
    }
  }

  /** A contraction leads from an ONT to an OLT, so it is never mutual. */
  lemma OneWay(devices: Devices, links: seq<LinkRecord>, u: Id, v: Id)
    ensures !(Contracts(devices, links, u, v) && Contracts(devices, links, v, u))
  {
  }

  /** The projection of given records is one graph, labels included. */
  lemma LogicalGraphUnique(devices: Devices, links: seq<LinkRecord>, relaxed: bool, g: Graph, g': Graph)
    requires IsLogicalGraph(devices, links, relaxed, g) && IsLogicalGraph(devices, links, relaxed, g')
    ensures g == g'
  {
    hide WellFormed, HasEdge, AttrOf, ProjectionEdge, ProjectionLabel, LogicalNodes;
    forall u, v | HasEdge(g, u, v) && HasEdge(g', u, v) ensures AttrOf(g, u, v) == AttrOf(g', u, v) {
      ProjectionLabelUnique(devices, links, u, v, AttrOf(g, u, v), AttrOf(g', u, v));
    }
    SameEdgesSameGraph(g, g');
  }

  // ---- The projection, read off the columns of the records ----

  ghost predicate LogicalRow(devices: Devices, d: Id) {
    d in devices &&
      devices[d] in {BACKBONE_GATEWAY, CORE_ROUTER, EDGE_ROUTER, DeviceType.OLT, AON_SWITCH, AON_CPE, ONT, BUSINESS_ONT}
  }

  /** Record `k` joins two logical devices and is of a kind that routes. */
  ghost predicate RowJoins(devices: Devices, links: seq<LinkRecord>, u: Id, v: Id, k: nat) {
    && k < |links| && LogicalRow(devices, u) && LogicalRow(devices, v)
    && (links[k].kind == LinkKind.FIBER || links[k].kind == LinkKind.P2P || links[k].kind == RoutedP2p ||
        links[k].kind == AccessEdge || links[k].kind == AccessOpticalTerm)
    && ((links[k].a == u && links[k].b == v) || (links[k].a == v && links[k].b == u))
  }

  ghost predicate IsLastRow(devices: Devices, links: seq<LinkRecord>, u: Id, v: Id, k: nat) {
    RowJoins(devices, links, u, v, k) && forall j: nat :: j > k ==> !RowJoins(devices, links, u, v, j)
  }

  ghost predicate OpticalRow(devices: Devices, d: Id) {
    d in devices && devices[d] in {DeviceType.OLT, ONT, BUSINESS_ONT, ODF, NVT, SPLITTER, HOP}
  }

  /** Optical devices, each joined to the next by some record, whatever its kind. */
  ghost predicate IsOpticalWalk(devices: Devices, links: seq<LinkRecord>, p: Path) {
    && |p| > 0 && (forall i :: 0 <= i < |p| ==> OpticalRow(devices, p[i]))
    && forall i :: 0 <= i < |p| - 1 ==> Joined(links, p[i], p[i + 1])
  }

  ghost predicate LeadsToOlt(devices: Devices, links: seq<LinkRecord>, o: Id, p: Path) {
    IsOpticalWalk(devices, links, p) && p[0] == o && devices[p[|p| - 1]] == DeviceType.OLT
  }

  /** The ONT has an optical walk to OLT `t` that is shorter than any to an OLT, or as short and of smaller ids. */
  ghost predicate Collapses(devices: Devices, links: seq<LinkRecord>, o: Id, t: Id) {
    && o in devices && devices[o] in {ONT, BUSINESS_ONT}
    && exists p :: LeadsToOlt(devices, links, o, p) && p[|p| - 1] == t && PrecedesAll(devices, links, o, p)
  }

  ghost predicate PrecedesAll(devices: Devices, links: seq<LinkRecord>, o: Id, p: Path) {
    forall q :: LeadsToOlt(devices, links, o, q) && q != p ==> |p| < |q| || (|p| == |q| && LexLt(p, q))
  }

  /** An OLT or switch, and the least core router. */
  ghost predicate AttachesToCore(devices: Devices, n: Id, core: Id) {
    && n in devices && devices[n] in {DeviceType.OLT, AON_SWITCH} && core in devices && devices[core] == CORE_ROUTER
    && forall c :: c in devices && devices[c] == CORE_ROUTER ==> IdLe(core, c)
  }

  ghost predicate IsProjectedEdge(devices: Devices, links: seq<LinkRecord>, relaxed: bool, u: Id, v: Id) {
    || (exists k: nat :: RowJoins(devices, links, u, v, k))
    || Collapses(devices, links, u, v) || Collapses(devices, links, v, u)
    || (relaxed && (AttachesToCore(devices, u, v) || AttachesToCore(devices, v, u)))
  }

  /** The id of the last record; failing that the name of the contraction; failing that of the relaxed edge. */
  ghost predicate IsProjectedAttr(devices: Devices, links: seq<LinkRecord>, u: Id, v: Id, attr: EdgeAttr) {
    if exists k: nat :: RowJoins(devices, links, u, v, k)
    then exists k: nat :: IsLastRow(devices, links, u, v, k) && attr == EdgeAttr(links[k].id, false)
    else if Collapses(devices, links, u, v) then attr == EdgeAttr("collapsed_optical:" + u + "->" + v, true)
    else if Collapses(devices, links, v, u) then attr == EdgeAttr("collapsed_optical:" + v + "->" + u, true)
    else if AttachesToCore(devices, u, v) then attr == EdgeAttr("synthetic:" + u + "->" + v, true)
    else AttachesToCore(devices, v, u) && attr == EdgeAttr("synthetic:" + v + "->" + u, true)
  }

  ghost predicate IsProjection(devices: Devices, links: seq<LinkRecord>, relaxed: bool, g: Graph) {
    && (forall d :: d in g.nodes <==> LogicalRow(devices, d))
    && (forall d :: d in g.nodes ==> g.nodes[d] == devices[d])
    && (forall u, v :: (u, v) in g.edges <==> IsProjectedEdge(devices, links, relaxed, u, v))
    && (forall u, v :: (u, v) in g.edges ==> IsProjectedAttr(devices, links, u, v, g.edges[(u, v)]))
  }

  lemma NodesOnRows(devices: Devices, d: Id)
    ensures d in LogicalNodes(devices) <==> LogicalRow(devices, d)
    ensures d in OpticalNodes(devices) <==> OpticalRow(devices, d)
    ensures d in OltsOf(devices) <==> d in devices && devices[d] == DeviceType.OLT
  {
  }

  lemma RowJoinsMeans(devices: Devices, links: seq<LinkRecord>, u: Id, v: Id, k: nat)
    ensures RowJoins(devices, links, u, v, k) <==>
      k < |links| && IsEdgeLink(LOGICAL_KINDS, LogicalNodes(devices), links[k], u, v)
  {
    NodesOnRows(devices, u);
    NodesOnRows(devices, v);
    hide LogicalNodes, LogicalRow;
  }

  lemma RecordEdgeMeans(devices: Devices, links: seq<LinkRecord>, u: Id, v: Id)
    ensures EdgeFromLink(LOGICAL_KINDS, LogicalNodes(devices), links, u, v) <==>
      exists k: nat :: RowJoins(devices, links, u, v, k)
    ensures forall attr :: IsLabel(LOGICAL_KINDS, LogicalNodes(devices), links, u, v, attr) ==>
      exists k: nat :: IsLastRow(devices, links, u, v, k) && attr == EdgeAttr(links[k].id, false)
  {
    forall k: nat { RowJoinsMeans(devices, links, u, v, k); }
    hide IsEdgeLink, RowJoins;
    var nodes := LogicalNodes(devices);
    if EdgeFromLink(LOGICAL_KINDS, nodes, links, u, v) {
      var l :| l in links && IsEdgeLink(LOGICAL_KINDS, nodes, l, u, v);
      var k :| 0 <= k < |links| && links[k] == l;
      assert RowJoins(devices, links, u, v, k);
    }
    if k: nat :| RowJoins(devices, links, u, v, k) {
      assert links[k] in links;
    }
    forall attr | IsLabel(LOGICAL_KINDS, nodes, links, u, v, attr)
      ensures exists k: nat :: IsLastRow(devices, links, u, v, k) && attr == EdgeAttr(links[k].id, false)
    {
      var k: nat :| IsLastLink(LOGICAL_KINDS, nodes, links, u, v, k) && attr == EdgeAttr(links[k].id, false);
      assert IsLastRow(devices, links, u, v, k);
    }
  }

  lemma OpticalWalkMeans(devices: Devices, links: seq<LinkRecord>, o: Id, p: Path)
    requires o in devices && devices[o] in {ONT, BUSINESS_ONT}
    ensures LeadsToOlt(devices, links, o, p) <==>
      IsWalk(OpticalAdj(devices, links), p) && p[0] == o && p[|p| - 1] in OltsOf(devices) - {o}
  {
    var adj := OpticalAdj(devices, links);
    forall d ensures (d in OpticalNodes(devices) <==> OpticalRow(devices, d)) &&
      (d in OltsOf(devices) <==> d in devices && devices[d] == DeviceType.OLT)
    {
      NodesOnRows(devices, d);
    }
    forall u, v ensures v in Nbrs(adj, u) <==> OpticalRow(devices, u) && OpticalRow(devices, v) && Joined(links, u, v) {
    }
    assert OpticalRow(devices, o);
    hide OpticalAdj, OpticalRow, Nbrs, Joined, OltsOf;
    if LeadsToOlt(devices, links, o, p) {
      forall i | 0 <= i < |p| - 1 ensures p[i + 1] in Nbrs(adj, p[i]) {
        assert OpticalRow(devices, p[i]) && OpticalRow(devices, p[i + 1]);
      }
    }
    if IsWalk(adj, p) && p[0] == o && p[|p| - 1] in OltsOf(devices) - {o} {
      forall i | 0 <= i < |p| ensures OpticalRow(devices, p[i]) {
        if i > 0 { assert p[i - 1 + 1] in Nbrs(adj, p[i - 1]); }
      }
      forall i | 0 <= i < |p| - 1 ensures Joined(links, p[i], p[i + 1]) {
        assert p[i + 1] in Nbrs(adj, p[i]);
      }
    }
  }

  lemma ContractsMeans(devices: Devices, links: seq<LinkRecord>, o: Id, t: Id)
    ensures Contracts(devices, links, o, t) <==> Collapses(devices, links, o, t)
  {
    if o in devices && IsOntType(devices[o]) {
      forall p { OpticalWalkMeans(devices, links, o, p); }
      hide LeadsToOlt, IsWalk, OpticalAdj, OltsOf, LexLt;
      if Contracts(devices, links, o, t) {
        var p :| IsFirstPath(OpticalAdj(devices, links), o, OltsOf(devices), p) && p[|p| - 1] == t;
        assert LeadsToOlt(devices, links, o, p) && PrecedesAll(devices, links, o, p);
      }
      if Collapses(devices, links, o, t) {
        var p :| LeadsToOlt(devices, links, o, p) && p[|p| - 1] == t && PrecedesAll(devices, links, o, p);
        assert IsFirstPath(OpticalAdj(devices, links), o, OltsOf(devices), p);
      }
    }
  }

  lemma RelaxedMeans(devices: Devices, u: Id, v: Id)
    ensures RelaxedEdge(LogicalNodes(devices), u, v) <==> AttachesToCore(devices, u, v)
  {
    assert forall c :: c in devices && devices[c] == CORE_ROUTER ==> c in LogicalNodes(devices);
  }

  lemma EdgeMeans(devices: Devices, links: seq<LinkRecord>, relaxed: bool, u: Id, v: Id)
    ensures ProjectionEdge(devices, links, relaxed, u, v) <==> IsProjectedEdge(devices, links, relaxed, u, v)
    ensures forall attr :: ProjectionLabel(devices, links, u, v, attr) ==>
      IsProjectedAttr(devices, links, u, v, attr)
  {
    RecordEdgeMeans(devices, links, u, v);
    ContractsMeans(devices, links, u, v);
    ContractsMeans(devices, links, v, u);
    RelaxedMeans(devices, u, v);
    RelaxedMeans(devices, v, u);
    OneWay(devices, links, u, v);
    NeverBothWays(devices, u, v);
    hide EdgeFromLink, IsLabel, Contracts, Collapses, RelaxedEdge, AttachesToCore, RowJoins, IsLastRow, LogicalNodes;
  }

  lemma NeverBothWays(devices: Devices, u: Id, v: Id)
    ensures !(AttachesToCore(devices, u, v) && AttachesToCore(devices, v, u))
  {
  }

  /** The logical graph on the columns: which devices, which edges, and what each edge is called. */
  lemma LogicalGraphMeans(devices: Devices, links: seq<LinkRecord>, relaxed: bool, g: Graph)
    requires IsLogicalGraph(devices, links, relaxed, g)
    ensures IsProjection(devices, links, relaxed, g)
  {
    hide ProjectionEdge, IsProjectedEdge, ProjectionLabel, IsProjectedAttr, WellFormed;
    forall u, v ensures ProjectionEdge(devices, links, relaxed, u, v) <==>
      IsProjectedEdge(devices, links, relaxed, u, v)
      ensures forall attr :: ProjectionLabel(devices, links, u, v, attr) ==>
        IsProjectedAttr(devices, links, u, v, attr)
    {
      EdgeMeans(devices, links, relaxed, u, v);
    }
    forall d ensures d in LogicalNodes(devices) <==> LogicalRow(devices, d) { NodesOnRows(devices, d); }
    assert forall u, v :: HasEdge(g, u, v) <==> (u, v) in g.edges;
    assert forall u, v :: HasEdge(g, u, v) ==> AttrOf(g, u, v) == g.edges[(u, v)];
    hide HasEdge, AttrOf, LogicalRow;
  }

  method BuildLogicalGraph(devices: Devices, links: seq<LinkRecord>, relaxed: bool) returns (g: Graph)
    ensures IsLogicalGraph(devices, links, relaxed, g) && IsProjection(devices, links, relaxed, g)
    ensures forall o :: o in devices && IsOntType(devices[o]) ==>
      (HasOltNeighbour(g, o) <==> ReachesAny(OpticalAdj(devices, links), o, OltsOf(devices)))
  {
    var g1 := AddLinkEdges(LOGICAL_KINDS, LogicalNodes(devices), links);
    var g2 := ContractOptical(devices, links, g1);
    ContractAll(devices, links, g1, g2);
    g := g2;
    if relaxed {
      g := AddRelaxedEdges(g2);
    }
    hide Contracts, RelaxedEdge, WellFormed, HasEdge, AttrOf, EdgeFromLink, IsLabel, ReachesAny, CollapsedAttr,
      SyntheticAttr, LogicalNodes, IsProjection;
    assert IsLogicalGraph(devices, links, relaxed, g);
    LogicalGraphMeans(devices, links, relaxed, g);
    forall o | o in devices && IsOntType(devices[o])
      ensures HasOltNeighbour(g, o) <==> ReachesAny(OpticalAdj(devices, links), o, OltsOf(devices))
    {
      OltNeighbourReached(devices, links, relaxed, g, o);
    }
  }

  /** The graph as adjacency sets. */
  function AdjOf(g: Graph): Adj {
    map u | u in g.nodes :: set v | v in g.nodes && (u, v) in g.edges
  }

  lemma GraphClosed(g: Graph)
    ensures Closed(AdjOf(g)) && AdjOf(g).Keys == g.nodes.Keys
  {
  }

  /** `q` is a walk that passes the nodes of `p` in order, from the first to the last; `at` says where. */
  ghost predicate Expands(adj: Adj, p: Path, q: Path, at: seq<nat>) {
    && IsWalk(adj, q) && |at| == |p| > 0 && at[0] == 0 && at[|p| - 1] == |q| - 1
    && (forall i :: 0 <= i < |p| ==> at[i] < |q| && q[at[i]] == p[i])
    && (forall i, j :: 0 <= i < j < |p| ==> at[i] <= at[j])
  }

  lemma ExpandsFurther(adj: Adj, p: Path, q: Path, at: seq<nat>, v: Id, r: Path)
    requires Expands(adj, p, q, at) && IsWalkFrom(adj, p[|p| - 1], v, r)
    ensures Expands(adj, p + [v], q + r[1..], at + [|q + r[1..]| - 1])
  {
    WalkSplice(adj, q[0], q[|q| - 1], v, q, r);
    hide IsWalk;
    var p', q', at' := p + [v], q + r[1..], at + [|q + r[1..]| - 1];
    forall i | 0 <= i < |p'| ensures at'[i] < |q'| && q'[at'[i]] == p'[i] {
      if i < |p| {
        assert q'[at[i]] == q[at[i]];
      }
    }
  }

  /** Every strict-mode logical walk expands to a walk over link records that passes its nodes in order. */
  lemma {:induction false} LogicalWalkExpands(devices: Devices, links: seq<LinkRecord>, g: Graph, p: Path)
    returns (q: Path, at: seq<nat>)
    requires g.nodes == LogicalNodes(devices)
    requires forall u, v :: HasEdge(g, u, v) <==> ProjectionEdge(devices, links, false, u, v)
    requires IsWalk(AdjOf(g), p)
    ensures Expands(LinkAdj(devices.Keys, links), p, q, at)
  {
    var adj := LinkAdj(devices.Keys, links);
    var n := |p| - 1;
    if n == 0 {
      q, at := p, [0];
    } else {
      WalkPrefix(AdjOf(g), p, n);
      var q0, at0 := LogicalWalkExpands(devices, links, g, p[..n]);
      assert p[n - 1 + 1] in Nbrs(AdjOf(g), p[n - 1]);
      StrictEdgeIsReal(devices, links, p[n - 1], p[n]);
      hide ProjectionEdge, LinkAdj, AdjOf, LogicalNodes;
      var r :| IsWalkFrom(adj, p[n - 1], p[n], r);
      ExpandsFurther(adj, p[..n], q0, at0, p[n], r);
      assert p == p[..n] + [p[n]];
      q, at := q0 + r[1..], at0 + [|q0 + r[1..]| - 1];
    }
  }
}
