/**
 The optical projection (backend/services/pathfinding.py) and the resolver of the path with least
 attenuation from an ONT to an OLT (backend/services/optical_path_resolver.py).
 */
module OpticalPath {
  import opened Types
  import opened Order
  import opened Graphs
  import opened Dijkstra
  import opened SignedSearch
  import opened LogicalGraph
  import opened Sums

  // ---- The optical graph ----

  /** Classified optical links; a raw FIBER link counts between any two optical devices. */
  const OPTICAL_KINDS := {OpticalSegment, OpticalTermination, LinkKind.FIBER}

  /** Edges are exactly the optical records between optical devices, each labelled with the last one. */
  ghost predicate IsOpticalGraph(devices: Devices, links: seq<LinkRecord>, g: Graph) {
    IsLinkGraph(OPTICAL_KINDS, OpticalNodes(devices), links, g)
  }

  /** Record `k` joins two optical devices and is of an optical kind. */
  ghost predicate FiberRow(devices: Devices, links: seq<LinkRecord>, u: Id, v: Id, k: nat) {
    && k < |links| && OpticalRow(devices, u) && OpticalRow(devices, v)
    && (links[k].kind == LinkKind.FIBER || links[k].kind == OpticalSegment || links[k].kind == OpticalTermination)
    && ((links[k].a == u && links[k].b == v) || (links[k].a == v && links[k].b == u))
  }

  ghost predicate IsLastFiber(devices: Devices, links: seq<LinkRecord>, u: Id, v: Id, k: nat) {
    FiberRow(devices, links, u, v, k) && forall j: nat :: j > k ==> !FiberRow(devices, links, u, v, j)
  }

  ghost predicate IsFiberLabel(devices: Devices, links: seq<LinkRecord>, u: Id, v: Id, attr: EdgeAttr) {
    exists k: nat :: IsLastFiber(devices, links, u, v, k) && attr == EdgeAttr(links[k].id, false)
  }

  /** The optical graph on the columns of the records. */
  ghost predicate IsFiberGraph(devices: Devices, links: seq<LinkRecord>, g: Graph) {
    && (forall d :: d in g.nodes <==> OpticalRow(devices, d))
    && (forall d :: d in g.nodes ==> g.nodes[d] == devices[d])
    && (forall u, v :: (u, v) in g.edges <==> exists k: nat :: FiberRow(devices, links, u, v, k))
    && (forall u, v :: (u, v) in g.edges ==> IsFiberLabel(devices, links, u, v, g.edges[(u, v)]))
  }

  lemma FiberRowMeans(devices: Devices, links: seq<LinkRecord>, u: Id, v: Id, k: nat)
    ensures FiberRow(devices, links, u, v, k) <==>
      k < |links| && IsEdgeLink(OPTICAL_KINDS, OpticalNodes(devices), links[k], u, v)
  {
    NodesOnRows(devices, u);
    NodesOnRows(devices, v);
    hide OpticalNodes, OpticalRow;
  }

  lemma FiberEdgeMeans(devices: Devices, links: seq<LinkRecord>, u: Id, v: Id)
    ensures EdgeFromLink(OPTICAL_KINDS, OpticalNodes(devices), links, u, v) <==>
      exists k: nat :: FiberRow(devices, links, u, v, k)
    ensures forall attr :: IsLabel(OPTICAL_KINDS, OpticalNodes(devices), links, u, v, attr) ==>
      IsFiberLabel(devices, links, u, v, attr)
  {
    forall k: nat { FiberRowMeans(devices, links, u, v, k); }
    hide IsEdgeLink, FiberRow;
    var nodes := OpticalNodes(devices);
    if EdgeFromLink(OPTICAL_KINDS, nodes, links, u, v) {
      var l :| l in links && IsEdgeLink(OPTICAL_KINDS, nodes, l, u, v);
      var k :| 0 <= k < |links| && links[k] == l;
      assert FiberRow(devices, links, u, v, k);
    }
    if k: nat :| FiberRow(devices, links, u, v, k) {
      assert links[k] in links;
    }
    forall attr | IsLabel(OPTICAL_KINDS, nodes, links, u, v, attr) ensures IsFiberLabel(devices, links, u, v, attr) {
      var k: nat :| IsLastLink(OPTICAL_KINDS, nodes, links, u, v, k) && attr == EdgeAttr(links[k].id, false);
      assert IsLastFiber(devices, links, u, v, k);
    }
  }

  lemma OpticalGraphMeans(devices: Devices, links: seq<LinkRecord>, g: Graph)
    requires IsOpticalGraph(devices, links, g)
    ensures IsFiberGraph(devices, links, g)
  {
    hide EdgeFromLink, IsLabel, FiberRow, IsFiberLabel, WellFormed;
    var nodes := OpticalNodes(devices);
    forall u, v
      ensures EdgeFromLink(OPTICAL_KINDS, nodes, links, u, v) <==> exists k: nat :: FiberRow(devices, links, u, v, k)
      ensures forall attr :: IsLabel(OPTICAL_KINDS, nodes, links, u, v, attr) ==>
        IsFiberLabel(devices, links, u, v, attr)
    {
      FiberEdgeMeans(devices, links, u, v);
    }
    forall d ensures d in nodes <==> OpticalRow(devices, d) { NodesOnRows(devices, d); }
    assert forall u, v :: HasEdge(g, u, v) <==> (u, v) in g.edges;
    assert forall u, v :: HasEdge(g, u, v) ==> AttrOf(g, u, v) == g.edges[(u, v)];
    hide HasEdge, AttrOf, OpticalRow;
  }

  /** `build_optical_graph`. */
  method BuildOpticalGraph(devices: Devices, links: seq<LinkRecord>) returns (g: Graph)
    ensures IsOpticalGraph(devices, links, g) && IsFiberGraph(devices, links, g)
  {
    hide IsLinkGraph, IsFiberGraph;
    g := AddLinkEdges(OPTICAL_KINDS, OpticalNodes(devices), links);
    OpticalGraphMeans(devices, links, g);
  }

  // ---- The optical graph and the adjacency that contraction uses ----

  /** Wherever a record joins two optical devices, one of an optical kind does too. */
  ghost predicate FullyOptical(devices: Devices, links: seq<LinkRecord>) {
    forall u, v :: u in OpticalNodes(devices) && v in OpticalNodes(devices) && Joined(links, u, v) ==>
      EdgeFromLink(OPTICAL_KINDS, OpticalNodes(devices), links, u, v)
  }

  lemma OpticalEdgeIsJoined(devices: Devices, links: seq<LinkRecord>, u: Id, v: Id)
    requires EdgeFromLink(OPTICAL_KINDS, OpticalNodes(devices), links, u, v)
    ensures u in OpticalNodes(devices) && v in OpticalNodes(devices) && Joined(links, u, v)
  {
  }

  /** Contraction ignores the kind of a link; it sees the optical graph exactly when that makes no difference. */
  lemma AdjacenciesAgreeIff(devices: Devices, links: seq<LinkRecord>, og: Graph)
    requires IsOpticalGraph(devices, links, og)
    ensures AdjOf(og) == OpticalAdj(devices, links) <==> FullyOptical(devices, links)
  {
    var nodes, adj, all := OpticalNodes(devices), AdjOf(og), OpticalAdj(devices, links);
    forall u, v | u in nodes ensures v in adj[u] <==> EdgeFromLink(OPTICAL_KINDS, nodes, links, u, v) {
      assert HasEdge(og, u, v) <==> EdgeFromLink(OPTICAL_KINDS, nodes, links, u, v);
      if EdgeFromLink(OPTICAL_KINDS, nodes, links, u, v) { OpticalEdgeIsJoined(devices, links, u, v); }
    }
    forall u, v | u in nodes ensures v in all[u] <==> v in nodes && Joined(links, u, v) {
    }
    hide IsOpticalGraph, EdgeFromLink, Joined, AdjOf, OpticalAdj, OpticalNodes;
    if FullyOptical(devices, links) {
      forall u | u in nodes ensures adj[u] == all[u] {
        forall v ensures v in adj[u] <==> v in all[u] {
          if v in adj[u] { OpticalEdgeIsJoined(devices, links, u, v); }
        }
      }
      SameKeys(devices, links, og);
      assert adj == all;
    }
    if adj == all {
      SameKeys(devices, links, og);
    }
  }

  lemma SameKeys(devices: Devices, links: seq<LinkRecord>, og: Graph)
    requires IsOpticalGraph(devices, links, og)
    ensures AdjOf(og).Keys == OpticalNodes(devices).Keys
    ensures OpticalAdj(devices, links).Keys == OpticalNodes(devices).Keys
  {
  }

  /** Under that condition an ONT has an OLT neighbour in the logical graph exactly when the resolver finds an OLT. */
  lemma ContractionMatchesResolver(devices: Devices, links: seq<LinkRecord>, g: Graph, og: Graph, o: Id)
    requires IsOpticalGraph(devices, links, og) && FullyOptical(devices, links) && o in devices && IsOntType(devices[o])
    requires HasOltNeighbour(g, o) <==> ReachesAny(OpticalAdj(devices, links), o, OltsOf(devices))
    ensures HasOltNeighbour(g, o) <==> ReachesOlt(og, o)
  {
    AdjacenciesAgreeIff(devices, links, og);
    hide HasOltNeighbour, AdjOf, OpticalAdj, FullyOptical, Reachable;
    assert OltsOf(og.nodes) == OltsOf(devices);
  }

  const MGMT_DEVICES: Devices := map["n" := ONT, "o" := DeviceType.OLT]
  const MGMT_LINKS := [LinkRecord("L", "n", "o", MGMT)]

  /** An ONT joined to an OLT by a management record only is contracted, and the resolver finds nothing. */
  lemma MgmtLinkContracts(og: Graph)
    requires IsOpticalGraph(MGMT_DEVICES, MGMT_LINKS, og)
    ensures ReachesAny(OpticalAdj(MGMT_DEVICES, MGMT_LINKS), "n", OltsOf(MGMT_DEVICES)) && !ReachesOlt(og, "n")
  {
    var adj := OpticalAdj(MGMT_DEVICES, MGMT_LINKS);
    assert Joins(MGMT_LINKS[0], "n", "o");
    assert Joined(MGMT_LINKS, "n", "o");
    ReachableStep(adj, "n", "o");
    forall u, v ensures v !in Nbrs(AdjOf(og), u) {
      assert !EdgeFromLink(OPTICAL_KINDS, og.nodes, MGMT_LINKS, u, v);
      assert !HasEdge(og, u, v);
    }
    hide IsOpticalGraph, OpticalAdj, AdjOf;
    if o :| o in OltsOf(og.nodes) && Reachable(AdjOf(og), "n", o) {
      NoEdgesNoWalk(AdjOf(og), "n", o);
    }
  }

  // ---- Losses ----

  /** A link row: its length, and the attenuation per km of its medium when that is a known fiber type. */
  datatype Fiber = Fiber(km: Option<real>, perKm: Option<real>)

  /** The rows the resolver consults: links by id, insertion losses by device. */
  datatype Plant = Plant(fibers: map<Id, Fiber>, insertion: map<Id, real>)

  function FiberLoss(f: Fiber): real {
    if f.km.Some? && f.perKm.Some? then f.km.value * f.perKm.value else 0.0
  }

  function LinkOn(g: Graph, u: Id, v: Id): Option<Id> {
    if HasEdge(g, u, v) && AttrOf(g, u, v).id != "" then Some(AttrOf(g, u, v).id) else None
  }

  /** `_edge_loss_db`. */
  function EdgeLoss(g: Graph, plant: Plant, u: Id, v: Id): real {
    var l := LinkOn(g, u, v);
    if l.Some? && l.value in plant.fibers then FiberLoss(plant.fibers[l.value]) else 0.0
  }

  function EdgeKm(g: Graph, plant: Plant, u: Id, v: Id): real {
    var l := LinkOn(g, u, v);
    if l.Some? && l.value in plant.fibers && plant.fibers[l.value].km.Some? then plant.fibers[l.value].km.value else 0.0
  }

  predicate IsPassiveNode(g: Graph, v: Id) {
    v in g.nodes && IsPassiveType(g.nodes[v])
  }

  function Entering(g: Graph, plant: Plant, v: Id): real {
    if IsPassiveNode(g, v) then At(plant.insertion, v) else 0.0
  }

  function StepLoss(g: Graph, plant: Plant, u: Id, v: Id): real {
    EdgeLoss(g, plant, u, v) + Entering(g, plant, v)
  }

  /** The weight function handed to Dijkstra. */
  function LossWeight(g: Graph, plant: Plant): Weight {
    (u, v) => StepLoss(g, plant, u, v)
  }

  predicate NoGain(plant: Plant) {
    && (forall l :: l in plant.fibers ==> FiberLoss(plant.fibers[l]) >= 0.0)
    && (forall d :: d in plant.insertion ==> plant.insertion[d] >= 0.0)
  }

  lemma LossNonNegative(g: Graph, plant: Plant)
    requires NoGain(plant)
    ensures NonNegative(LossWeight(g, plant))
  {
  }

  /** Edge losses along a path. */
  function SegmentLoss(g: Graph, plant: Plant, p: Path): real {
    if |p| < 2 then 0.0 else SegmentLoss(g, plant, p[..|p| - 1]) + EdgeLoss(g, plant, p[|p| - 2], p[|p| - 1])
  }

  function PassiveLoss(g: Graph, plant: Plant, nodes: seq<Id>): real {
    if nodes == [] then 0.0 else PassiveLoss(g, plant, nodes[..|nodes| - 1]) + Entering(g, plant, nodes[|nodes| - 1])
  }

  function InsertionLoss(plant: Plant, nodes: seq<Id>): real {
    if nodes == [] then 0.0 else InsertionLoss(plant, nodes[..|nodes| - 1]) + At(plant.insertion, nodes[|nodes| - 1])
  }

  function Interior(p: Path): Path {
    if |p| < 3 then [] else p[1..|p| - 1]
  }

  /** `_path_total_loss`: insertion loss of every interior device, passive or not. */
  function PathTotalLoss(g: Graph, plant: Plant, p: Path): real {
    SegmentLoss(g, plant, p) + InsertionLoss(plant, Interior(p))
  }

  lemma {:induction false} CostSplits(g: Graph, plant: Plant, p: Path)
    requires |p| > 0
    ensures Cost(LossWeight(g, plant), p) == SegmentLoss(g, plant, p) + PassiveLoss(g, plant, p[1..])
  {
    hide EdgeLoss, Entering;
    if |p| > 1 {
      var q := p[..|p| - 1];
      CostSplits(g, plant, q);
      assert p[1..][..|p| - 2] == q[1..];
    }
  }

  /** To an OLT, the cost of a path is its segment losses plus the insertion losses of its passive interior. */
  lemma CostToOlt(g: Graph, plant: Plant, p: Path)
    requires |p| > 0 && !IsPassiveNode(g, p[|p| - 1])
    ensures Cost(LossWeight(g, plant), p) == SegmentLoss(g, plant, p) + PassiveLoss(g, plant, Interior(p))
  {
    CostSplits(g, plant, p);
    if |p| > 1 {
      assert p[1..][..|p| - 2] == Interior(p);
    }
  }

  /** The insertion loss of interior devices that are not passive. */
  function ActiveLoss(g: Graph, plant: Plant, nodes: seq<Id>): real {
    if nodes == [] then 0.0
    else ActiveLoss(g, plant, nodes[..|nodes| - 1]) + if IsPassiveNode(g, nodes[|nodes| - 1]) then 0.0
      else At(plant.insertion, nodes[|nodes| - 1])
  }

  lemma {:induction false} InsertionSplits(g: Graph, plant: Plant, nodes: seq<Id>)
    ensures InsertionLoss(plant, nodes) == PassiveLoss(g, plant, nodes) + ActiveLoss(g, plant, nodes)
  {
    if nodes != [] {
      InsertionSplits(g, plant, nodes[..|nodes| - 1]);
    }
  }

  /** The reported attenuation and `_path_total_loss` differ by exactly the active interior's insertion loss. */
  lemma TotalLossDiffers(g: Graph, plant: Plant, p: Path)
    requires |p| > 0 && !IsPassiveNode(g, p[|p| - 1])
    ensures PathTotalLoss(g, plant, p) == Cost(LossWeight(g, plant), p) + ActiveLoss(g, plant, Interior(p))
  {
    CostToOlt(g, plant, p);
    InsertionSplits(g, plant, Interior(p));
  }

  lemma {:induction false} OnlyPassivesLose(g: Graph, plant: Plant, nodes: seq<Id>)
    requires forall d :: d in plant.insertion && plant.insertion[d] != 0.0 ==> IsPassiveNode(g, d)
    ensures ActiveLoss(g, plant, nodes) == 0.0
  {
    if nodes != [] {
      OnlyPassivesLose(g, plant, nodes[..|nodes| - 1]);
    }
  }

  const CASCADED := Graph(map["n" := ONT, "m" := ONT, "o" := DeviceType.OLT],
                          map[("n", "m") := EdgeAttr("K", false), ("m", "n") := EdgeAttr("K", false),
                              ("m", "o") := EdgeAttr("L", false), ("o", "m") := EdgeAttr("L", false)])
  const LOSSY_ONT := Plant(map[], map["m" := 1.0])

  /** On a cheapest path through another ONT with insertion loss the two totals differ. */
  lemma LossyOntDiffers()
    ensures WellFormed(CASCADED) && NoGain(LOSSY_ONT)
    ensures IsCheapest(AdjOf(CASCADED), LossWeight(CASCADED, LOSSY_ONT), "n", "o", ["n", "m", "o"])
    ensures Cost(LossWeight(CASCADED, LOSSY_ONT), ["n", "m", "o"]) == 0.0
    ensures PathTotalLoss(CASCADED, LOSSY_ONT, ["n", "m", "o"]) == 1.0
  {
    var g, plant, p := CASCADED, LOSSY_ONT, ["n", "m", "o"];
    var w := LossWeight(g, plant);
    CascadedIsWalk();
    CascadedCost();
    assert Interior(p) == ["m"] && ["m"][..0] == [];
    assert ActiveLoss(g, plant, []) == 0.0 && ActiveLoss(g, plant, ["m"]) == 1.0;
    LossNonNegative(g, plant);
    TotalLossDiffers(g, plant, p);
    hide LossWeight, Cost, IsWalkFrom, AdjOf;
    forall q { CostNonNegative(w, q); }
  }

  lemma CascadedCost()
    ensures Cost(LossWeight(CASCADED, LOSSY_ONT), ["n", "m", "o"]) == 0.0
  {
    var w := LossWeight(CASCADED, LOSSY_ONT);
    assert ["n", "m", "o"][..2] == ["n", "m"] && ["n", "m"][..1] == ["n"];
    assert w("n", "m") == 0.0 && w("m", "o") == 0.0;
    hide LossWeight;
    assert Cost(w, ["n"]) == 0.0 && Cost(w, ["n", "m"]) == 0.0;
  }

  lemma CascadedIsWalk()
    ensures IsWalkFrom(AdjOf(CASCADED), "n", "o", ["n", "m", "o"])
  {
    var adj := AdjOf(CASCADED);
    assert "m" in Nbrs(adj, "n") && "o" in Nbrs(adj, "m");
  }

  lemma {:induction false} CostNonNegative(w: Weight, p: Path)
    requires NonNegative(w)
    ensures Cost(w, p) >= 0.0
  {
    if |p| >= 2 {
      CostNonNegative(w, p[..|p| - 1]);
    }
  }

  // ---- Segments ----

  datatype Segment = Segment(src: Id, dst: Id, link: Option<Id>, loss: real)

  function Segments(g: Graph, plant: Plant, p: Path): seq<Segment> {
    if |p| < 2 then []
    else
      var u, v := p[|p| - 2], p[|p| - 1];
      Segments(g, plant, p[..|p| - 1]) + [Segment(u, v, LinkOn(g, u, v), EdgeLoss(g, plant, u, v))]
  }

  function SumSegments(s: seq<Segment>): real {
    if s == [] then 0.0 else SumSegments(s[..|s| - 1]) + s[|s| - 1].loss
  }

  lemma {:induction false} SegmentsFollowPath(g: Graph, plant: Plant, p: Path)
    requires |p| > 0
    ensures |Segments(g, plant, p)| == |p| - 1 && SumSegments(Segments(g, plant, p)) == SegmentLoss(g, plant, p)
    ensures forall i :: 0 <= i < |p| - 1 ==>
      Segments(g, plant, p)[i] == Segment(p[i], p[i + 1], LinkOn(g, p[i], p[i + 1]), EdgeLoss(g, plant, p[i], p[i + 1]))
  {
    hide EdgeLoss, LinkOn;
    if |p| > 1 {
      var q := p[..|p| - 1];
      SegmentsFollowPath(g, plant, q);
      var s := Segments(g, plant, p);
      assert s[..|s| - 1] == Segments(g, plant, q);
    }
  }

  // ---- Choosing the OLT ----

  /** A candidate's sort key: attenuation, length, hops, OLT. */
  datatype Candidate = Candidate(loss: real, km: real, path: Path, olt: Id)

  predicate Ranks(a: Candidate, b: Candidate) {
    a.loss < b.loss ||
      (a.loss == b.loss &&
        (a.km < b.km || (a.km == b.km && (|a.path| < |b.path| || (|a.path| == |b.path| && IdLe(a.olt, b.olt))))))
  }

  lemma RanksTotal(a: Candidate, b: Candidate)
    ensures Ranks(a, b) || Ranks(b, a)
  {
    IdLtTotal(a.olt, b.olt);
  }

  lemma RanksTransitive(a: Candidate, b: Candidate, c: Candidate)
    requires Ranks(a, b) && Ranks(b, c)
    ensures Ranks(a, c)
  {
    if IdLt(a.olt, b.olt) && IdLt(b.olt, c.olt) { IdLtTransitive(a.olt, b.olt, c.olt); }
  }

  function PathKm(g: Graph, plant: Plant, p: Path): real {
    if |p| < 2 then 0.0 else PathKm(g, plant, p[..|p| - 1]) + EdgeKm(g, plant, p[|p| - 2], p[|p| - 1])
  }

  function CandidateFor(g: Graph, plant: Plant, p: Path, olt: Id): Candidate {
    Candidate(Cost(LossWeight(g, plant), p), PathKm(g, plant, p), p, olt)
  }

  method PickFirst(g: Graph, plant: Plant, paths: map<Id, Path>, olts: set<Id>) returns (c: Candidate)
    requires olts != {} && olts <= paths.Keys
    ensures c.olt in olts && c == CandidateFor(g, plant, paths[c.olt], c.olt)
    ensures forall o :: o in olts ==> Ranks(c, CandidateFor(g, plant, paths[o], o))
  {
    hide Ranks, CandidateFor;
    var o0 :| o0 in olts;
    c := CandidateFor(g, plant, paths[o0], o0);
    ghost var best := o0;
    var rest := olts - {o0};
    RanksTotal(c, c);
    while rest != {}
      invariant best in olts && c == CandidateFor(g, plant, paths[best], best)
      invariant forall o :: o in olts - rest ==> Ranks(c, CandidateFor(g, plant, paths[o], o))
      decreases rest
    {
      var o :| o in rest;
      var c' := CandidateFor(g, plant, paths[o], o);
      RanksTotal(c, c');
      if !Ranks(c, c') {
        forall x | x in olts - rest ensures Ranks(c', CandidateFor(g, plant, paths[x], x)) {
          RanksTransitive(c', c, CandidateFor(g, plant, paths[x], x));
        }
        RanksTotal(c', c');
        c, best := c', o;
      }
      rest := rest - {o};
    }
    CandidateOlt(g, plant, paths[best], best);
  }

  lemma CandidateOlt(g: Graph, plant: Plant, p: Path, olt: Id)
    ensures CandidateFor(g, plant, p, olt).olt == olt
  {
  }

  datatype Resolved = Resolved(olt: Id, total: real, segments: seq<Segment>)

  /** What a resolved path means: the cheapest walk to any OLT, and a total that its parts explain. */
  ghost predicate Explains(g: Graph, plant: Plant, ont: Id, r: Resolved, p: Path) {
    && r.olt in OltsOf(g.nodes) && IsWalkFrom(AdjOf(g), ont, r.olt, p)
    && r.total == Cost(LossWeight(g, plant), p) && r.segments == Segments(g, plant, p)
    && r.total == SumSegments(r.segments) + PassiveLoss(g, plant, Interior(p))
    && (forall o, q :: o in OltsOf(g.nodes) && IsWalkFrom(AdjOf(g), ont, o, q) ==>
      r.total <= Cost(LossWeight(g, plant), q))
  }

  ghost predicate ReachesOlt(g: Graph, ont: Id) {
    ont in g.nodes && exists o :: o in OltsOf(g.nodes) && Reachable(AdjOf(g), ont, o)
  }

  /** One cheapest path for each OLT in reach, and `c` first among them by attenuation, length, hops and OLT id. */
  ghost predicate ChosenAmong(g: Graph, plant: Plant, ont: Id, paths: map<Id, Path>, c: Candidate) {
    && (forall v :: v in paths <==> Reachable(AdjOf(g), ont, v))
    && (forall v :: v in paths ==> IsCheapest(AdjOf(g), LossWeight(g, plant), ont, v, paths[v]))
    && c.olt in paths && c.olt in OltsOf(g.nodes) && c == CandidateFor(g, plant, paths[c.olt], c.olt)
    && (forall o :: o in paths && o in OltsOf(g.nodes) ==> Ranks(c, CandidateFor(g, plant, paths[o], o)))
  }

  /** Failed stands for the error that contradictory weights raise. */
  datatype Outcome = Failed | Answer(result: Option<Resolved>)

  /** What the graph library finds: cheapest paths to all nodes in reach, or an error. */
  type Finding = Option<map<Id, Path>>

  /** The library's choice among equally cheap paths is its own, but it is a function of its inputs. */
  type Library = (Graph, Plant, Id) -> Finding

  function ResolvedAt(g: Graph, plant: Plant, p: Path, olt: Id): Resolved {
    Resolved(olt, Cost(LossWeight(g, plant), p), Segments(g, plant, p))
  }

  /** The outcome of a resolution for which the library found `found`. */
  ghost predicate ResolvesBy(g: Graph, plant: Plant, ont: Id, found: Finding, out: Outcome) {
    if ont !in g.nodes then out == Answer(None)
    else if found.None? then out == Failed && !NoGain(plant)
    else out.Answer? && if out.result.None? then !ReachesOlt(g, ont)
      else IsPick(g, plant, ont, found.value, out.result.value)
  }

  ghost predicate IsPick(g: Graph, plant: Plant, ont: Id, paths: map<Id, Path>, r: Resolved) {
    && ReachesOlt(g, ont) && r.olt in paths && r == ResolvedAt(g, plant, paths[r.olt], r.olt)
    && ChosenAmong(g, plant, ont, paths, CandidateFor(g, plant, paths[r.olt], r.olt))
  }

  /** `resolve_optical_path` on the optical graph; only a negative loss can make it fail. */
  method ResolvePath(g: Graph, plant: Plant, ont: Id) returns (out: Outcome, ghost p: Path, ghost found: Finding)
    ensures ResolvesBy(g, plant, ont, found, out)
    ensures out.Failed? ==> !NoGain(plant)
    ensures out.Answer? ==> (out.result.Some? <==> ReachesOlt(g, ont))
    ensures out.Answer? && out.result.Some? ==> Explains(g, plant, ont, out.result.value, p)
  {
    hide *;
    p, found := [], None;
    if ont !in g.nodes {
      AbsentResolves(g, plant, ont);
      return Answer(None), [], None;
    }
    var w := LossWeight(g, plant);
    GraphClosed(g);
    var r := SignedSearch.Search(AdjOf(g), ont, w);
    found := r;
    if r.None? {
      FailureResolves(g, plant, ont);
      return Failed, [], None;
    }
    var olts := r.value.Keys * OltsOf(g.nodes);
    if olts == {} {
      NoOltResolves(g, plant, ont, r.value);
      return Answer(None), [], found;
    }
    var c := PickFirst(g, plant, r.value, olts);
    p := c.path;
    out := Answer(Some(Resolved(c.olt, c.loss, Segments(g, plant, c.path))));
    PickResolves(g, plant, ont, r.value, c);
  }

  lemma AbsentResolves(g: Graph, plant: Plant, ont: Id)
    requires ont !in g.nodes
    ensures ResolvesBy(g, plant, ont, None, Answer(None)) && !ReachesOlt(g, ont)
  {
  }

  lemma FailureResolves(g: Graph, plant: Plant, ont: Id)
    requires ont in g.nodes && !NonNegative(LossWeight(g, plant))
    ensures ResolvesBy(g, plant, ont, None, Failed) && !NoGain(plant)
  {
    hide NoGain;
    if NoGain(plant) { LossNonNegative(g, plant); }
  }

  lemma NoOltResolves(g: Graph, plant: Plant, ont: Id, paths: map<Id, Path>)
    requires ont in g.nodes && paths.Keys * OltsOf(g.nodes) == {}
    requires forall v :: v in paths <==> Reachable(AdjOf(g), ont, v)
    ensures ResolvesBy(g, plant, ont, Some(paths), Answer(None)) && !ReachesOlt(g, ont)
  {
    hide OltsOf, AdjOf, Reachable;
    assert forall o :: o in OltsOf(g.nodes) && o in paths ==> o in paths.Keys * OltsOf(g.nodes);
  }

  lemma PickResolves(g: Graph, plant: Plant, ont: Id, paths: map<Id, Path>, c: Candidate)
    requires ont in g.nodes && (forall v :: v in paths <==> Reachable(AdjOf(g), ont, v))
    requires forall v :: v in paths ==> IsCheapest(AdjOf(g), LossWeight(g, plant), ont, v, paths[v])
    requires c.olt in paths.Keys * OltsOf(g.nodes) && c == CandidateFor(g, plant, paths[c.olt], c.olt)
    requires forall o :: o in paths.Keys * OltsOf(g.nodes) ==> Ranks(c, CandidateFor(g, plant, paths[o], o))
    ensures var r := Resolved(c.olt, c.loss, Segments(g, plant, c.path));
      ReachesOlt(g, ont) && ResolvesBy(g, plant, ont, Some(paths), Answer(Some(r))) &&
        Explains(g, plant, ont, r, c.path)
  {
    hide Segments, LossWeight, IsCheapest, Ranks, OltsOf, AdjOf, Reachable, Explains, PathKm, Cost;
    assert ChosenAmong(g, plant, ont, paths, c);
    ChosenExplains(g, plant, ont, paths, c);
  }

  lemma RanksAntisymmetric(a: Candidate, b: Candidate)
    requires Ranks(a, b) && Ranks(b, a)
    ensures a.olt == b.olt
  {
    IdLtTotal(a.olt, b.olt);
  }

  /** What the library finds determines the whole outcome, OLT and segments included. */
  lemma FindingDecides(g: Graph, plant: Plant, ont: Id, found: Finding, out: Outcome, out': Outcome)
    requires ResolvesBy(g, plant, ont, found, out) && ResolvesBy(g, plant, ont, found, out')
    ensures out == out'
  {
    hide ReachesOlt, NoGain, Ranks, ResolvedAt, CandidateFor, IsCheapest;
    if ont in g.nodes && found.Some? && out.result.Some? && out'.result.Some? {
      var r, r', paths := out.result.value, out'.result.value, found.value;
      var c, c' := CandidateFor(g, plant, paths[r.olt], r.olt), CandidateFor(g, plant, paths[r'.olt], r'.olt);
      CandidateOlt(g, plant, paths[r.olt], r.olt);
      CandidateOlt(g, plant, paths[r'.olt], r'.olt);
      assert Ranks(c, c') && Ranks(c', c);
      RanksAntisymmetric(c, c');
    }
  }

  /** A pick is explained by the path the library found to its OLT. */
  lemma PickExplains(g: Graph, plant: Plant, ont: Id, paths: map<Id, Path>, r: Resolved)
    requires IsPick(g, plant, ont, paths, r)
    ensures Explains(g, plant, ont, r, paths[r.olt])
  {
    hide ChosenAmong, Explains, ReachesOlt;
    ChosenExplains(g, plant, ont, paths, CandidateFor(g, plant, paths[r.olt], r.olt));
  }

  /** The attenuation does not depend on which of several cheapest paths was found. */
  lemma SameTotal(g: Graph, plant: Plant, ont: Id, r: Resolved, p: Path, r': Resolved, p': Path)
    requires Explains(g, plant, ont, r, p) && Explains(g, plant, ont, r', p')
    ensures r.total == r'.total
  {
    hide IsWalkFrom, AdjOf, OltsOf, LossWeight, Cost, Segments, SumSegments, PassiveLoss, Interior;
  }

  lemma ChosenExplains(g: Graph, plant: Plant, ont: Id, paths: map<Id, Path>, c: Candidate)
    requires ChosenAmong(g, plant, ont, paths, c)
    ensures Explains(g, plant, ont, Resolved(c.olt, c.loss, Segments(g, plant, c.path)), c.path)
  {
    var w := LossWeight(g, plant);
    assert IsCheapest(AdjOf(g), w, ont, c.olt, c.path);
    CostToOlt(g, plant, c.path);
    SegmentsFollowPath(g, plant, c.path);
    hide IsWalkFrom, AdjOf, OltsOf, LossWeight, Cost, SegmentLoss, PassiveLoss, Segments, SumSegments, Interior, PathKm;
    forall o, q | o in OltsOf(g.nodes) && IsWalkFrom(AdjOf(g), ont, o, q) ensures c.loss <= Cost(w, q) {
      assert Reachable(AdjOf(g), ont, o);
      assert IsCheapest(AdjOf(g), w, ont, o, paths[o]);
      assert Ranks(c, CandidateFor(g, plant, paths[o], o));
    }
  }

  // ---- Attenuation, length and rank, read off the rows ----

  /** The row of the link that an edge stands for. */
  ghost function RowOf(g: Graph, plant: Plant, u: Id, v: Id): Option<Fiber> {
    if (u, v) in g.edges && g.edges[(u, v)].id != "" && g.edges[(u, v)].id in plant.fibers
    then Some(plant.fibers[g.edges[(u, v)].id]) else None
  }

  /** Length times attenuation per km, where the row has both. */
  ghost function RowLoss(row: Option<Fiber>): real {
    match row
    case Some(Fiber(Some(km), Some(perKm))) => km * perKm
    case _ => 0.0
  }

  ghost function RowKm(row: Option<Fiber>): real {
    match row
    case Some(Fiber(Some(km), _)) => km
    case _ => 0.0
  }

  /** What the light loses on entering a passive device. */
  ghost function RowInsertion(g: Graph, plant: Plant, v: Id): real {
    if v in g.nodes && g.nodes[v] in {SPLITTER, HOP, NVT, ODF} && v in plant.insertion then plant.insertion[v] else 0.0
  }

  /** Summed over the hops, from the ONT onwards. */
  ghost function Attenuation(g: Graph, plant: Plant, p: Path): real {
    if |p| < 2 then 0.0
    else RowLoss(RowOf(g, plant, p[0], p[1])) + RowInsertion(g, plant, p[1]) + Attenuation(g, plant, p[1..])
  }

  ghost function Kilometres(g: Graph, plant: Plant, p: Path): real {
    if |p| < 2 then 0.0 else RowKm(RowOf(g, plant, p[0], p[1])) + Kilometres(g, plant, p[1..])
  }

  lemma HopMeans(g: Graph, plant: Plant, u: Id, v: Id)
    ensures LossWeight(g, plant)(u, v) == RowLoss(RowOf(g, plant, u, v)) + RowInsertion(g, plant, v)
    ensures EdgeKm(g, plant, u, v) == RowKm(RowOf(g, plant, u, v))
    ensures EdgeLoss(g, plant, u, v) == RowLoss(RowOf(g, plant, u, v))
  {
  }

  lemma {:induction false} AttenuationSnoc(g: Graph, plant: Plant, p: Path, v: Id)
    requires p != []
    ensures Attenuation(g, plant, p + [v]) == Attenuation(g, plant, p) +
      (RowLoss(RowOf(g, plant, p[|p| - 1], v)) + RowInsertion(g, plant, v))
    ensures Kilometres(g, plant, p + [v]) == Kilometres(g, plant, p) + RowKm(RowOf(g, plant, p[|p| - 1], v))
  {
    hide RowLoss, RowKm, RowOf, RowInsertion;
    if |p| == 1 {
      assert (p + [v])[1..] == [v];
    } else {
      AttenuationSnoc(g, plant, p[1..], v);
      assert (p + [v])[1..] == p[1..] + [v];
    }
  }

  /** The reported attenuation and the length that breaks ties, summed hop by hop over the rows. */
  lemma {:induction false} AttenuationMeans(g: Graph, plant: Plant, p: Path)
    ensures Cost(LossWeight(g, plant), p) == Attenuation(g, plant, p) && PathKm(g, plant, p) == Kilometres(g, plant, p)
  {
    hide LossWeight, RowLoss, RowKm, RowOf, RowInsertion, EdgeKm;
    if |p| >= 2 {
      var q := p[..|p| - 1];
      AttenuationMeans(g, plant, q);
      HopMeans(g, plant, p[|p| - 2], p[|p| - 1]);
      AttenuationSnoc(g, plant, q, p[|p| - 1]);
      assert q + [p[|p| - 1]] == p;
    }
  }

  /** Less attenuation; then fewer kilometres; then fewer hops; then the smaller OLT id. */
  lemma RanksMeans(a: Candidate, b: Candidate)
    ensures Ranks(a, b) <==>
      if a.loss != b.loss then a.loss < b.loss
      else if a.km != b.km then a.km < b.km
      else if |a.path| != |b.path| then |a.path| < |b.path|
      else a.olt == b.olt || IdLt(a.olt, b.olt)
  {
  }

  /** A resolution on the rows: the path it took, its attenuation, and the row behind each segment. */
  lemma ResolutionMeans(g: Graph, plant: Plant, ont: Id, r: Resolved, p: Path)
    requires Explains(g, plant, ont, r, p)
    ensures r.olt in g.nodes && g.nodes[r.olt] == DeviceType.OLT && |p| > 0 && p[0] == ont && p[|p| - 1] == r.olt
    ensures r.total == Attenuation(g, plant, p) && |r.segments| == |p| - 1
    ensures forall i :: 0 <= i < |p| - 1 ==>
      var s := r.segments[i];
      s.src == p[i] && s.dst == p[i + 1] && s.loss == RowLoss(RowOf(g, plant, p[i], p[i + 1])) &&
      (p[i], p[i + 1]) in g.edges &&
      s.link == if g.edges[(p[i], p[i + 1])].id == "" then None else Some(g.edges[(p[i], p[i + 1])].id)
  {
    AttenuationMeans(g, plant, p);
    SegmentsFollowPath(g, plant, p);
    hide Attenuation, Cost, LossWeight, RowLoss, RowOf, EdgeLoss, Segments, SumSegments, PassiveLoss, AdjOf;
    forall i | 0 <= i < |p| - 1
      ensures EdgeLoss(g, plant, p[i], p[i + 1]) == RowLoss(RowOf(g, plant, p[i], p[i + 1]))
      ensures HasEdge(g, p[i], p[i + 1])
    {
      HopMeans(g, plant, p[i], p[i + 1]);
      WalkEdge(g, p, i);
    }
  }

  lemma WalkEdge(g: Graph, p: Path, i: nat)
    requires IsWalk(AdjOf(g), p) && i < |p| - 1
    ensures HasEdge(g, p[i], p[i + 1])
  {
    assert p[i + 1] in Nbrs(AdjOf(g), p[i]);
  }
}
