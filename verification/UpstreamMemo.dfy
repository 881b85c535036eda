/**
 The versioned memo of upstream verdicts (backend/services/dependency_resolver_core.py).  An evaluation is
 three steps: it looks the device up, computes on a miss, and stores into whatever map is current by then.
 */
module UpstreamMemo {
  import opened Types
  import opened Order
  import opened Graphs
  import opened Topology
  import opened LogicalGraph
  import opened L3Trace
  import opened Upstream
  import opened Samples

  /** Verdicts keyed by device, meant for one topology version. */
  datatype Memo = Memo(version: int, entries: map<Id, UpstreamResult>)

  /** A verdict, the version at which it was computed, and whether a commit was then waiting for its bump. */
  datatype Computed = Computed(at: nat, ahead: bool, verdict: UpstreamResult)

  datatype Eval = Eval(device: Id, computed: Option<Computed>)

  /**
   `dbs[v]` is the database that version `v` stands for; `ahead` is the database after commits that have
   not bumped the version yet.
   */
  datatype World = World(dbs: seq<Db>, ahead: Option<Db>, memo: Memo, evals: map<nat, Eval>)

  datatype Step =
    | Commit(db: Db)
    | Bump
    | Hit(device: Id, served: UpstreamResult)
    | Miss(id: nat, device: Id)
    | Compute(id: nat, verdict: UpstreamResult)
    | Store(id: nat)

  function Now(w: World): int {
    |w.dbs| - 1
  }

  /** The committed database, which an evaluation reads. */
  function Live(w: World): Db
    requires |w.dbs| > 0
  {
    if w.ahead.Some? then w.ahead.value else w.dbs[|w.dbs| - 1]
  }

  function LookUp(m: Memo, v: int): Memo {
    if m.version != v then Memo(v, map[]) else m
  }

  /** `_UPSTREAM_CACHE`; each method body is one locked section. */
  class UpstreamCache {
    var version: int
    var entries: map<Id, UpstreamResult>

    function Abs(): Memo
      reads this
    {
      Memo(version, entries)
    }

    constructor ()
      ensures Abs() == Memo(-1, map[])
    {
      version, entries := -1, map[];
    }

    method Find(v: int, d: Id) returns (r: Option<UpstreamResult>)
      modifies this
      ensures Abs() == LookUp(old(Abs()), v)
      ensures r == if d in entries then Some(entries[d]) else None
    {
      if version != v {
        version, entries := v, map[];
      }
      r := if d in entries then Some(entries[d]) else None;
    }

    method Put(d: Id, u: UpstreamResult)
      modifies this
      ensures Abs() == old(Abs()).(entries := old(entries)[d := u])
    {
      entries := entries[d := u];
    }
  }

  predicate Ready(w: World, id: nat) {
    id in w.evals && w.evals[id].computed.Some?
  }

  function AfterStore(w: World, id: nat): World
    requires Ready(w, id)
  {
    var e := w.evals[id];
    w.(memo := w.memo.(entries := w.memo.entries[e.device := e.computed.value.verdict]), evals := w.evals - {id})
  }

  ghost predicate Takes(w: World, s: Step, w': World) {
    |w.dbs| > 0 &&
    match s
    case Commit(db) => w' == w.(ahead := Some(db))
    case Bump => w' == w.(dbs := w.dbs + [Live(w)], ahead := None)
    case Hit(d, u) =>
      var m := LookUp(w.memo, Now(w));
      d in m.entries && u == m.entries[d] && w' == w.(memo := m)
    case Miss(id, d) =>
      var m := LookUp(w.memo, Now(w));
      d !in m.entries && id !in w.evals && w' == w.(memo := m, evals := w.evals[id := Eval(d, None)])
    case Compute(id, u) =>
      && id in w.evals && w.evals[id].computed.None? && IsUpstreamVerdict(Live(w), w.evals[id].device, u)
      && w' == w.(evals := w.evals[id := w.evals[id].(computed := Some(Computed(Now(w), w.ahead.Some?, u)))])
    case Store(id) => Ready(w, id) && w' == AfterStore(w, id)
  }

  ghost predicate RightAt(w: World, v: int, d: Id, u: UpstreamResult) {
    0 <= v < |w.dbs| && IsUpstreamVerdict(w.dbs[v], d, u)
  }

  /** A verdict computed with no commit waiting is right for its version, and the memo is not ahead of the topology. */
  ghost predicate Honest(w: World) {
    && |w.dbs| > 0 && w.memo.version <= Now(w)
    && (forall id :: Ready(w, id) ==> HonestEval(w, w.evals[id].device, w.evals[id].computed.value))
  }

  ghost predicate HonestEval(w: World, d: Id, c: Computed) {
    c.at < |w.dbs| && (!c.ahead ==> RightAt(w, c.at, d, c.verdict))
  }

  /** A memo of the current version holds verdicts right for it; an older one is dropped before it is read. */
  ghost predicate Fresh(w: World) {
    w.memo.version == Now(w) ==> forall d :: d in w.memo.entries ==> RightAt(w, Now(w), d, w.memo.entries[d])
  }

  /** The map is of an older version, or the verdict is of the current one and of no commit beyond it. */
  predicate InTime(w: World, id: nat) {
    && Ready(w, id)
    && (w.memo.version == Now(w) ==> w.evals[id].computed.value.at == Now(w) && !w.evals[id].computed.value.ahead)
  }

  /** Stores are in time, and hits come with no commit waiting for its bump. */
  predicate Careful(w: World, s: Step) {
    (s.Store? ==> InTime(w, s.id)) && (s.Hit? ==> w.ahead.None?)
  }

  lemma StepHonest(w: World, s: Step, w': World)
    requires Honest(w) && Takes(w, s, w')
    ensures Honest(w')
  {
    hide IsUpstreamVerdict;
  }

  lemma StepFresh(w: World, s: Step, w': World)
    requires Honest(w) && Fresh(w) && Takes(w, s, w') && Careful(w, s)
    ensures Fresh(w')
    ensures s.Hit? ==> IsUpstreamVerdict(Live(w), s.device, s.served)
  {
    hide IsUpstreamVerdict;
  }

  ghost predicate IsRun(ws: seq<World>, steps: seq<Step>) {
    && |ws| == |steps| + 1 && |ws[0].dbs| > 0 && ws[0] == World(ws[0].dbs, None, Memo(-1, map[]), map[])
    && forall i :: 0 <= i < |steps| ==> Takes(ws[i], steps[i], ws[i + 1])
  }

  ghost predicate CarefulRun(ws: seq<World>, steps: seq<Step>) {
    forall i :: 0 <= i < |steps| && i < |ws| ==> Careful(ws[i], steps[i])
  }

  lemma {:induction false} RunFresh(ws: seq<World>, steps: seq<Step>, n: nat)
    requires IsRun(ws, steps) && CarefulRun(ws, steps) && n <= |steps|
    ensures Honest(ws[n]) && Fresh(ws[n])
  {
    hide Takes, Honest, Fresh, Careful;
    if n == 0 {
      StartFresh(ws[0]);
    } else {
      RunFresh(ws, steps, n - 1);
      assert Takes(ws[n - 1], steps[n - 1], ws[n - 1 + 1]) && Careful(ws[n - 1], steps[n - 1]);
      StepHonest(ws[n - 1], steps[n - 1], ws[n]);
      StepFresh(ws[n - 1], steps[n - 1], ws[n]);
    }
  }

  lemma StartFresh(w: World)
    requires |w.dbs| > 0 && w == World(w.dbs, None, Memo(-1, map[]), map[])
    ensures Honest(w) && Fresh(w)
  {
  }

  /**
   If every store is in time and no hit comes between a commit and its bump, each hit serves the verdict
   that any fresh evaluation of the committed database would give.
   */
  lemma RunServesRight(ws: seq<World>, steps: seq<Step>, i: nat, u: UpstreamResult)
    requires IsRun(ws, steps) && CarefulRun(ws, steps) && i < |steps| && steps[i].Hit?
    requires |ws[i].dbs| > 0 && IsUpstreamVerdict(Live(ws[i]), steps[i].device, u)
    ensures SameVerdict(steps[i].served, u)
  {
    hide Honest, Fresh, IsUpstreamVerdict, SameVerdict, Takes, Careful;
    RunFresh(ws, steps, i);
    assert Takes(ws[i], steps[i], ws[i + 1]) && Careful(ws[i], steps[i]);
    StepFresh(ws[i], steps[i], ws[i + 1]);
    VerdictsAgree(Live(ws[i]), steps[i].device, steps[i].served, u);
  }

  // ---- A verdict that changes ----

  function Switched(forced: Option<Status>): Db {
    Db(Topology(map["n" := Row(AON_SWITCH, None), "b" := Row(BACKBONE_GATEWAY, None)],
                map["x" := Port("n"), "y" := Port("b")],
                map["L" := Wire("x", "y", forced)]),
       ["x", "y"], ["L"], [], [], [], 1)
  }

  const LINKED := Switched(None)
  const CUT := Switched(Some(DOWN))
  const UPLINKED := Found("b", ["n", "b"])
  const UPLINK := LinkRecord("L", "n", "b", LinkKind.FIBER)
  const UPLINK_GRAPH := Graph(map["n" := AON_SWITCH, "b" := BACKBONE_GATEWAY],
                              map[("n", "b") := EdgeAttr("L", false), ("b", "n") := EdgeAttr("L", false)])

  lemma LinkedRecord()
    ensures CollectOne(LINKED.topo, "L") == Some(UPLINK)
  {
  }

  lemma CutRecord()
    ensures CollectOne(CUT.topo, "L") == None
  {
  }

  lemma SwitchedNodes(forced: Option<Status>)
    ensures LogicalNodes(AllowedDevices(Switched(forced).topo)) == UPLINK_GRAPH.nodes
    ensures AllowedDevices(Switched(forced).topo).Keys == {"n", "b"}
    ensures forall d :: d in AllowedDevices(Switched(forced).topo) ==>
      !IsOntType(AllowedDevices(Switched(forced).topo)[d])
  {
    hide AllowedDevices, Switched;
    AllAllowed(forced);
  }

  lemma AllAllowed(forced: Option<Status>)
    ensures AllowedDevices(Switched(forced).topo) == UPLINK_GRAPH.nodes
  {
    var t := Switched(forced).topo;
    assert forall d :: d in t.devices <==> d == "n" || d == "b";
  }

  lemma SwitchedRecords()
    ensures RecordsOf(LINKED.topo, LINKED.linkRows) == [UPLINK] && RecordsOf(CUT.topo, CUT.linkRows) == []
  {
    hide CollectOne, Recorded, RecordsOf;
    LinkedRecord();
    CutRecord();
    OneRecord(LINKED.topo, "L");
    OneRecord(CUT.topo, "L");
  }

  lemma OneRecord(t: Topology, id: Id)
    requires id in t.links
    ensures RecordsOf(t, [id]) == if CollectOne(t, id).Some? then [CollectOne(t, id).value] else []
  {
    hide CollectOne, Recorded;
    assert [id][..0] == [];
    assert RecordsOf(t, []) == [];
  }

  lemma NoOntNoContraction(devices: Devices, links: seq<LinkRecord>, u: Id, v: Id)
    requires forall d :: d in devices ==> !IsOntType(devices[d])
    ensures !Contracts(devices, links, u, v)
  {
  }

  lemma UplinkGraphIsLogical(devices: Devices)
    requires LogicalNodes(devices) == UPLINK_GRAPH.nodes && forall d :: d in devices ==> !IsOntType(devices[d])
    ensures IsLogicalGraph(devices, [UPLINK], false, UPLINK_GRAPH)
  {
    var g, links := UPLINK_GRAPH, [UPLINK];
    forall u, v { NoOntNoContraction(devices, links, u, v); }
    hide Contracts, LogicalNodes;
    assert WellFormed(g);
    forall u, v ensures HasEdge(g, u, v) <==> EdgeFromLink(LOGICAL_KINDS, g.nodes, links, u, v) {
      assert UPLINK in links;
      assert IsEdgeLink(LOGICAL_KINDS, g.nodes, UPLINK, u, v) <==> HasEdge(g, u, v);
    }
    forall u, v | HasEdge(g, u, v) ensures IsLabel(LOGICAL_KINDS, g.nodes, links, u, v, AttrOf(g, u, v)) {
      assert IsLastLink(LOGICAL_KINDS, g.nodes, links, u, v, 0);
    }
    hide EdgeFromLink, IsLabel, HasEdge, AttrOf, WellFormed;
  }

  lemma GatewayTraces(db: Db)
    requires "b" in db.topo.devices && db.topo.devices["b"] == Row(BACKBONE_GATEWAY, None)
    ensures TraceOk(db, "b") && Tail(db, "b") == []
  {
    assert NextHop(db, "b") == Arrived;
    assert Trace(db, "b") == Reached(["b"]);
  }

  lemma LinkedIsFound()
    ensures IsUpstreamVerdict(LINKED, "n", UPLINKED)
  {
    SwitchedRecords();
    SwitchedNodes(None);
    assert RowsKnown(LINKED);
    hide AllowedDevices, RecordsOf, LogicalNodes;
    UplinkGraphIsLogical(AllowedDevices(LINKED.topo));
    assert IsUpstreamGraph(LINKED, UPLINK_GRAPH);
    GatewayTraces(LINKED);
    hide IsUpstreamGraph, TraceOk, Tail;
    UplinkChain(LINKED);
  }

  lemma UplinkChain(db: Db)
    requires TraceOk(db, "b") && Tail(db, "b") == []
    ensures IsAccessVerdict(db, UPLINK_GRAPH, "n", UPLINKED)
  {
    hide TraceOk, Tail;
    var g, c := UPLINK_GRAPH, ["n", "b"];
    assert IsWalkFrom(AdjOf(g), "n", "b", c);
    assert Reachable(AdjOf(g), "n", "b");
    forall q | IsWalkFrom(AdjOf(g), "n", "b", q) ensures |q| >= 2 {
    }
    assert RouterInReach(g, "n", "b");
    assert c + [] == c;
    assert JoinsTrace(db, g, "n", "b", c, c);
    assert IsChainVia(db, g, "n", "b", c);
    forall r, p | RouterInReach(g, "n", r) && TraceOk(db, r) && IsWalkFrom(AdjOf(g), "n", r, p)
      ensures |c| <= |p| + |Tail(db, r)|
    {
      assert r == "b";
    }
  }

  lemma CutIsNotFound()
    ensures !IsUpstreamVerdict(CUT, "n", UPLINKED)
  {
    hide IsUpstreamGraph;
    forall g | IsUpstreamGraph(CUT, g) ensures !IsAccessVerdict(CUT, g, "n", UPLINKED) {
      CutGraphIsEmpty(g);
      NothingInReach(CUT, g);
    }
    hide IsAccessVerdict;
  }

  lemma NothingInReach(db: Db, g: Graph)
    requires g.nodes == UPLINK_GRAPH.nodes && forall u, v :: v !in Nbrs(AdjOf(g), u)
    ensures !IsAccessVerdict(db, g, "n", UPLINKED)
  {
    hide TraceOk, AdjOf, NoneShorter;
    forall r ensures !IsChainVia(db, g, "n", r, UPLINKED.chain) {
      if RouterInReach(g, "n", r) {
        NoEdgesNoWalk(AdjOf(g), "n", r);
      }
    }
    hide IsChainVia;
  }

  lemma CutGraphIsEmpty(g: Graph)
    requires IsUpstreamGraph(CUT, g)
    ensures g.nodes == UPLINK_GRAPH.nodes && forall u, v :: v !in Nbrs(AdjOf(g), u)
  {
    hide AllowedDevices, RecordsOf, LogicalNodes, Recorded, ProjectionEdge, ProjectionLabel;
    SwitchedRecords();
    SwitchedNodes(Some(DOWN));
    NoRecordsNoEdges(AllowedDevices(CUT.topo), g);
  }

  lemma NoRecordsNoEdges(devices: Devices, g: Graph)
    requires IsLogicalGraph(devices, [], false, g) && forall d :: d in devices ==> !IsOntType(devices[d])
    ensures forall u, v :: v !in Nbrs(AdjOf(g), u)
  {
    hide Contracts, ProjectionLabel, LogicalNodes, WellFormed;
    forall u, v ensures v !in Nbrs(AdjOf(g), u) {
      NoOntNoContraction(devices, [], u, v);
      NoOntNoContraction(devices, [], v, u);
      assert !ProjectionEdge(devices, [], false, u, v);
      assert !HasEdge(g, u, v);
    }
  }

  // ---- When a store is safe ----

  /**
   What a store does: a verdict of version `v`, computed with or without a commit waiting, goes into a map of
   version `m`.
   */
  ghost predicate Stores(w: World, id: nat, v: nat, ahead: bool, m: nat, now: int) {
    && Honest(w) && Now(w) == now && w.memo.version == m && Ready(w, id)
    && w.evals[id].computed.value.at == v && w.evals[id].computed.value.ahead == ahead
  }

  ghost predicate StoreIsSafe(v: nat, ahead: bool, m: nat, now: nat) {
    forall w, id :: Stores(w, id, v, ahead, m, now) && Fresh(w) ==> Fresh(AfterStore(w, id))
  }

  /** The database was `LINKED` at version `v` and is `CUT` at every other one. */
  function Flip(v: nat, now: nat): seq<Db> {
    seq(now + 1, i => if i == v then LINKED else CUT)
  }

  /** A world in which evaluation 0 has found the device connected, at version `v` or beyond it. */
  function Found0(dbs: seq<Db>, m: nat, v: nat, ahead: bool): World {
    World(dbs, None, Memo(m, map[]), map[0 := Eval("n", Some(Computed(v, ahead, UPLINKED)))])
  }

  /**
   Safe in every world exactly when the map is of an older version, or the verdict is of the current
   version and of no commit beyond it.
   */
  lemma StoreIsSafeIff(v: nat, ahead: bool, m: nat, now: nat)
    requires v <= now && m <= now
    ensures StoreIsSafe(v, ahead, m, now) <==> (m == now ==> v == now && !ahead)
  {
    hide IsUpstreamVerdict;
    if m == now && (v != now || ahead) {
      LinkedIsFound();
      CutIsNotFound();
      var dbs := if v == now then seq(now + 1, i => CUT) else Flip(v, now);
      var w := Found0(dbs, m, v, ahead);
      assert Stores(w, 0, v, ahead, m, now) && Fresh(w);
      var w' := AfterStore(w, 0);
      assert "n" in w'.memo.entries && !RightAt(w', now, "n", w'.memo.entries["n"]);
      assert !Fresh(w');
    }
  }

  /** Every entry is right for the version the memo is labelled with, whether or not it can still be served. */
  ghost predicate Labelled(w: World) {
    forall d :: d in w.memo.entries ==> RightAt(w, w.memo.version, d, w.memo.entries[d])
  }

  ghost predicate StoreKeepsLabels(v: nat, ahead: bool, m: nat) {
    forall w, id :: Stores(w, id, v, ahead, m, Now(w)) && Labelled(w) ==> Labelled(AfterStore(w, id))
  }

  /** The label stays true in every world exactly when the verdict was computed for the label's version. */
  lemma StoreKeepsLabelsIff(v: nat, ahead: bool, m: nat)
    ensures StoreKeepsLabels(v, ahead, m) <==> v == m && !ahead
  {
    hide IsUpstreamVerdict;
    if v != m || ahead {
      LinkedIsFound();
      CutIsNotFound();
      var dbs := if v == m then seq(m + 1, i => CUT) else Flip(v, v + m);
      var w := Found0(dbs, m, v, ahead);
      assert Stores(w, 0, v, ahead, m, Now(w)) && Labelled(w);
      var w' := AfterStore(w, 0);
      assert "n" in w'.memo.entries && !RightAt(w', m, "n", w'.memo.entries["n"]);
      assert !Labelled(w');
    }
  }

  /** A hit on a fresh memo, with or without a commit waiting for its bump. */
  ghost predicate HitIsSafe(waiting: bool) {
    forall w, d, u, w' :: Honest(w) && Fresh(w) && w.ahead.Some? == waiting && Takes(w, Hit(d, u), w') ==>
      IsUpstreamVerdict(Live(w), d, u)
  }

  /** A hit serves what the committed database says, in every world, exactly when no commit is waiting for its bump. */
  lemma HitIsSafeIff(waiting: bool)
    ensures HitIsSafe(waiting) <==> !waiting
  {
    hide IsUpstreamVerdict;
    if waiting {
      LinkedIsFound();
      CutIsNotFound();
      var w := World([LINKED], Some(CUT), Memo(0, map["n" := UPLINKED]), map[]);
      assert Honest(w) && Fresh(w) && Takes(w, Hit("n", UPLINKED), w) && Live(w) == CUT;
    } else {
      forall w, d, u, w' | Honest(w) && Fresh(w) && w.ahead.None? && Takes(w, Hit(d, u), w')
        ensures IsUpstreamVerdict(Live(w), d, u)
      {
        StepFresh(w, Hit(d, u), w');
      }
    }
  }

  // ---- Runs that serve a stale verdict ----

  /** Looked up, computed and stored at version 0. */
  lemma FirstEvaluation(db: Db, d: Id, u: UpstreamResult) returns (w0: World, w1: World, w2: World)
    requires IsUpstreamVerdict(db, d, u)
    ensures w0 == World([db], None, Memo(-1, map[]), map[])
    ensures w2 == World([db], None, Memo(0, map[]), map[0 := Eval(d, Some(Computed(0, false, u)))])
    ensures Takes(w0, Miss(0, d), w1) && Takes(w1, Compute(0, u), w2)
  {
    hide IsUpstreamVerdict;
    w0 := World([db], None, Memo(-1, map[]), map[]);
    w1 := w0.(memo := Memo(0, map[]), evals := map[0 := Eval(d, None)]);
    w2 := w1.(evals := map[0 := Eval(d, Some(Computed(0, false, u)))]);
  }

  /** Looked up, computed, stored, and the database changed: before the bump a hit serves the old verdict. */
  lemma CommitBeforeBumpIsServed(before: Db, after: Db, d: Id, u: UpstreamResult)
    returns (ws: seq<World>, steps: seq<Step>)
    requires IsUpstreamVerdict(before, d, u)
    ensures IsRun(ws, steps) && |steps| == 5 && steps[4] == Hit(d, u)
    ensures ws[4].dbs == [before] && ws[4].ahead == Some(after)
  {
    hide IsUpstreamVerdict;
    var w0, w1, w2 := FirstEvaluation(before, d, u);
    var w3 := w0.(memo := Memo(0, map[d := u]));
    var w4 := w3.(ahead := Some(after));
    assert AfterStore(w2, 0) == w3;
    assert Takes(w2, Store(0), w3) && Takes(w3, Commit(after), w4) && Takes(w4, Hit(d, u), w4);
    hide Takes, AfterStore;
    ws, steps := [w0, w1, w2, w3, w4, w4], [Miss(0, d), Compute(0, u), Store(0), Commit(after), Hit(d, u)];
  }

  /** The memo moves on and the late verdict goes into it. */
  lemma LateStore(w: World, d: Id, u: UpstreamResult, other: Id) returns (w1: World, w2: World)
    requires |w.dbs| == 2 && w.memo == Memo(0, map[]) && w.evals == map[0 := Eval(d, Some(Computed(0, false, u)))]
    ensures Takes(w, Miss(1, other), w1) && Takes(w1, Store(0), w2) && Takes(w2, Hit(d, u), w2)
    ensures w2.dbs == w.dbs && w2.ahead == w.ahead
  {
    w1 := w.(memo := Memo(1, map[]), evals := w.evals[1 := Eval(other, None)]);
    w2 := AfterStore(w1, 0);
  }

  /**
   Evaluation 0 computes before the change, evaluation 1 of another device moves the memo to the new
   version, evaluation 0 stores, and the device is looked up again.
   */
  lemma LateStoreIsServed(before: Db, after: Db, d: Id, u: UpstreamResult)
    returns (ws: seq<World>, steps: seq<Step>)
    requires IsUpstreamVerdict(before, d, u)
    ensures IsRun(ws, steps) && |steps| == 7 && steps[6] == Hit(d, u)
    ensures ws[6].dbs == [before, after] && ws[6].ahead == None
  {
    hide IsUpstreamVerdict;
    var other := d + "'";
    var w0, w1, w2 := FirstEvaluation(before, d, u);
    var w3 := w2.(ahead := Some(after));
    var w4 := w2.(dbs := [before, after]);
    assert Takes(w2, Commit(after), w3) && Takes(w3, Bump, w4);
    hide Takes;
    var w5, w6 := LateStore(w4, d, u, other);
    ws := [w0, w1, w2, w3, w4, w5, w6, w6];
    steps := [Miss(0, d), Compute(0, u), Commit(after), Bump, Miss(1, other), Store(0), Hit(d, u)];
  }

  /** In both ways a device is reported up although its only uplink was cut. */
  lemma StaleVerdictIsServed() returns (ws: seq<World>, steps: seq<Step>, ws': seq<World>, steps': seq<Step>)
    ensures !IsUpstreamVerdict(CUT, "n", UPLINKED)
    ensures IsRun(ws, steps) && |steps| == 5 && steps[4] == Hit("n", UPLINKED) && ws[4].ahead == Some(CUT)
    ensures IsRun(ws', steps') && |steps'| == 7 && steps'[6] == Hit("n", UPLINKED)
    ensures ws'[6].dbs == [LINKED, CUT] && ws'[6].ahead == None
  {
    hide IsUpstreamVerdict, Takes;
    LinkedIsFound();
    CutIsNotFound();
    ws, steps := CommitBeforeBumpIsServed(LINKED, CUT, "n", UPLINKED);
    ws', steps' := LateStoreIsServed(LINKED, CUT, "n", UPLINKED);
  }
}
