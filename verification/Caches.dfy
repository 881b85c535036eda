/**
 Versioned caches: `PathfindingStore` (backend/services/pathfinding.py) and the memoised optical resolver
 (backend/services/optical_path_resolver.py).
 */
module Caches {
  import opened Types
  import opened Order
  import opened LogicalGraph
  import opened OpticalPath

  datatype Records = Records(devices: Devices, links: seq<LinkRecord>)

  /** Everything a fresh computation reads. */
  datatype Db = Db(records: Records, plant: Plant)

  // ---- Fresh results ----

  /** `g` is the graph that `build_logical_graph` returns for these records. */
  ghost predicate IsLogicalOf(r: Records, relaxed: bool, g: Graph) {
    IsLogicalGraph(r.devices, r.links, relaxed, g)
  }

  ghost predicate IsOpticalOf(r: Records, g: Graph) {
    IsOpticalGraph(r.devices, r.links, g)
  }

  /** `out` is the outcome of a fresh resolution over `db` with the graph library `lib`. */
  ghost predicate IsFreshOutcome(lib: Library, db: Db, ont: Id, out: Outcome) {
    exists g :: IsOpticalOf(db.records, g) && ResolvesBy(g, db.plant, ont, lib(g, db.plant, ont), out)
  }

  /** Two fresh builds of the same records are the same graph, labels included. */
  lemma FreshBuildsAgree(r: Records, relaxed: bool, g: Graph, g': Graph)
    ensures IsLogicalOf(r, relaxed, g) && IsLogicalOf(r, relaxed, g') ==> g == g'
    ensures IsOpticalOf(r, g) && IsOpticalOf(r, g') ==> g == g'
  {
    hide IsLogicalGraph, IsLinkGraph;
    if IsLogicalOf(r, relaxed, g) && IsLogicalOf(r, relaxed, g') {
      LogicalGraphUnique(r.devices, r.links, relaxed, g, g');
    }
    if IsOpticalOf(r, g) && IsOpticalOf(r, g') {
      LinkGraphUnique(OPTICAL_KINDS, OpticalNodes(r.devices), r.links, g, g');
    }
  }

  /** Two fresh resolutions over one database are the same, OLT and segments included. */
  lemma FreshResolutionsAgree(lib: Library, db: Db, ont: Id, out: Outcome, out': Outcome)
    requires IsFreshOutcome(lib, db, ont, out) && IsFreshOutcome(lib, db, ont, out')
    ensures out == out'
  {
    hide IsOpticalOf, ResolvesBy;
    var g :| IsOpticalOf(db.records, g) && ResolvesBy(g, db.plant, ont, lib(g, db.plant, ont), out);
    var g' :| IsOpticalOf(db.records, g') && ResolvesBy(g', db.plant, ont, lib(g', db.plant, ont), out');
    FreshBuildsAgree(db.records, false, g, g');
    FindingDecides(g, db.plant, ont, lib(g, db.plant, ont), out, out');
  }

  /** The same verdict and the same attenuation. */
  predicate SameAnswer(r: Option<Resolved>, r': Option<Resolved>) {
    r.Some? == r'.Some? && (r.Some? ==> r.value.total == r'.value.total)
  }

  /** Verdict and attenuation do not even depend on the library, as long as it does not fail. */
  lemma FreshTotalsAgree(lib: Library, lib': Library, db: Db, ont: Id, r: Option<Resolved>, r': Option<Resolved>)
    requires IsFreshOutcome(lib, db, ont, Answer(r)) && IsFreshOutcome(lib', db, ont, Answer(r'))
    ensures SameAnswer(r, r')
  {
    hide IsOpticalOf, ReachesOlt, IsPick;
    var g :| IsOpticalOf(db.records, g) && ResolvesBy(g, db.plant, ont, lib(g, db.plant, ont), Answer(r));
    var g' :| IsOpticalOf(db.records, g') && ResolvesBy(g', db.plant, ont, lib'(g', db.plant, ont), Answer(r'));
    FreshBuildsAgree(db.records, false, g, g');
    if r.Some? {
      PickReaches(g, db.plant, ont, lib(g, db.plant, ont).value, r.value);
    }
    if r'.Some? {
      PickReaches(g, db.plant, ont, lib'(g, db.plant, ont).value, r'.value);
    }
    if r.Some? && r'.Some? {
      var p, p' := lib(g, db.plant, ont).value[r.value.olt], lib'(g, db.plant, ont).value[r'.value.olt];
      SameTotal(g, db.plant, ont, r.value, p, r'.value, p');
    }
  }

  lemma PickReaches(g: Graph, plant: Plant, ont: Id, paths: map<Id, Path>, r: Resolved)
    requires IsPick(g, plant, ont, paths, r)
    ensures ont in g.nodes && ReachesOlt(g, ont) && r.olt in paths && Explains(g, plant, ont, r, paths[r.olt])
  {
    PickExplains(g, plant, ont, paths, r);
  }

  // ---- The store ----

  datatype Store = Store(version: nat, optical: Option<Graph>, logical: Option<(bool, Graph)>,
                         memo: map<Id, Option<Resolved>>)

  function Bumped(s: Store): Store {
    Store(s.version + 1, None, None, map[])
  }

  /** A read of the logical graph: the inputs matter only when the slot is empty or of the other mode. */
  ghost predicate LogicalRead(s: Store, r: Records, relaxed: bool, s': Store, g: Graph) {
    if s.logical.Some? && s.logical.value.0 == relaxed then s' == s && g == s.logical.value.1
    else IsLogicalOf(r, relaxed, g) && s' == s.(logical := Some((relaxed, g)))
  }

  ghost predicate OpticalRead(s: Store, r: Records, s': Store, g: Graph) {
    if s.optical.Some? then s' == s && g == s.optical.value
    else IsOpticalOf(r, g) && s' == s.(optical := Some(g))
  }

  function Remembered(s: Store, ont: Id, out: Outcome): Store {
    if out.Answer? then s.(memo := s.memo[ont := out.result]) else s
  }

  /**
   A memoised resolution; a miss reads the optical graph `g` through the store, the library finds `found`
   on it, and a failure is not memoised.
   */
  ghost predicate ResolveRead(s: Store, db: Db, ont: Id, s': Store, out: Outcome, g: Graph, found: Finding) {
    if ont in s.memo then s' == s && out == Answer(s.memo[ont])
    else
      && ResolvesBy(g, db.plant, ont, found, out)
      && exists t :: OpticalRead(s, db.records, t, g) && s' == Remembered(t, ont, out)
  }

  class PathfindingStore {
    var version: nat
    var optical: Option<Graph>
    var logical: Option<Graph>
    var relaxedFlag: Option<bool>
    var memo: map<Id, Option<Resolved>>

    ghost predicate Valid()
      reads this
    {
      logical.Some? ==> relaxedFlag.Some?
    }

    ghost function State(): Store
      requires Valid()
      reads this
    {
      Store(version, optical, if logical.Some? then Some((relaxedFlag.value, logical.value)) else None, memo)
    }

    constructor ()
      ensures Valid() && State() == Store(0, None, None, map[])
    {
      version, optical, logical, relaxedFlag, memo := 0, None, None, None, map[];
    }

    method BumpVersion() returns (v: nat)
      requires Valid()
      modifies this
      ensures Valid() && State() == Bumped(old(State())) && v == version
    {
      version := version + 1;
      optical, logical, relaxedFlag, memo := None, None, None, map[];
      v := version;
    }

    method GetOpticalGraph(r: Records) returns (v: nat, g: Graph)
      requires Valid()
      modifies this
      ensures Valid() && v == version && OpticalRead(old(State()), r, State(), g)
    {
      if optical.None? {
        var built := BuildOpticalGraph(r.devices, r.links);
        optical := Some(built);
      }
      v, g := version, optical.value;
    }

    method GetLogicalGraph(r: Records, relaxed: bool) returns (v: nat, g: Graph)
      requires Valid()
      modifies this
      ensures Valid() && v == version && LogicalRead(old(State()), r, relaxed, State(), g)
    {
      hide IsLogicalGraph, HasOltNeighbour, ReachesAny;
      if logical.None? || relaxedFlag != Some(relaxed) {
        var built := BuildLogicalGraph(r.devices, r.links, relaxed);
        logical, relaxedFlag := Some(built), Some(relaxed);
      }
      v, g := version, logical.value;
    }

    /** `resolve_optical_path` behind its memo. */
    method ResolveOpticalPath(db: Db, ont: Id) returns (out: Outcome, ghost g: Graph, ghost found: Finding)
      requires Valid()
      modifies this
      ensures Valid() && ResolveRead(old(State()), db, ont, State(), out, g, found)
    {
      hide NoGain, ReachesOlt, Explains, ResolvesBy, IsOpticalGraph;
      if ont in memo {
        return Answer(memo[ont]), Graph(map[], map[]), None;
      }
      var v, graph := GetOpticalGraph(db.records);
      g := graph;
      ghost var t := State();
      ghost var p;
      out, p, found := ResolvePath(graph, db.plant, ont);
      if out.Answer? {
        memo := memo[ont := out.result];
      }
      assert State() == Remembered(t, ont, out);
    }
  }

  // ---- Runs ----

  /** Every cached value is that of a fresh computation over `db`. */
  ghost predicate Fresh(lib: Library, s: Store, db: Db) {
    && (s.logical.Some? ==> IsLogicalOf(db.records, s.logical.value.0, s.logical.value.1))
    && (s.optical.Some? ==> IsOpticalOf(db.records, s.optical.value))
    && (forall o :: o in s.memo ==> IsFreshOutcome(lib, db, o, Answer(s.memo[o])))
  }

  datatype Op =
    | Commit(db: Db) | Bump
    | ReadLogical(relaxed: bool, graph: Graph)
    | ReadOptical(graph: Graph)
    | Resolve(ont: Id, out: Outcome)
    | Evict(ont: Id)

  datatype World = World(db: Db, pending: bool, store: Store)

  /** One operation; a read happens only once the last commit has bumped the version, and passes current records. */
  ghost predicate Takes(lib: Library, w: World, op: Op, w': World) {
    match op
    case Commit(db) => w' == w.(db := db, pending := true)
    case Bump => w' == w.(pending := false, store := Bumped(w.store))
    case Evict(ont) => w' == w.(store := w.store.(memo := w.store.memo - {ont}))
    case _ => !w.pending && w' == w.(store := w'.store) && Reads(lib, w, op, w'.store)
  }

  ghost predicate Reads(lib: Library, w: World, op: Op, s': Store) {
    match op
    case ReadLogical(relaxed, g) => LogicalRead(w.store, w.db.records, relaxed, s', g)
    case ReadOptical(g) => OpticalRead(w.store, w.db.records, s', g)
    case Resolve(ont, out) => exists g :: ResolveRead(w.store, w.db, ont, s', out, g, lib(g, w.db.plant, ont))
    case _ => false
  }

  /** The value that was read equals what any fresh computation over the current database returns. */
  ghost predicate ReadsFresh(lib: Library, w: World, op: Op) {
    match op
    case ReadLogical(relaxed, g) =>
      IsLogicalOf(w.db.records, relaxed, g) && forall g' :: IsLogicalOf(w.db.records, relaxed, g') ==> g == g'
    case ReadOptical(g) =>
      IsOpticalOf(w.db.records, g) && forall g' :: IsOpticalOf(w.db.records, g') ==> g == g'
    case Resolve(ont, out) =>
      IsFreshOutcome(lib, w.db, ont, out) && forall out' :: IsFreshOutcome(lib, w.db, ont, out') ==> out == out'
    case _ => true
  }

  ghost predicate Settled(lib: Library, w: World) {
    !w.pending ==> Fresh(lib, w.store, w.db)
  }

  lemma ResolveSettles(lib: Library, s: Store, db: Db, ont: Id, s': Store, out: Outcome, g: Graph)
    requires Fresh(lib, s, db) && ResolveRead(s, db, ont, s', out, g, lib(g, db.plant, ont))
    ensures Fresh(lib, s', db) && IsFreshOutcome(lib, db, ont, out)
  {
    hide IsLogicalOf, IsOpticalOf, ResolvesBy;
    if ont !in s.memo {
      var t :| OpticalRead(s, db.records, t, g) && s' == Remembered(t, ont, out);
      assert IsOpticalOf(db.records, g);
      assert IsFreshOutcome(lib, db, ont, out);
    }
    hide IsFreshOutcome;
  }

  lemma StepSettles(lib: Library, w: World, op: Op, w': World)
    requires Settled(lib, w) && Takes(lib, w, op, w')
    ensures Settled(lib, w')
    ensures op.ReadLogical? ==> IsLogicalOf(w.db.records, op.relaxed, op.graph)
    ensures op.ReadOptical? ==> IsOpticalOf(w.db.records, op.graph)
    ensures op.Resolve? ==> IsFreshOutcome(lib, w.db, op.ont, op.out)
  {
    hide IsLogicalOf, IsOpticalOf, IsFreshOutcome, ResolveRead;
    if op.Resolve? {
      var g :| ResolveRead(w.store, w.db, op.ont, w'.store, op.out, g, lib(g, w.db.plant, op.ont));
      ResolveSettles(lib, w.store, w.db, op.ont, w'.store, op.out, g);
    }
  }

  lemma StepFresh(lib: Library, w: World, op: Op, w': World)
    requires Settled(lib, w) && Takes(lib, w, op, w')
    ensures Settled(lib, w') && ReadsFresh(lib, w, op)
  {
    hide IsLogicalOf, IsOpticalOf, IsFreshOutcome;
    StepSettles(lib, w, op, w');
    hide Settled, Takes;
    match op
    case ReadLogical(relaxed, g) =>
      forall g' | IsLogicalOf(w.db.records, relaxed, g') ensures g == g' {
        FreshBuildsAgree(w.db.records, relaxed, g, g');
      }
    case ReadOptical(g) =>
      forall g' | IsOpticalOf(w.db.records, g') ensures g == g' {
        FreshBuildsAgree(w.db.records, false, g, g');
      }
    case Resolve(ont, out) =>
      forall out' | IsFreshOutcome(lib, w.db, ont, out') ensures out == out' {
        FreshResolutionsAgree(lib, w.db, ont, out, out');
      }
    case _ =>
  }

  ghost predicate IsRun(lib: Library, ws: seq<World>, ops: seq<Op>) {
    && |ws| == |ops| + 1 && (forall i :: 0 <= i < |ops| ==> Takes(lib, ws[i], ops[i], ws[i + 1]))
    && ws[0].store.optical.None? && ws[0].store.logical.None? && ws[0].store.memo == map[]
  }

  /** In every run from an empty store, every read equals what a fresh computation returns. */
  lemma {:induction false} RunFresh(lib: Library, ws: seq<World>, ops: seq<Op>, n: nat)
    requires IsRun(lib, ws, ops) && n <= |ops|
    ensures Settled(lib, ws[n]) && forall i :: 0 <= i < n ==> ReadsFresh(lib, ws[i], ops[i])
  {
    hide Takes, ReadsFresh;
    if n > 0 {
      RunFresh(lib, ws, ops, n - 1);
      assert Takes(lib, ws[n - 1], ops[n - 1], ws[n - 1 + 1]);
      StepFresh(lib, ws[n - 1], ops[n - 1], ws[n]);
    }
  }

  // ---- Readers that pass other records ----

  ghost predicate SameProjection(r: Records, r': Records, relaxed: bool) {
    && LogicalNodes(r.devices) == LogicalNodes(r'.devices)
    && forall u, v :: ProjectionEdge(r.devices, r.links, relaxed, u, v) <==>
      ProjectionEdge(r'.devices, r'.links, relaxed, u, v)
  }

  /** `g` has the nodes and edges of a fresh build. */
  ghost predicate HasShapeOf(r: Records, relaxed: bool, g: Graph) {
    && g.nodes == LogicalNodes(r.devices)
    && forall u, v :: HasEdge(g, u, v) <==> ProjectionEdge(r.devices, r.links, relaxed, u, v)
  }

  /** Where both have an edge, both give it the same label. */
  ghost predicate SameLabels(r: Records, r': Records, relaxed: bool) {
    forall u, v, attr :: ProjectionEdge(r.devices, r.links, relaxed, u, v) ==>
      (ProjectionLabel(r.devices, r.links, u, v, attr) <==> ProjectionLabel(r'.devices, r'.links, u, v, attr))
  }

  /**
   Two readers share one slot: after the first has filled it, the second is served the graph of its own
   records exactly when both sets of records project to the same nodes, edges and labels.
   */
  lemma SecondReaderIsServedTheFirst(s: Store, r1: Records, r2: Records, relaxed: bool, s1: Store, g1: Graph, s2: Store,
                                     g2: Graph)
    requires s.logical.None? && LogicalRead(s, r1, relaxed, s1, g1) && LogicalRead(s1, r2, relaxed, s2, g2)
    ensures g2 == g1
    ensures HasShapeOf(r2, relaxed, g2) <==> SameProjection(r1, r2, relaxed)
    ensures IsLogicalOf(r2, relaxed, g2) <==> SameProjection(r1, r2, relaxed) && SameLabels(r1, r2, relaxed)
  {
    hide ProjectionEdge, ProjectionLabel, WellFormed, LogicalNodes, HasEdge, AttrOf;
    if IsLogicalOf(r2, relaxed, g2) {
      LabelsAgree(r1, r2, relaxed, g1);
    }
  }

  lemma LabelsAgree(r1: Records, r2: Records, relaxed: bool, g: Graph)
    requires IsLogicalOf(r1, relaxed, g) && IsLogicalOf(r2, relaxed, g)
    ensures SameLabels(r1, r2, relaxed)
  {
    hide ProjectionEdge, ProjectionLabel, WellFormed, LogicalNodes, HasEdge, AttrOf;
    forall u, v, attr | ProjectionEdge(r1.devices, r1.links, relaxed, u, v)
      ensures ProjectionLabel(r1.devices, r1.links, u, v, attr) <==> ProjectionLabel(r2.devices, r2.links, u, v, attr)
    {
      assert HasEdge(g, u, v);
      if ProjectionLabel(r1.devices, r1.links, u, v, attr) {
        ProjectionLabelUnique(r1.devices, r1.links, u, v, attr, AttrOf(g, u, v));
      }
      if ProjectionLabel(r2.devices, r2.links, u, v, attr) {
        ProjectionLabelUnique(r2.devices, r2.links, u, v, attr, AttrOf(g, u, v));
      }
    }
  }

  const BEFORE := Records(map["r" := CORE_ROUTER], [])
  const AFTER := Records(map[], [])

  /** One reader passes the forced-down device `r`, the next leaves it out and is served a graph with it. */
  lemma ForcedDownDeviceIsServed(s: Store, s1: Store, g1: Graph, s2: Store, g2: Graph)
    requires s.logical.None? && LogicalRead(s, BEFORE, false, s1, g1) && LogicalRead(s1, AFTER, false, s2, g2)
    ensures "r" in g2.nodes && "r" !in LogicalNodes(AFTER.devices)
  {
    assert "r" in LogicalNodes(BEFORE.devices);
    hide ProjectionEdge, ProjectionLabel, WellFormed;
  }

  /**
   The snapshot loop of the upstream resolver: it reads the version, collects records, fetches a graph
   and accepts it when the fetch and a last look still show the first version.
   */
  ghost predicate Attempt(v: nat, collected: Records, s: Store, s': Store, g: Graph, accepted: bool) {
    LogicalRead(s, collected, false, s', g) && (accepted <==> s.version == v)
  }

  /**
   A commit and bump between collecting and fetching make the loop retry, but the first fetch has
   already filled the slot of the new version: the retry accepts a graph of the old records.
   */
  lemma RetryAcceptsStaleGraph(s: Store, g: Graph)
    requires s.logical.None? && IsLogicalOf(BEFORE, false, g)
    ensures exists s1, s2, g2 ::
      && Attempt(s.version, BEFORE, Bumped(s), s1, g, false)
      && Attempt(s1.version, AFTER, s1, s2, g2, true)
      && !HasShapeOf(AFTER, false, g2)
  {
    var s1 := Bumped(s).(logical := Some((false, g)));
    assert "r" in LogicalNodes(BEFORE.devices);
    hide IsLogicalOf;
    assert Attempt(s.version, BEFORE, Bumped(s), s1, g, false);
    assert Attempt(s1.version, AFTER, s1, s1, g, true);
    assert !HasShapeOf(AFTER, false, g) by {
      assert g.nodes == LogicalNodes(BEFORE.devices) by { ShapeOfNodes(g); }
    }
  }

  lemma ShapeOfNodes(g: Graph)
    requires IsLogicalOf(BEFORE, false, g)
    ensures g.nodes == LogicalNodes(BEFORE.devices)
  {
  }
}
