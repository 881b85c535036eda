/** The metrics service (backend/services/metrics_service.py): ticks, utilization and published deltas. */
module Metrics {
  import opened Types
  import opened Order
  import opened LogicalGraph
  import opened Sums
  import opened Flow
  import opened Deltas

  /** A device with its effective capacity in Mbps. */
  datatype DeviceRow = DeviceRow(kind: DeviceType, capacity: Option<int>)

  datatype LinkRow = LinkRow(id: Id, a: Id, b: Id, kind: LinkKind)

  /** What one tick reads: devices, links and the effective capacity of every interface. */
  datatype Rows = Rows(devices: map<Id, DeviceRow>, links: seq<LinkRow>, ports: map<Id, Option<int>>)

  ghost predicate KeysDistinct(links: seq<LinkRow>) {
    forall i, j :: 0 <= i < j < |links| ==> links[i].id != links[j].id
  }

  // ---- The graph of a tick ----

  /** The device an interface id is taken to name: the part before "-if0". */
  function DeviceName(i: Id): Id {
    if |i| >= 4 && i[|i| - 4..] == "-if0" then i[..|i| - 4] else i
  }

  /** The id with the suffix, or an id without it that is the device id itself. */
  ghost predicate NamesDevice(i: Id, d: Id) {
    i == d + "-if0" || (i == d && forall x: Id :: i != x + "-if0")
  }

  lemma NameMeans(i: Id, d: Id)
    ensures NamesDevice(i, d) <==> d == DeviceName(i)
  {
    if x: Id :| i == x + "-if0" {
      assert i[|i| - 4..] == "-if0" && i[..|i| - 4] == x;
    }
    if DeviceName(i) != i {
      assert i == i[..|i| - 4] + "-if0";
    }
    if |i| >= 4 && i[|i| - 4..] == "-if0" {
      assert i == i[..|i| - 4] + "-if0";
    }
  }

  function RecordOf(l: LinkRow): LinkRecord {
    LinkRecord(l.id, DeviceName(l.a), DeviceName(l.b), l.kind)
  }

  function Records(links: seq<LinkRow>): (r: seq<LinkRecord>)
    ensures |r| == |links| && forall i :: 0 <= i < |links| ==> r[i] == RecordOf(links[i])
  {
    seq(|links|, i requires 0 <= i < |links| => RecordOf(links[i]))
  }

  function Kinds(s: Rows): Devices {
    map d | d in s.devices :: s.devices[d].kind
  }

  /** The graph is built from the kind of every device row, and from one record per link row in row order. */
  lemma TickInputs(s: Rows)
    ensures Kinds(s).Keys == s.devices.Keys && forall d :: d in s.devices ==> Kinds(s)[d] == s.devices[d].kind
    ensures |Records(s.links)| == |s.links|
    ensures forall i :: 0 <= i < |s.links| ==>
      var l, r := s.links[i], Records(s.links)[i];
      r.id == l.id && r.kind == l.kind && NamesDevice(l.a, r.a) && NamesDevice(l.b, r.b)
  {
    forall i | 0 <= i < |s.links|
      ensures NamesDevice(s.links[i].a, Records(s.links)[i].a) && NamesDevice(s.links[i].b, Records(s.links)[i].b)
    {
      NameMeans(s.links[i].a, DeviceName(s.links[i].a));
      NameMeans(s.links[i].b, DeviceName(s.links[i].b));
    }
  }

  /** `g` is the strict logical graph of the snapshot, labelled with link ids. */
  ghost predicate IsTickGraph(s: Rows, g: Graph) {
    IsLogicalGraph(Kinds(s), Records(s.links), false, g)
  }

  method TickGraph(s: Rows) returns (g: Graph)
    requires KeysDistinct(s.links)
    ensures IsTickGraph(s, g) && IdsDistinct(g)
  {
    hide IsLogicalGraph, IsProjection, HasOltNeighbour, ReachesAny, IdsDistinct;
    g := BuildLogicalGraph(Kinds(s), Records(s.links), false);
    RowsGiveDistinctIds(Kinds(s), Records(s.links), false, g);
  }

  // ---- Utilization ----

  function Megabits(c: int): real {
    c as real * 1000000.0
  }

  function UtilOf(bps: real, capacity: Option<int>): Util {
    if capacity.None? || capacity.value <= 0 then if bps <= 0.0 then Fin(0.0) else Infinite
    else Fin(bps / Megabits(capacity.value))
  }

  function Positive(c: Option<int>): Option<int> {
    if c.Some? && c.value > 0 then c else None
  }

  /** The smaller positive capacity of the two ends, or 1000 Mbps when neither end has one. */
  function LinkCapacity(a: Option<int>, b: Option<int>): (c: int)
    ensures c > 0
    ensures forall x :: (Positive(a) == Some(x) || Positive(b) == Some(x)) ==> c <= x
    ensures Positive(a) == Some(c) || Positive(b) == Some(c) || (Positive(a) == Positive(b) == None && c == 1000)
  {
    match (Positive(a), Positive(b))
    case (Some(x), Some(y)) => if x <= y then x else y
    case (Some(x), None) => x
    case (None, Some(y)) => y
    case (None, None) => 1000
  }

  function PortCapacity(s: Rows, i: Id): Option<int> {
    if i in s.ports then s.ports[i] else None
  }

  function EndsOf(links: seq<LinkRow>, id: Id): (Id, Id) {
    if links == [] then ("", "")
    else
      var l := links[|links| - 1];
      if l.id == id then (l.a, l.b) else EndsOf(links[..|links| - 1], id)
  }

  /** With distinct keys a link id finds the ends of its own row. */
  lemma {:induction false} EndsAreOwn(links: seq<LinkRow>, i: nat)
    requires KeysDistinct(links) && i < |links|
    ensures EndsOf(links, links[i].id) == (links[i].a, links[i].b)
  {
    if i < |links| - 1 {
      EndsAreOwn(links[..|links| - 1], i);
    }
  }

  function CapacityOfLink(s: Rows, id: Id): int {
    var (a, b) := EndsOf(s.links, id);
    LinkCapacity(PortCapacity(s, a), PortCapacity(s, b))
  }

  ghost predicate RowCapacity(s: Rows, i: Id, c: int) {
    i in s.ports && s.ports[i] == Some(c) && c > 0
  }

  /** The smallest positive capacity at either port of the row, or 1000 if neither port has one. */
  ghost predicate IsRowCapacity(s: Rows, l: LinkRow, c: int) {
    && (forall x :: RowCapacity(s, l.a, x) || RowCapacity(s, l.b, x) ==> c <= x)
    && if exists x :: RowCapacity(s, l.a, x) || RowCapacity(s, l.b, x)
       then RowCapacity(s, l.a, c) || RowCapacity(s, l.b, c) else c == 1000
  }

  lemma CapacityMeans(s: Rows, i: nat)
    requires KeysDistinct(s.links) && i < |s.links|
    ensures IsRowCapacity(s, s.links[i], CapacityOfLink(s, s.links[i].id))
  {
    EndsAreOwn(s.links, i);
    hide EndsOf, KeysDistinct;
    var l := s.links[i];
    forall p, x ensures RowCapacity(s, p, x) <==> Positive(PortCapacity(s, p)) == Some(x) {
    }
    var c := CapacityOfLink(s, l.id);
    assert c == LinkCapacity(PortCapacity(s, l.a), PortCapacity(s, l.b));
    hide CapacityOfLink, PortCapacity, Positive, LinkCapacity, RowCapacity;
  }

  /** The load as a fraction of the capacity in megabits; a load without capacity is infinite. */
  ghost predicate IsUtil(bps: real, capacity: Option<int>, u: Util) {
    if capacity.Some? && capacity.value > 0 then u.Fin? && u.value * (capacity.value as real * 1000000.0) == bps
    else if bps > 0.0 then u == Infinite
    else u == Fin(0.0)
  }

  lemma UtilMeans(bps: real, capacity: Option<int>)
    ensures IsUtil(bps, capacity, UtilOf(bps, capacity))
  {
    if capacity.Some? && capacity.value > 0 {
      var m := Megabits(capacity.value);
      assert m > 0.0;
      assert bps / m * m == bps;
    }
  }

  function DeviceReading(s: Rows, totals: Loads, d: Id): Reading
    requires d in s.devices
  {
    Reading(At(totals, d), UtilOf(At(totals, d), s.devices[d].capacity))
  }

  /** Every device row is read, with or without traffic. */
  function DeviceReadings(s: Rows, totals: Loads): Readings {
    map d | d in s.devices :: DeviceReading(s, totals, d)
  }

  /** Only links with traffic in this tick are read. */
  function LinkReadings(s: Rows, linkTotals: Loads): Readings {
    map id | id in linkTotals :: Reading(linkTotals[id], UtilOf(linkTotals[id], Some(CapacityOfLink(s, id))))
  }

  /** Every device row is read at its total load; every link with traffic at its load and its row's capacity. */
  lemma ReadingsMean(s: Rows, totals: Loads, linkTotals: Loads)
    requires KeysDistinct(s.links)
    ensures DeviceReadings(s, totals).Keys == s.devices.Keys && LinkReadings(s, linkTotals).Keys == linkTotals.Keys
    ensures forall d :: d in s.devices ==>
      var r := DeviceReadings(s, totals)[d];
      r.bps == (if d in totals then totals[d] else 0.0) && IsUtil(r.bps, s.devices[d].capacity, r.util)
    ensures forall i :: 0 <= i < |s.links| && s.links[i].id in linkTotals ==>
      var r := LinkReadings(s, linkTotals)[s.links[i].id];
      r.bps == linkTotals[s.links[i].id] &&
      exists c :: IsRowCapacity(s, s.links[i], c) && IsUtil(r.bps, Some(c), r.util)
  {
    hide UtilOf, CapacityOfLink, IsRowCapacity, KeysDistinct, IsUtil;
    forall d | d in s.devices
      ensures IsUtil(At(totals, d), s.devices[d].capacity, DeviceReadings(s, totals)[d].util)
    {
      UtilMeans(At(totals, d), s.devices[d].capacity);
    }
    forall i | 0 <= i < |s.links| && s.links[i].id in linkTotals
      ensures var r := LinkReadings(s, linkTotals)[s.links[i].id];
        exists c :: IsRowCapacity(s, s.links[i], c) && IsUtil(r.bps, Some(c), r.util)
    {
      CapacityMeans(s, i);
      UtilMeans(linkTotals[s.links[i].id], Some(CapacityOfLink(s, s.links[i].id)));
    }
  }

  lemma UtilPlausible(bps: real, capacity: Option<int>)
    ensures Plausible(Reading(bps, UtilOf(bps, capacity)))
    ensures bps >= 0.0 && UtilOf(bps, capacity).Fin? ==> UtilOf(bps, capacity).value >= 0.0
  {
    if capacity.Some? && capacity.value > 0 {
      var m := Megabits(capacity.value);
      var u := bps / m;
      assert u * m == bps && m > 0.0;
      assert u > 0.0 ==> u * m > 0.0;
      assert u < 0.0 ==> u * m < 0.0;
    }
  }

  /** With a known capacity, being close in utilization bounds the error of the stored load. */
  lemma CloseBoundsLoad(stored: real, bps: real, c: int)
    requires c > 0 && Close(UtilOf(stored, Some(c)), UtilOf(bps, Some(c)))
    ensures Abs(bps - stored) < EPSILON * Megabits(c)
  {
    var m := Megabits(c);
    var u, v := stored / m, bps / m;
    assert u * m == stored && v * m == bps && m > 0.0;
    assert (v - u) * m == bps - stored;
    assert Abs(v - u) < EPSILON;
    assert Abs(v - u) * m < EPSILON * m;
    assert Abs(v - u) * m == Abs((v - u) * m);
  }

  const NEGATIVE := Reading(-1000000.0, UtilOf(-1000000.0, Some(1)))

  /** A sample of minus one megabit on a device of one megabit, seen for the first time, is stored as zero. */
  lemma NegativeFirstReadingIsLost(d: Id)
    ensures Plausible(NEGATIVE) && NEGATIVE.util == Fin(-1.0)
    ensures Stored(map[], map[d := NEGATIVE])[d].util == Fin(0.0) && !Close(Fin(0.0), NEGATIVE.util)
  {
    assert -1000000.0 / Megabits(1) == -1.0;
    assert d in Stored(map[], map[d := NEGATIVE]);
  }

  /** Without a capacity, any amount of traffic is close to any other. */
  lemma NoCapacityHidesLoad(stored: real, bps: real)
    requires stored > 0.0 && bps > 0.0
    ensures Close(UtilOf(stored, None), UtilOf(bps, None))
  {
  }

  // ---- The service ----

  /** How the loads of a tick arise from its samples: aggregated, routed, carried and collected by the anchors. */
  ghost predicate IsFlow(s: Rows, samples: seq<Sample>, base: Loads, paths: Paths, totals: Loads, linkTotals: Loads) {
    exists g, anchors :: IsFlowIn(s, samples, base, paths, totals, linkTotals, g, anchors)
  }

  ghost predicate IsFlowIn(s: Rows, samples: seq<Sample>, base: Loads, paths: Paths, totals: Loads, linkTotals: Loads,
                           g: Graph, anchors: seq<Id>) {
    && IsTickGraph(s, g) && ListsAnchors(g, anchors)
    && (forall d :: At(base, d) == SampledLoad(samples, d))
    && (forall x :: x in paths <==> x in base && HasRoute(g, anchors, x))
    && AreRoutes(g, anchors, paths) && Flow.Carries(g, base, paths, totals, linkTotals)
    && Sum(Added(base, totals, AnchorSet(g)), AnchorSet(g)) == Sum(base, paths.Keys)
  }

  method TickLoads(s: Rows, samples: seq<Sample>) returns (totals: Loads, linkTotals: Loads, base: Loads, paths: Paths)
    requires KeysDistinct(s.links)
    ensures IsFlow(s, samples, base, paths, totals, linkTotals)
  {
    hide IsTickGraph, IdsDistinct, HasRoute, AreRoutes, Flow.Carries, Sum, Added, AnchorSet, KeysDistinct;
    base := Aggregate(samples);
    var g := TickGraph(s);
    var anchors := SortedOf(AnchorSet(g));
    forall a { AnchorsOnNodes(g, a); }
    totals, linkTotals, paths := PushUpstream(g, base, anchors);
    AnchorsCollectAll(g, anchors, base, paths, totals, linkTotals);
    assert IsFlowIn(s, samples, base, paths, totals, linkTotals, g, anchors);
  }

  lemma LoadsNonNegative(s: Rows, samples: seq<Sample>, base: Loads, paths: Paths, totals: Loads, linkTotals: Loads)
    requires IsFlow(s, samples, base, paths, totals, linkTotals)
    requires forall i :: 0 <= i < |samples| ==> samples[i].bps >= 0.0
    ensures forall d :: At(totals, d) >= 0.0
    ensures forall id :: At(linkTotals, id) >= 0.0
  {
    hide IsTickGraph, HasRoute, AreRoutes, Sum, Added, AnchorSet, ListsAnchors, Passing, Crossing, SampledLoad;
    var g, anchors :| IsFlowIn(s, samples, base, paths, totals, linkTotals, g, anchors);
    forall d ensures At(base, d) >= 0.0 {
      SampledNonNegative(samples, d);
    }
    assert forall d :: d in base ==> base[d] == At(base, d);
    forall d ensures At(totals, d) >= 0.0 {
      SumNonNegative(base, Passing(paths, d));
    }
    forall id ensures At(linkTotals, id) >= 0.0 {
      SumNonNegative(base, Crossing(g, paths, id));
    }
  }

  lemma {:induction false} SampledNonNegative(samples: seq<Sample>, d: Id)
    requires forall i :: 0 <= i < |samples| ==> samples[i].bps >= 0.0
    ensures SampledLoad(samples, d) >= 0.0
  {
    if samples != [] {
      SampledNonNegative(samples[..|samples| - 1], d);
    }
  }

  function Clamp(u: Util): real {
    if u.Infinite? then 1000000000.0 else u.value
  }

  datatype Shown = Shown(bps: real, utilization: real)

  ghost predicate IsShown(r: Reading, x: Shown) {
    x.bps == r.bps && match r.util
      case Fin(u) => x.utilization == u
      case Infinite => x.utilization == 1000000000.0
  }

  class MetricsService {
    var last: Table
    var lastLinks: Table
    var lastTick: int
    ghost var published: seq<Delta>
    ghost var publishedLinks: seq<Delta>

    /** A client that folded every published delta knows the stored tables, and their buckets are right. */
    ghost predicate Valid()
      reads this
    {
      TableOk(last) && TableOk(lastLinks) && Mirrors(published, last) && Mirrors(publishedLinks, lastLinks)
    }

    constructor ()
      ensures Valid() && last == map[] && lastLinks == map[] && lastTick == 0 && published == [] && publishedLinks == []
    {
      last, lastLinks, lastTick := map[], map[], 0;
      published, publishedLinks := [], [];
    }

    /** `process_tick`; the two results are the payloads of the published events. */
    method ProcessTick(s: Rows, samples: seq<Sample>, tick: int)
      returns (changed: seq<Delta>, linkChanged: seq<Delta>, ghost base: Loads, ghost paths: Paths,
        ghost totals: Loads, ghost linkTotals: Loads)
      requires Valid() && KeysDistinct(s.links)
      modifies this
      ensures Valid() && lastTick == tick
      ensures published == old(published) + changed && publishedLinks == old(publishedLinks) + linkChanged
      ensures IsFlow(s, samples, base, paths, totals, linkTotals)
      ensures last == Stored(old(last), DeviceReadings(s, totals))
      ensures Emits(old(last), DeviceReadings(s, totals), changed)
      ensures lastLinks == Stored(old(lastLinks), LinkReadings(s, linkTotals))
      ensures Emits(old(lastLinks), LinkReadings(s, linkTotals), linkChanged)
    {
      hide KeysDistinct, IsFlow, DeviceReadings, LinkReadings, Stored, Emits, Mirrors, TableOk;
      var t, lt;
      var b, ps;
      t, lt, b, ps := TickLoads(s, samples);
      base, paths := b, ps;
      totals, linkTotals := t, lt;
      var now, nowLinks := DeviceReadings(s, t), LinkReadings(s, lt);
      StepMirrorsAll(published, last, now);
      StepMirrorsAll(publishedLinks, lastLinks, nowLinks);
      last, changed := Diff(last, now);
      published := published + changed;
      lastTick := tick;
      lastLinks, linkChanged := Diff(lastLinks, nowLinks);
      publishedLinks := publishedLinks + linkChanged;
    }

    /** `get_snapshot`: what the client knows, with infinities clamped. */
    method GetSnapshot() returns (tick: int, devices: map<Id, Shown>, links: map<Id, Shown>)
      requires Valid()
      ensures tick == lastTick && devices.Keys == last.Keys && links.Keys == lastLinks.Keys
      ensures forall d :: d in devices ==> IsShown(View(Folded(published), d), devices[d])
      ensures forall id :: id in links ==> IsShown(View(Folded(publishedLinks), id), links[id])
    {
      hide TableOk, Folded;
      tick := lastTick;
      devices := map d | d in last :: Shown(last[d].bps, Clamp(last[d].util));
      links := map id | id in lastLinks :: Shown(lastLinks[id].bps, Clamp(lastLinks[id].util));
    }
  }

  lemma StepMirrorsAll(hist: seq<Delta>, last: Table, now: Readings)
    requires Mirrors(hist, last) && TableOk(last)
    ensures TableOk(Stored(last, now))
    ensures forall out :: Emits(last, now, out) ==> Mirrors(hist + out, Stored(last, now))
  {
    StoredOk(last, now);
    hide *;
    forall out | Emits(last, now, out) ensures Mirrors(hist + out, Stored(last, now)) {
      StepMirrors(hist, last, now, out);
    }
  }

  /** After a tick of non-negative samples every device row, and every link with traffic, is stored accurately. */
  lemma TickIsAccurate(s: Rows, samples: seq<Sample>, base: Loads, paths: Paths, totals: Loads, linkTotals: Loads,
                       last: Table, lastLinks: Table)
    requires TableOk(last) && TableOk(lastLinks) && IsFlow(s, samples, base, paths, totals, linkTotals)
    requires forall i :: 0 <= i < |samples| ==> samples[i].bps >= 0.0
    ensures forall d :: d in s.devices ==>
      Close(Stored(last, DeviceReadings(s, totals))[d].util, UtilOf(At(totals, d), s.devices[d].capacity))
    ensures forall id :: id in linkTotals ==>
      Close(Stored(lastLinks, LinkReadings(s, linkTotals))[id].util,
        UtilOf(linkTotals[id], Some(CapacityOfLink(s, id))))
  {
    hide IsFlow, CapacityOfLink, UtilOf, Close, Observe;
    LoadsNonNegative(s, samples, base, paths, totals, linkTotals);
    forall d | d in s.devices
      ensures Close(Stored(last, DeviceReadings(s, totals))[d].util, UtilOf(At(totals, d), s.devices[d].capacity))
    {
      UtilPlausible(At(totals, d), s.devices[d].capacity);
      StoredIsClose(last, DeviceReadings(s, totals), d);
    }
    forall id | id in linkTotals
      ensures Close(Stored(lastLinks, LinkReadings(s, linkTotals))[id].util,
        UtilOf(linkTotals[id], Some(CapacityOfLink(s, id))))
    {
      assert At(linkTotals, id) == linkTotals[id];
      UtilPlausible(linkTotals[id], Some(CapacityOfLink(s, id)));
      StoredIsClose(lastLinks, LinkReadings(s, linkTotals), id);
    }
  }
}
