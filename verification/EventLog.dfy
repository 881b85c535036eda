/**
 The simulation event log (backend/services/simulation_event_engine.py): a log derived from a
 snapshot and its subscriber model, and a replay that must give both back.
 */
module EventLog {
  import opened Types
  import opened Order
  import opened Topology
  import opened Sums
  import Tracers
  import opened Subscribers

  // ---- Payloads ----

  datatype DeviceFacts = DeviceFacts(kind: DeviceType, status: Status, provisioned: bool)

  datatype PortFacts = PortFacts(device: Id, name: string, role: Option<PortRole>, capacity: Option<int>)

  /** The link row with the devices its interfaces resolve to, when they do. */
  datatype LinkFacts = LinkFacts(a: Id, b: Id, aDevice: Option<Id>, bDevice: Option<Id>, kind: LinkKind, status: Status)

  datatype Assignment = Assignment(subscriber: Id, kind: DeviceType, at: Option<Port>, verdict: Verdict, why: Why)

  datatype Binding = Binding(subscriber: Id, kind: DeviceType, domain: Domain, at: Port, source: nat)

  datatype Body =
    | DeviceCreated(device: Id, deviceFacts: DeviceFacts)
    | PortConnected(port: Id, portFacts: PortFacts)
    | DeviceLinked(link: Id, linkFacts: LinkFacts)
    | CpeProvisioned(grant: Assignment)
    | OntAssigned(grant: Assignment)
    | ServiceBound(binding: Binding)

  datatype Event = Event(sequence: nat, body: Body)

  type Log = seq<Event>

  function FactsOfDevice(d: Device): DeviceFacts {
    DeviceFacts(d.kind, d.status, d.provisioned)
  }

  function FactsOfPort(i: Interface): PortFacts {
    PortFacts(i.device, i.name, i.role, i.capacity)
  }

  function OwnerOf(t: Topology, i: Id): Option<Id> {
    if i in t.ifaces then Some(t.ifaces[i].device) else None
  }

  function FactsOfLink(t: Topology, l: Link): LinkFacts {
    LinkFacts(l.a, l.b, OwnerOf(t, l.a), OwnerOf(t, l.b), l.kind, l.status)
  }

  function AssignmentOf(e: Decision): Assignment {
    Assignment(e.subscriber, e.kind, e.at, e.verdict, e.why)
  }

  // ---- Replay ----

  datatype Physical = Physical(devices: map<Id, DeviceFacts>, ports: map<Id, PortFacts>, links: map<Id, LinkFacts>,
                               counts: map<DeviceType, nat>)

  datatype Service = Service(onts: map<Id, Assignment>, cpes: map<Id, Assignment>, bindings: seq<Binding>,
                             refused: seq<Assignment>)

  datatype Analytics = Analytics(olt: map<Id, nat>, aon: map<Id, nat>, pon: map<Id, nat>)

  datatype Projection = Projection(physical: Physical, service: Service, analytics: Analytics)

  const BLANK :=
    Projection(Physical(map[], map[], map[], map[]), Service(map[], map[], [], []), Analytics(map[], map[], map[]))

  function Bump<K>(m: map<K, nat>, k: K): map<K, nat> {
    m[k := Get(m, k) + 1]
  }

  function BindAt(a: Analytics, b: Binding): Analytics {
    if b.domain.OltDomain? then a.(olt := Bump(a.olt, b.at.0), pon := Bump(a.pon, b.at.1))
    else a.(aon := Bump(a.aon, b.at.0))
  }

  function Apply(p: Projection, e: Body): Projection {
    var h, s := p.physical, p.service;
    match e
    case DeviceCreated(d, f) => p.(physical := h.(devices := h.devices[d := f], counts := Bump(h.counts, f.kind)))
    case PortConnected(i, f) => p.(physical := h.(ports := h.ports[i := f]))
    case DeviceLinked(l, f) => p.(physical := h.(links := h.links[l := f]))
    case OntAssigned(a) => p.(service := s.(onts := s.onts[a.subscriber := a]))
    case CpeProvisioned(a) =>
      var refused := if a.verdict.NotCounted? then s.refused + [a] else s.refused;
      p.(service := s.(cpes := s.cpes[a.subscriber := a], refused := refused))
    case ServiceBound(b) => p.(service := s.(bindings := s.bindings + [b]), analytics := BindAt(p.analytics, b))
  }

  function Replayed(log: Log): Projection {
    if log == [] then BLANK else Apply(Replayed(log[..|log| - 1]), log[|log| - 1].body)
  }

  lemma ReplayedStep(log: Log, e: Event)
    ensures Replayed(log + [e]) == Apply(Replayed(log), e.body)
  {
    assert (log + [e])[..|log|] == log;
  }

  /** `replay_simulation_events`. */
  method Replay(log: Log) returns (p: Projection)
    ensures p == Replayed(log) && ShowsRows(log, p) && ShowsCounts(log, p)
  {
    ReplayShowsRows(log);
    ReplayShowsCounts(log);
    hide ShowsRows, ShowsCounts;
    p := BLANK;
    for n := 0 to |log|
      invariant p == Replayed(log[..n])
    {
      assert log[..n + 1] == log[..n] + [log[n]];
      ReplayedStep(log[..n], log[n]);
      p := Apply(p, log[n].body);
    }
    assert log[..|log|] == log;
  }

  // ---- What a replay computes, for any log ----

  /** The last value that the log records for each key. */
  ghost function Latest<T>(log: Log, pick: Body -> Option<(Id, T)>): map<Id, T> {
    if log == [] then map[]
    else
      var m, last := Latest(log[..|log| - 1], pick), pick(log[|log| - 1].body);
      if last.None? then m else m[last.value.0 := last.value.1]
  }

  /** Everything of one sort that the log records, in order. */
  ghost function Listed<T>(log: Log, pick: Body -> Option<T>): seq<T> {
    if log == [] then []
    else
      var s, last := Listed(log[..|log| - 1], pick), pick(log[|log| - 1].body);
      if last.None? then s else s + [last.value]
  }

  /** How many events record one key. */
  ghost function Recorded<K(!new)>(log: Log, pick: Body -> Option<K>, k: K): nat {
    if log == [] then 0
    else Recorded(log[..|log| - 1], pick, k) + if pick(log[|log| - 1].body) == Some(k) then 1 else 0
  }

  ghost predicate IsLatest<T(!new)>(log: Log, pick: Body -> Option<(Id, T)>, k: Id, v: T, n: nat) {
    && n < |log| && pick(log[n].body) == Some((k, v))
    && forall j, w :: n < j < |log| ==> pick(log[j].body) != Some((k, w))
  }

  lemma {:induction false} LatestMeans<T(!new)>(log: Log, pick: Body -> Option<(Id, T)>, k: Id, v: T)
    ensures k in Latest(log, pick) && Latest(log, pick)[k] == v <==> exists n: nat :: IsLatest(log, pick, k, v, n)
    decreases |log|
  {
    if log != [] {
      var front, b := log[..|log| - 1], log[|log| - 1].body;
      LatestMeans(front, pick, k, v);
      assert forall j :: 0 <= j < |front| ==> front[j] == log[j];
      if exists w :: pick(b) == Some((k, w)) {
        var w :| pick(b) == Some((k, w));
        if w == v { assert IsLatest(log, pick, k, v, |log| - 1); }
        if n: nat :| IsLatest(log, pick, k, v, n) { assert n == |log| - 1; }
      } else {
        if n: nat :| IsLatest(front, pick, k, v, n) { assert IsLatest(log, pick, k, v, n); }
        if n: nat :| IsLatest(log, pick, k, v, n) { assert IsLatest(front, pick, k, v, n); }
        var last := pick(b);
        assert last.Some? ==> last == Some((last.value.0, last.value.1));
      }
    }
  }

  ghost function DeviceRow(e: Body): Option<(Id, DeviceFacts)> {
    match e case DeviceCreated(d, x) => Some((d, x)) case _ => None
  }

  ghost function PortRow(e: Body): Option<(Id, PortFacts)> {
    match e case PortConnected(i, x) => Some((i, x)) case _ => None
  }

  ghost function LinkRow(e: Body): Option<(Id, LinkFacts)> {
    match e case DeviceLinked(l, x) => Some((l, x)) case _ => None
  }

  ghost function OntRow(e: Body): Option<(Id, Assignment)> {
    match e case OntAssigned(a) => Some((a.subscriber, a)) case _ => None
  }

  ghost function CpeRow(e: Body): Option<(Id, Assignment)> {
    match e case CpeProvisioned(a) => Some((a.subscriber, a)) case _ => None
  }

  ghost function BindingRow(e: Body): Option<Binding> {
    match e case ServiceBound(b) => Some(b) case _ => None
  }

  ghost function RefusedRow(e: Body): Option<Assignment> {
    if e.CpeProvisioned? && e.grant.verdict == NotCounted then Some(e.grant) else None
  }

  ghost function KindRow(e: Body): Option<DeviceType> {
    if e.DeviceCreated? then Some(e.deviceFacts.kind) else None
  }

  ghost function OltRow(e: Body): Option<Id> {
    if e.ServiceBound? && e.binding.domain == OltDomain then Some(e.binding.at.0) else None
  }

  ghost function AonRow(e: Body): Option<Id> {
    if e.ServiceBound? && e.binding.domain == AonDomain then Some(e.binding.at.0) else None
  }

  ghost function PonRow(e: Body): Option<Id> {
    if e.ServiceBound? && e.binding.domain == OltDomain then Some(e.binding.at.1) else None
  }

  ghost predicate ShowsRows(log: Log, p: Projection) {
    && p.physical.devices == Latest(log, DeviceRow) && p.physical.ports == Latest(log, PortRow)
    && p.physical.links == Latest(log, LinkRow)
    && p.service.onts == Latest(log, OntRow) && p.service.cpes == Latest(log, CpeRow)
    && p.service.bindings == Listed(log, BindingRow) && p.service.refused == Listed(log, RefusedRow)
  }

  ghost predicate ShowsCounts(log: Log, p: Projection) {
    && (forall k :: Get(p.physical.counts, k) == Recorded(log, KindRow, k))
    && (forall a :: Get(p.analytics.olt, a) == Recorded(log, OltRow, a))
    && (forall a :: Get(p.analytics.aon, a) == Recorded(log, AonRow, a))
    && (forall i :: Get(p.analytics.pon, i) == Recorded(log, PonRow, i))
  }

  /** A replay shows the last row recorded under each id, and the bindings and refusals in order. */
  lemma {:induction false} ReplayShowsRows(log: Log)
    ensures ShowsRows(log, Replayed(log))
  {
    if log != [] {
      ReplayShowsRows(log[..|log| - 1]);
    }
  }

  /** A replay counts the recorded device kinds and bindings. */
  lemma {:induction false} ReplayShowsCounts(log: Log)
    ensures ShowsCounts(log, Replayed(log))
  {
    if log != [] {
      ReplayShowsCounts(log[..|log| - 1]);
    }
  }

  // ---- What the log of a snapshot means ----

  function OfKind(t: Topology, ds: set<Id>, k: DeviceType): set<Id> {
    set d | d in ds && KindOf(t, d, k)
  }

  /** The physical projection holds exactly the rows in `ds`, `ps` and `ls`. */
  ghost predicate Shows(t: Topology, h: Physical, ds: set<Id>, ps: set<Id>, ls: set<Id>) {
    && h.devices == (map d | d in ds && d in t.devices :: FactsOfDevice(t.devices[d]))
    && h.ports == (map i | i in ps && i in t.ifaces :: FactsOfPort(t.ifaces[i]))
    && h.links == (map l | l in ls && l in t.links :: FactsOfLink(t, t.links[l]))
    && (forall k :: Get(h.counts, k) == |OfKind(t, ds, k)|)
  }

  type Verdicts = map<Id, Decision>

  predicate BoundIn(e: Decision, dom: Domain) {
    e.verdict.Counted? && e.domain == Some(dom) && e.at.Some?
  }

  predicate BoundInAt(e: Decision, dom: Domain, a: Id) {
    BoundIn(e, dom) && e.at.value.0 == a
  }

  predicate BoundAtPon(e: Decision, i: Id) {
    BoundIn(e, OltDomain) && e.at.value.1 == i
  }

  function BoundTo(v: Verdicts, seen: set<Id>, dom: Domain, a: Id): set<Id> {
    set x | x in seen && x in v && BoundInAt(v[x], dom, a)
  }

  function BoundToPon(v: Verdicts, seen: set<Id>, i: Id): set<Id> {
    set x | x in seen && x in v && BoundAtPon(v[x], i)
  }

  function CountedIn(v: Verdicts, seen: set<Id>): set<Id> {
    set x | x in seen && x in v && v[x].verdict.Counted?
  }

  /** The analytics count exactly the bindings of the subscribers in `seen`. */
  ghost predicate Tallies(v: Verdicts, p: Projection, seen: set<Id>) {
    && (forall a :: Get(p.analytics.olt, a) == |BoundTo(v, seen, OltDomain, a)|)
    && (forall a :: Get(p.analytics.aon, a) == |BoundTo(v, seen, AonDomain, a)|)
    && (forall i :: Get(p.analytics.pon, i) == |BoundToPon(v, seen, i)|)
    && |p.service.bindings| == |CountedIn(v, seen)|
  }

  ghost predicate Assigns(v: Verdicts, s: Service, seen: set<Id>) {
    && s.onts == (map x | x in seen && x in v && IsOntType(v[x].kind) :: AssignmentOf(v[x]))
    && s.cpes == (map x | x in seen && x in v && v[x].kind == AON_CPE :: AssignmentOf(v[x]))
    && (forall a :: a in s.refused <==> Refused(v, seen, a))
  }

  ghost predicate Refused(v: Verdicts, seen: set<Id>, a: Assignment) {
    a.subscriber in seen && a.subscriber in v && v[a.subscriber].kind == AON_CPE && a.verdict.NotCounted? &&
      a == AssignmentOf(v[a.subscriber])
  }

  predicate IsAssignment(e: Body) {
    e.OntAssigned? || e.CpeProvisioned?
  }

  /** Sequence numbers count up, and a binding directly follows and names the assignment of its own subscriber. */
  ghost predicate Causal(log: Log) {
    && (forall n :: 0 <= n < |log| ==> log[n].sequence == n)
    && (forall n :: 0 <= n < |log| && log[n].body.ServiceBound? ==> HasCause(log, n, log[n].body.binding))
  }

  ghost predicate HasCause(log: Log, n: nat, b: Binding) {
    && n == b.source + 1 && b.source < |log| && IsAssignment(log[b.source].body)
    && log[b.source].body.grant == Assignment(b.subscriber, b.kind, Some(b.at), Counted, log[b.source].body.grant.why)
  }

  // ---- Which events, in which order ----

  ghost function Bodies(log: Log): (r: seq<Body>)
    ensures |r| == |log|
  {
    if log == [] then [] else Bodies(log[..|log| - 1]) + [log[|log| - 1].body]
  }

  ghost function DeviceEvent(t: Topology, d: Id): Body
    requires d in t.devices
  {
    DeviceCreated(d, DeviceFacts(t.devices[d].kind, t.devices[d].status, t.devices[d].provisioned))
  }

  ghost function PortEvent(t: Topology, i: Id): Body
    requires i in t.ifaces
  {
    PortConnected(i, PortFacts(t.ifaces[i].device, t.ifaces[i].name, t.ifaces[i].role, t.ifaces[i].capacity))
  }

  ghost function LinkEvent(t: Topology, l: Id): Body
    requires l in t.links
  {
    var row := t.links[l];
    DeviceLinked(l, LinkFacts(
      row.a, row.b, if row.a in t.ifaces then Some(t.ifaces[row.a].device) else None,
      if row.b in t.ifaces then Some(t.ifaces[row.b].device) else None, row.kind, row.status))
  }

  /** The assignment of a subscriber, directly followed by its binding if it is counted. */
  ghost function EventsOf(e: Decision, source: nat): seq<Body> {
    var grant := Assignment(e.subscriber, e.kind, e.at, e.verdict, e.why);
    [if e.kind == AON_CPE then CpeProvisioned(grant) else OntAssigned(grant)] +
    if e.verdict == Counted && e.at.Some? && e.domain.Some?
    then [ServiceBound(Binding(e.subscriber, e.kind, e.domain.value, e.at.value, source))] else []
  }

  ghost function DecisionEvents(ds: seq<Decision>, base: nat): seq<Body> {
    if ds == [] then []
    else
      var front := DecisionEvents(ds[..|ds| - 1], base);
      front + EventsOf(ds[|ds| - 1], base + |front|)
  }

  /** Every key of a table once, in id order. */
  ghost predicate ListsIds(ids: seq<Id>, keys: set<Id>) {
    Sorted(ids) && NoDuplicates(ids) && forall x :: x in ids <==> x in keys
  }

  /** Every interface once, by device, name and id. */
  ghost predicate ListsPorts(t: Topology, ids: seq<Id>, keys: set<Id>) {
    && keys <= t.ifaces.Keys && (forall x :: x in ids <==> x in keys)
    && forall i, j :: 0 <= i < j < |ids| ==>
         LexLt([t.ifaces[ids[i]].device, t.ifaces[ids[i]].name, ids[i]],
               [t.ifaces[ids[j]].device, t.ifaces[ids[j]].name, ids[j]])
  }

  /** Devices, then ports, then links, then the decisions in their order. */
  ghost predicate IsLogOf(t: Topology, ds: seq<Decision>, log: Log) {
    exists devs, ports, links, a, b, c ::
      && ListsIds(devs, t.devices.Keys) && AreDevices(t, a, devs)
      && ListsPorts(t, ports, t.ifaces.Keys) && ArePorts(t, b, ports)
      && ListsIds(links, t.links.Keys) && AreLinks(t, c, links)
      && Bodies(log) == a + b + c + DecisionEvents(ds, |a + b + c|)
  }

  ghost predicate AreDevices(t: Topology, es: seq<Body>, ids: seq<Id>) {
    |es| == |ids| && forall i :: 0 <= i < |ids| ==> ids[i] in t.devices && es[i] == DeviceEvent(t, ids[i])
  }

  ghost predicate ArePorts(t: Topology, es: seq<Body>, ids: seq<Id>) {
    |es| == |ids| && forall i :: 0 <= i < |ids| ==> ids[i] in t.ifaces && es[i] == PortEvent(t, ids[i])
  }

  ghost predicate AreLinks(t: Topology, es: seq<Body>, ids: seq<Id>) {
    |es| == |ids| && forall i :: 0 <= i < |ids| ==> ids[i] in t.links && es[i] == LinkEvent(t, ids[i])
  }

  lemma BodiesAppend(log: Log, e: Body)
    ensures Bodies(Append(log, e)) == Bodies(log) + [e]
  {
    assert Append(log, e)[..|log|] == log;
  }

  lemma DevicesNext(t: Topology, es: seq<Body>, ids: seq<Id>, d: Id)
    requires AreDevices(t, es, ids) && d in t.devices
    ensures AreDevices(t, es + [DeviceCreated(d, FactsOfDevice(t.devices[d]))], ids + [d])
  {
  }

  lemma PortsNext(t: Topology, es: seq<Body>, ids: seq<Id>, i: Id)
    requires ArePorts(t, es, ids) && i in t.ifaces
    ensures ArePorts(t, es + [PortConnected(i, FactsOfPort(t.ifaces[i]))], ids + [i])
  {
  }

  lemma LinksNext(t: Topology, es: seq<Body>, ids: seq<Id>, l: Id)
    requires AreLinks(t, es, ids) && l in t.links
    ensures AreLinks(t, es + [DeviceLinked(l, FactsOfLink(t, t.links[l]))], ids + [l])
  {
  }

  lemma IsListing(ids: seq<Id>, keys: set<Id>)
    requires Sorted(ids) && NoDuplicates(ids) && forall x :: x in ids <==> x in keys
    ensures ListsIds(ids, keys)
  {
  }

  lemma NoEvents(t: Topology)
    ensures Bodies([]) == [] && AreDevices(t, [], []) && ArePorts(t, [], []) && AreLinks(t, [], [])
    ensures ListsPorts(t, [], {})
  {
  }

  lemma PortOrderNext(t: Topology, ids: seq<Id>, keys: set<Id>, rest: set<Id>, i: Id)
    requires ListsPorts(t, ids, keys) && i in rest && rest <= t.ifaces.Keys
    requires forall x, y :: x in keys && y in rest ==> LexLt(Tracers.PortKey(t, x), Tracers.PortKey(t, y))
    requires forall x :: x in rest - {i} ==> LexLt(Tracers.PortKey(t, i), Tracers.PortKey(t, x))
    ensures ListsPorts(t, ids + [i], keys + {i})
    ensures forall x, y :: x in keys + {i} && y in rest - {i} ==> LexLt(Tracers.PortKey(t, x), Tracers.PortKey(t, y))
  {
    forall x | x in t.ifaces ensures Tracers.PortKey(t, x) == [t.ifaces[x].device, t.ifaces[x].name, x] {
    }
    hide LexLt, Tracers.PortKey;
    var s := ids + [i];
    forall a, b | 0 <= a < b < |s| ensures
      LexLt([t.ifaces[s[a]].device, t.ifaces[s[a]].name, s[a]], [t.ifaces[s[b]].device, t.ifaces[s[b]].name, s[b]])
    {
      assert s[a] in keys;
      assert b == |ids| ==> s[b] == i;
    }
  }

  // ---- Building the log ----

  function Append(log: Log, e: Body): Log {
    log + [Event(|log|, e)]
  }

  lemma AppendReplays(log: Log, e: Body)
    ensures Replayed(Append(log, e)) == Apply(Replayed(log), e)
  {
    ReplayedStep(log, Event(|log|, e));
  }

  lemma AppendCausal(log: Log, e: Body)
    requires Causal(log) && (e.ServiceBound? ==> |log| > 0 && HasCause(log, |log|, e.binding))
    ensures Causal(Append(log, e))
  {
    var log' := Append(log, e);
    forall n | 0 <= n < |log'| && log'[n].body.ServiceBound? ensures HasCause(log', n, log'[n].body.binding) {
      if n < |log| {
        assert HasCause(log, n, log[n].body.binding);
      }
    }
  }

  lemma ShowDevice(t: Topology, h: Physical, ds: set<Id>, d: Id)
    requires Shows(t, h, ds, {}, {}) && d in t.devices && d !in ds
    ensures Shows(t, Apply(BLANK.(physical := h), DeviceCreated(d, FactsOfDevice(t.devices[d]))).physical, ds + {d},
      {}, {})
  {
    hide OfKind, FactsOfDevice;
    forall k { KindGains(t, ds, d, k); }
  }

  lemma KindGains(t: Topology, ds: set<Id>, d: Id, k: DeviceType)
    requires d in t.devices && d !in ds
    ensures |OfKind(t, ds + {d}, k)| == |OfKind(t, ds, k)| + if k == FactsOfDevice(t.devices[d]).kind then 1 else 0
  {
    assert d !in OfKind(t, ds, k);
    assert KindOf(t, d, k) <==> k == FactsOfDevice(t.devices[d]).kind;
    hide KindOf, FactsOfDevice;
    var before, after := OfKind(t, ds, k), OfKind(t, ds + {d}, k);
    assert forall x :: x in after <==> x in before || (x == d && KindOf(t, d, k));
    hide OfKind;
    assert after == if KindOf(t, d, k) then before + {d} else before;
  }

  lemma ShowPort(t: Topology, h: Physical, ds: set<Id>, ps: set<Id>, i: Id)
    requires Shows(t, h, ds, ps, {}) && i in t.ifaces
    ensures Shows(t, h.(ports := h.ports[i := FactsOfPort(t.ifaces[i])]), ds, ps + {i}, {})
  {
    hide OfKind;
  }

  lemma ShowLink(t: Topology, h: Physical, ds: set<Id>, ps: set<Id>, ls: set<Id>, l: Id)
    requires Shows(t, h, ds, ps, ls) && l in t.links
    ensures Shows(t, h.(links := h.links[l := FactsOfLink(t, t.links[l])]), ds, ps, ls + {l})
  {
    hide OfKind;
  }

  lemma ShowsNothing(t: Topology)
    ensures Shows(t, BLANK.physical, {}, {}, {})
  {
    assert forall k :: OfKind(t, {}, k) == {};
  }

  method LogDevices(t: Topology) returns (log: Log, ghost devs: seq<Id>)
    ensures Causal(log) && Replayed(log).service == BLANK.service && Replayed(log).analytics == BLANK.analytics
    ensures Shows(t, Replayed(log).physical, t.devices.Keys, {}, {})
    ensures ListsIds(devs, t.devices.Keys) && AreDevices(t, Bodies(log), devs)
  {
    hide *;
    log := [];
    StartsBlank(t);
    NoEvents(t);
    var ids := SortedOf(t.devices.Keys);
    ghost var seen: set<Id> := {};
    for n := 0 to |ids|
      invariant Causal(log) && Replayed(log) == BLANK.(physical := Replayed(log).physical)
      invariant Shows(t, Replayed(log).physical, seen, {}, {}) && AreDevices(t, Bodies(log), ids[..n])
      invariant forall x :: x in seen <==> x in ids[..n]
    {
      var d := ids[n];
      assert ids[..n + 1] == ids[..n] + [d];
      DistinctAt(ids, n);
      assert d in ids;
      var e := DeviceCreated(d, FactsOfDevice(t.devices[d]));
      ShowDevice(t, Replayed(log).physical, seen, d);
      AppendCausal(log, e);
      AppendReplays(log, e);
      ApplyDevice(Replayed(log), e);
      BodiesAppend(log, e);
      DevicesNext(t, Bodies(log), ids[..n], d);
      log, seen := Append(log, e), seen + {d};
    }
    assert ids[..|ids|] == ids;
    assert seen == t.devices.Keys;
    devs := ids;
    IsListing(ids, t.devices.Keys);
  }

  lemma StartsBlank(t: Topology)
    ensures Replayed([]) == BLANK && Causal([]) && Shows(t, BLANK.physical, {}, {}, {})
  {
    ShowsNothing(t);
  }

  lemma ApplyDevice(p: Projection, e: Body)
    requires e.DeviceCreated? || e.PortConnected? || e.DeviceLinked?
    ensures Apply(p, e).service == p.service && Apply(p, e).analytics == p.analytics
    ensures p == BLANK.(physical := p.physical) ==> Apply(p, e) == BLANK.(physical := Apply(p, e).physical)
    ensures e.PortConnected? ==> Apply(p, e).physical == p.physical.(ports := p.physical.ports[e.port := e.portFacts])
    ensures e.DeviceLinked? ==> Apply(p, e).physical == p.physical.(links := p.physical.links[e.link := e.linkFacts])
  {
  }

  method LogPorts(t: Topology, log0: Log) returns (log: Log, ghost ports: seq<Id>, ghost es: seq<Body>)
    requires Causal(log0) && Shows(t, Replayed(log0).physical, t.devices.Keys, {}, {})
    ensures Causal(log) && Replayed(log).service == Replayed(log0).service
    ensures Replayed(log).analytics == Replayed(log0).analytics
    ensures Shows(t, Replayed(log).physical, t.devices.Keys, t.ifaces.Keys, {})
    ensures Bodies(log) == Bodies(log0) + es && ListsPorts(t, ports, t.ifaces.Keys) && ArePorts(t, es, ports)
  {
    hide *;
    log, ports, es := log0, [], [];
    NoEvents(t);
    assert Bodies(log0) + [] == Bodies(log0);
    var rest := t.ifaces.Keys;
    ghost var seen: set<Id> := {};
    while rest != {}
      invariant Causal(log) && Replayed(log).service == Replayed(log0).service
      invariant Replayed(log).analytics == Replayed(log0).analytics
      invariant Shows(t, Replayed(log).physical, t.devices.Keys, seen, {})
      invariant seen + rest == t.ifaces.Keys
      invariant Bodies(log) == Bodies(log0) + es && ListsPorts(t, ports, seen) && ArePorts(t, es, ports)
      invariant forall x, y :: x in seen && y in rest ==> LexLt(Tracers.PortKey(t, x), Tracers.PortKey(t, y))
      decreases rest
    {
      var i := Tracers.LeastPort(t, rest);
      var e := PortConnected(i, FactsOfPort(t.ifaces[i]));
      ShowPort(t, Replayed(log).physical, t.devices.Keys, seen, i);
      AppendCausal(log, e);
      AppendReplays(log, e);
      ApplyDevice(Replayed(log), e);
      BodiesAppend(log, e);
      PortsNext(t, es, ports, i);
      PortOrderNext(t, ports, seen, rest, i);
      assert Bodies(log0) + es + [e] == Bodies(log0) + (es + [e]);
      ports, es := ports + [i], es + [e];
      log, seen, rest := Append(log, e), seen + {i}, rest - {i};
    }
  }

  method LogLinks(t: Topology, log0: Log) returns (log: Log, ghost links: seq<Id>, ghost es: seq<Body>)
    requires Causal(log0) && Shows(t, Replayed(log0).physical, t.devices.Keys, t.ifaces.Keys, {})
    ensures Causal(log) && Replayed(log).service == Replayed(log0).service
    ensures Replayed(log).analytics == Replayed(log0).analytics
    ensures Shows(t, Replayed(log).physical, t.devices.Keys, t.ifaces.Keys, t.links.Keys)
    ensures Bodies(log) == Bodies(log0) + es && ListsIds(links, t.links.Keys) && AreLinks(t, es, links)
  {
    hide *;
    log, es := log0, [];
    NoEvents(t);
    assert Bodies(log0) + [] == Bodies(log0);
    var ids := SortedOf(t.links.Keys);
    ghost var seen: set<Id> := {};
    for n := 0 to |ids|
      invariant Causal(log) && Replayed(log).service == Replayed(log0).service
      invariant Replayed(log).analytics == Replayed(log0).analytics
      invariant Shows(t, Replayed(log).physical, t.devices.Keys, t.ifaces.Keys, seen)
      invariant Bodies(log) == Bodies(log0) + es && AreLinks(t, es, ids[..n])
      invariant forall x :: x in seen <==> x in ids[..n]
    {
      var l := ids[n];
      assert ids[..n + 1] == ids[..n] + [l];
      assert l in ids;
      var e := DeviceLinked(l, FactsOfLink(t, t.links[l]));
      ShowLink(t, Replayed(log).physical, t.devices.Keys, t.ifaces.Keys, seen, l);
      AppendCausal(log, e);
      AppendReplays(log, e);
      ApplyDevice(Replayed(log), e);
      BodiesAppend(log, e);
      LinksNext(t, es, ids[..n], l);
      assert Bodies(log0) + es + [e] == Bodies(log0) + (es + [e]);
      es := es + [e];
      log, seen := Append(log, e), seen + {l};
    }
    assert ids[..|ids|] == ids;
    links := ids;
    IsListing(ids, t.links.Keys);
    assert seen == t.links.Keys;
  }

  // ---- Decisions ----

  /** The decisions keyed by subscriber; a key occurs once, so sorting by it loses nothing. */
  predicate Keyed(v: Verdicts) {
    forall x :: x in v ==>
      v[x].subscriber == x && IsLeafKind(v[x].kind) && (v[x].verdict.Counted? ==> v[x].at.Some? && v[x].domain.Some?)
  }

  function AssignBody(e: Decision): Body {
    if e.kind == AON_CPE then CpeProvisioned(AssignmentOf(e)) else OntAssigned(AssignmentOf(e))
  }

  function BindBody(e: Decision, source: nat): Body
    requires e.at.Some? && e.domain.Some?
  {
    ServiceBound(Binding(e.subscriber, e.kind, e.domain.value, e.at.value, source))
  }

  function LogDecision(log: Log, e: Decision): Log
    requires e.verdict.Counted? ==> e.at.Some? && e.domain.Some?
  {
    var log' := if IsLeafKind(e.kind) then Append(log, AssignBody(e)) else log;
    if e.verdict.Counted? then Append(log', BindBody(e, if |log'| > 0 then |log'| - 1 else 0)) else log'
  }

  lemma DecisionCausal(log: Log, e: Decision)
    requires Causal(log) && IsLeafKind(e.kind) && (e.verdict.Counted? ==> e.at.Some? && e.domain.Some?)
    ensures Causal(LogDecision(log, e))
  {
    hide Causal;
    var log' := Append(log, AssignBody(e));
    AppendCausal(log, AssignBody(e));
    if e.verdict.Counted? {
      AppendCausal(log', BindBody(e, |log'| - 1));
    }
  }

  /** Replaying the events of one decision. */
  function ApplyDecision(p: Projection, e: Decision, source: nat): Projection
    requires e.verdict.Counted? ==> e.at.Some? && e.domain.Some?
  {
    var p' := Apply(p, AssignBody(e));
    if e.verdict.Counted? then Apply(p', BindBody(e, source)) else p'
  }

  lemma DecisionReplays(log: Log, e: Decision)
    requires IsLeafKind(e.kind) && (e.verdict.Counted? ==> e.at.Some? && e.domain.Some?)
    ensures Replayed(LogDecision(log, e)) == ApplyDecision(Replayed(log), e, |log|)
  {
    hide Replayed, Apply;
    var log' := Append(log, AssignBody(e));
    AppendReplays(log, AssignBody(e));
    if e.verdict.Counted? {
      AppendReplays(log', BindBody(e, |log'| - 1));
    }
  }

  lemma BoundToGrows(v: Verdicts, seen: set<Id>, x: Id, dom: Domain, a: Id)
    requires x in v && x !in seen
    ensures |BoundTo(v, seen + {x}, dom, a)| == |BoundTo(v, seen, dom, a)| + if BoundInAt(v[x], dom, a) then 1 else 0
  {
    hide BoundInAt;
    assert BoundTo(v, seen + {x}, dom, a) == BoundTo(v, seen, dom, a) + if BoundInAt(v[x], dom, a) then {x} else {};
  }

  lemma BoundToPonGrows(v: Verdicts, seen: set<Id>, x: Id, i: Id)
    requires x in v && x !in seen
    ensures |BoundToPon(v, seen + {x}, i)| == |BoundToPon(v, seen, i)| + if BoundAtPon(v[x], i) then 1 else 0
  {
    hide BoundAtPon;
    assert BoundToPon(v, seen + {x}, i) == BoundToPon(v, seen, i) + if BoundAtPon(v[x], i) then {x} else {};
  }

  lemma CountedGrows(v: Verdicts, seen: set<Id>, x: Id)
    requires x in v && x !in seen
    ensures |CountedIn(v, seen + {x})| == |CountedIn(v, seen)| + if v[x].verdict.Counted? then 1 else 0
  {
    assert CountedIn(v, seen + {x}) == CountedIn(v, seen) + if v[x].verdict.Counted? then {x} else {};
  }

  lemma TallyDecision(v: Verdicts, p: Projection, seen: set<Id>, x: Id, source: nat)
    requires Keyed(v) && Tallies(v, p, seen) && x in v && x !in seen
    ensures Tallies(v, ApplyDecision(p, v[x], source), seen + {x})
  {
    hide BoundTo, BoundToPon, CountedIn;
    forall dom, a { BoundToGrows(v, seen, x, dom, a); }
    forall i { BoundToPonGrows(v, seen, x, i); }
    CountedGrows(v, seen, x);
  }

  lemma AssignFields(p: Projection, e: Decision, source: nat)
    requires IsLeafKind(e.kind) && (e.verdict.Counted? ==> e.at.Some? && e.domain.Some?)
    ensures var s, s', a := p.service, ApplyDecision(p, e, source).service, AssignmentOf(e);
      && s'.onts == (if IsOntType(e.kind) then s.onts[e.subscriber := a] else s.onts)
      && s'.cpes == (if e.kind == AON_CPE then s.cpes[e.subscriber := a] else s.cpes)
      && s'.refused == if e.kind == AON_CPE && e.verdict.NotCounted? then s.refused + [a] else s.refused
  {
  }

  lemma RefusedGrows(v: Verdicts, seen: set<Id>, x: Id, a: Assignment)
    requires Keyed(v) && x in v && x !in seen
    ensures Refused(v, seen + {x}, a) <==>
      Refused(v, seen, a) || (v[x].kind == AON_CPE && v[x].verdict.NotCounted? && a == AssignmentOf(v[x]))
  {
  }

  lemma AssignDecision(v: Verdicts, p: Projection, seen: set<Id>, x: Id, source: nat)
    requires Keyed(v) && Assigns(v, p.service, seen) && x in v && x !in seen
    ensures Assigns(v, ApplyDecision(p, v[x], source).service, seen + {x})
  {
    hide ApplyDecision, AssignmentOf, Refused;
    AssignFields(p, v[x], source);
    forall a { RefusedGrows(v, seen, x, a); }
  }

  lemma DecisionPhysical(p: Projection, e: Decision, source: nat)
    requires e.verdict.Counted? ==> e.at.Some? && e.domain.Some?
    ensures ApplyDecision(p, e, source).physical == p.physical
  {
  }

  lemma StartsUnassigned(v: Verdicts, p: Projection)
    requires p.service == BLANK.service && p.analytics == BLANK.analytics
    ensures Tallies(v, p, {}) && Assigns(v, p.service, {})
  {
    assert forall dom, a :: BoundTo(v, {}, dom, a) == {};
    assert forall i :: BoundToPon(v, {}, i) == {};
    assert CountedIn(v, {}) == {};
  }

  lemma KeyedEntry(v: Verdicts, x: Id)
    requires Keyed(v) && x in v
    ensures IsLeafKind(v[x].kind) && (v[x].verdict.Counted? ==> v[x].at.Some? && v[x].domain.Some?)
    ensures v[x].kind in {ONT, BUSINESS_ONT, AON_CPE}
  {
  }

  lemma DecisionsNext(log0: Log, log: Log, ds: seq<Decision>, e: Decision)
    requires Bodies(log) == Bodies(log0) + DecisionEvents(ds, |log0|)
    requires e.kind in {ONT, BUSINESS_ONT, AON_CPE} && (e.verdict.Counted? ==> e.at.Some? && e.domain.Some?)
    ensures Bodies(LogDecision(log, e)) == Bodies(log0) + DecisionEvents(ds + [e], |log0|)
  {
    hide Bodies, DecisionEvents, LogDecision;
    DecisionBodies(log, e);
    DecisionEventsSnoc(ds, e, |log0|);
    var front, more := DecisionEvents(ds, |log0|), EventsOf(e, |log|);
    assert Bodies(log0) + front + more == Bodies(log0) + (front + more);
  }

  lemma DecisionEventsSnoc(ds: seq<Decision>, e: Decision, base: nat)
    ensures DecisionEvents(ds + [e], base) == DecisionEvents(ds, base) + EventsOf(e, base + |DecisionEvents(ds, base)|)
  {
    assert (ds + [e])[..|ds|] == ds;
  }

  lemma DecisionBodies(log: Log, e: Decision)
    requires e.kind in {ONT, BUSINESS_ONT, AON_CPE} && (e.verdict.Counted? ==> e.at.Some? && e.domain.Some?)
    ensures Bodies(LogDecision(log, e)) == Bodies(log) + EventsOf(e, |log|)
  {
    hide *;
    EventsAre(e, |log|);
    DecisionAppends(log, e);
    var grant := AssignBody(e);
    var log' := Append(log, grant);
    BodiesAppend(log, grant);
    if e.verdict.Counted? {
      var bound := BindBody(e, |log|);
      BodiesAppend(log', bound);
      assert Bodies(log) + [grant] + [bound] == Bodies(log) + [grant, bound];
    }
  }

  lemma DecisionAppends(log: Log, e: Decision)
    requires IsLeafKind(e.kind) && (e.verdict.Counted? ==> e.at.Some? && e.domain.Some?)
    ensures LogDecision(log, e) == if e.verdict.Counted? then Append(Append(log, AssignBody(e)), BindBody(e, |log|))
      else Append(log, AssignBody(e))
  {
    hide AssignBody;
  }

  lemma EventsAre(e: Decision, source: nat)
    requires e.kind in {ONT, BUSINESS_ONT, AON_CPE} && (e.verdict.Counted? ==> e.at.Some? && e.domain.Some?)
    ensures IsLeafKind(e.kind)
    ensures EventsOf(e, source) ==
      if e.verdict.Counted? then [AssignBody(e), BindBody(e, source)] else [AssignBody(e)]
  {
  }

  /** `ds` holds the verdicts in id order. */
  ghost predicate InOrderOf(v: Verdicts, ids: seq<Id>, ds: seq<Decision>) {
    |ds| == |ids| && forall n :: 0 <= n < |ids| ==> ids[n] in v && ds[n] == v[ids[n]]
  }

  lemma OrderNext(v: Verdicts, ids: seq<Id>, ds: seq<Decision>, x: Id)
    requires InOrderOf(v, ids, ds) && x in v
    ensures InOrderOf(v, ids + [x], ds + [v[x]])
  {
  }

  lemma NothingInOrder(v: Verdicts, base: nat)
    ensures InOrderOf(v, [], []) && DecisionEvents([], base) == []
  {
  }

  method LogDecisions(v: Verdicts, log0: Log) returns (log: Log, ghost ids: seq<Id>, ghost ds: seq<Decision>)
    requires Keyed(v) && Causal(log0) && Replayed(log0).service == BLANK.service
    requires Replayed(log0).analytics == BLANK.analytics
    ensures Causal(log) && Replayed(log).physical == Replayed(log0).physical
    ensures Tallies(v, Replayed(log), v.Keys) && Assigns(v, Replayed(log).service, v.Keys)
    ensures ListsIds(ids, v.Keys) && InOrderOf(v, ids, ds)
    ensures Bodies(log) == Bodies(log0) + DecisionEvents(ds, |log0|)
  {
    hide *;
    log, ds := log0, [];
    var keys := SortedOf(v.Keys);
    ids := keys;
    IsListing(ids, v.Keys);
    NothingInOrder(v, |log0|);
    assert Bodies(log0) + [] == Bodies(log0);
    ghost var seen: set<Id> := {};
    StartsUnassigned(v, Replayed(log));
    for n := 0 to |keys|
      invariant Causal(log) && Replayed(log).physical == Replayed(log0).physical
      invariant Tallies(v, Replayed(log), seen) && Assigns(v, Replayed(log).service, seen)
      invariant InOrderOf(v, ids[..n], ds) && Bodies(log) == Bodies(log0) + DecisionEvents(ds, |log0|)
      invariant forall x :: x in seen <==> x in ids[..n]
    {
      var x := keys[n];
      assert ids[..n + 1] == ids[..n] + [x];
      DistinctAt(ids, n);
      assert x in ids;
      KeyedEntry(v, x);
      DecisionCausal(log, v[x]);
      DecisionReplays(log, v[x]);
      DecisionPhysical(Replayed(log), v[x], |log|);
      TallyDecision(v, Replayed(log), seen, x, |log|);
      AssignDecision(v, Replayed(log), seen, x, |log|);
      DecisionsNext(log0, log, ds, v[x]);
      OrderNext(v, ids[..n], ds, x);
      ds := ds + [v[x]];
      log, seen := LogDecision(log, v[x]), seen + {x};
    }
    assert ids[..|ids|] == ids;
    assert seen == v.Keys;
  }

  // ---- The round trip ----

  /** `sorted(decisions, key=subscriber)` visits each decision once, because no subscriber has two. */
  function VerdictsOf(ds: seq<Decision>): (v: Verdicts)
    ensures forall x :: x in v ==> v[x] in ds && v[x].subscriber == x
    ensures forall e :: e in ds ==> e.subscriber in v
  {
    if ds == [] then map[] else VerdictsOf(ds[1..])[ds[0].subscriber := ds[0]]
  }

  ghost predicate IsDeviceRow(d: Device, f: DeviceFacts) {
    f.kind == d.kind && f.status == d.status && f.provisioned == d.provisioned
  }

  ghost predicate IsPortRow(i: Interface, f: PortFacts) {
    f.device == i.device && f.name == i.name && f.role == i.role && f.capacity == i.capacity
  }

  /** The columns of the link row, and the devices of its interface rows where those exist. */
  ghost predicate IsLinkRow(t: Topology, l: Link, f: LinkFacts) {
    && f.a == l.a && f.b == l.b && f.kind == l.kind && f.status == l.status
    && (if l.a in t.ifaces then f.aDevice == Some(t.ifaces[l.a].device) else f.aDevice == None)
    && (if l.b in t.ifaces then f.bDevice == Some(t.ifaces[l.b].device) else f.bDevice == None)
  }

  lemma ShowsGivesBack(t: Topology, h: Physical)
    requires Shows(t, h, t.devices.Keys, t.ifaces.Keys, t.links.Keys)
    ensures h.devices.Keys == t.devices.Keys && h.ports.Keys == t.ifaces.Keys && h.links.Keys == t.links.Keys
    ensures forall d :: d in t.devices ==> IsDeviceRow(t.devices[d], h.devices[d])
    ensures forall i :: i in t.ifaces ==> IsPortRow(t.ifaces[i], h.ports[i])
    ensures forall l :: l in t.links ==> IsLinkRow(t, t.links[l], h.links[l])
    ensures forall k :: Get(h.counts, k) == |set d | d in t.devices && t.devices[d].kind == k|
  {
    forall k ensures OfKind(t, t.devices.Keys, k) == set d | d in t.devices && t.devices[d].kind == k {
    }
    hide OfKind;
  }

  ghost predicate GivesBack(t: Topology, m: Model, p: Projection) {
    && p.physical.devices.Keys == t.devices.Keys && p.physical.ports.Keys == t.ifaces.Keys
    && p.physical.links.Keys == t.links.Keys
    && (forall d :: d in t.devices ==> IsDeviceRow(t.devices[d], p.physical.devices[d]))
    && (forall i :: i in t.ifaces ==> IsPortRow(t.ifaces[i], p.physical.ports[i]))
    && (forall l :: l in t.links ==> IsLinkRow(t, t.links[l], p.physical.links[l]))
    && (forall k :: Get(p.physical.counts, k) == |set d | d in t.devices && t.devices[d].kind == k|)
    && (forall a :: KindOf(t, a, DeviceType.OLT) ==> a in m.acc.subs && Get(p.analytics.olt, a) == |m.acc.subs[a]|)
    && (forall a :: KindOf(t, a, AON_SWITCH) ==> a in m.acc.subs && Get(p.analytics.aon, a) == |m.acc.subs[a]|)
    && (forall k: Port :: PortOk(t, k) && KindOf(t, k.0, DeviceType.OLT) ==>
      Get(p.analytics.pon, k.1) == Get(m.acc.pon, k))
    && |p.service.bindings| == m.oltTotal + m.aonTotal
  }

  lemma OneVerdictEach(ds: seq<Decision>, i: nat)
    requires i < |ds| && forall j, k :: 0 <= j < k < |ds| ==> ds[j].subscriber != ds[k].subscriber
    ensures ds[i].subscriber in VerdictsOf(ds) && VerdictsOf(ds)[ds[i].subscriber] == ds[i]
  {
    var v := VerdictsOf(ds);
    assert ds[i] in ds;
    var e := v[ds[i].subscriber];
    var k :| 0 <= k < |ds| && ds[k] == e;
    assert k == i;
  }

  lemma VerdictsKeyed(t: Topology, ds: seq<Decision>)
    requires DecidesAll(t, ds)
    ensures Keyed(VerdictsOf(ds))
  {
    hide IsLeaf, HasEntry;
    var v := VerdictsOf(ds);
    forall x | x in v ensures IsLeafKind(v[x].kind) && (v[x].verdict.Counted? ==> v[x].at.Some? && v[x].domain.Some?) {
      var k :| 0 <= k < |ds| && ds[k] == v[x];
      assert Truthful(t, ds[k]) && WellAnchored(t, ds[k]);
    }
  }

  lemma CountedAtIsBound(t: Topology, e: Decision, dom: Domain, a: Id)
    requires WellAnchored(t, e) && KindOf(t, a, AnchorKind(dom))
    ensures IsCountedAt(e, a) <==> BoundInAt(e, dom, a)
  {
  }

  lemma CountedAtPortIsBound(t: Topology, e: Decision, k: Port)
    requires WellAnchored(t, e) && PortOk(t, k) && KindOf(t, k.0, DeviceType.OLT)
    ensures IsCountedAtPort(e, k) <==> BoundAtPon(e, k.1)
  {
  }

  /** A counted decision is bound in the domain of the device it is anchored at. */
  lemma BoundIsCounted(t: Topology, ds: seq<Decision>, dom: Domain, a: Id)
    requires DecidesAll(t, ds) && KindOf(t, a, AnchorKind(dom))
    ensures BoundTo(VerdictsOf(ds), VerdictsOf(ds).Keys, dom, a) == CountedAt(ds, a)
  {
    hide Truthful, HasEntry, WellAnchored, IsLeaf, IsCountedAt, BoundInAt, KindOf;
    var v := VerdictsOf(ds);
    forall x | x in BoundTo(v, v.Keys, dom, a) ensures x in CountedAt(ds, a) {
      var k :| 0 <= k < |ds| && ds[k] == v[x];
      CountedAtIsBound(t, ds[k], dom, a);
    }
    forall x | x in CountedAt(ds, a) ensures x in BoundTo(v, v.Keys, dom, a) {
      var k :| 0 <= k < |ds| && IsCountedAt(ds[k], a) && ds[k].subscriber == x;
      OneVerdictEach(ds, k);
      CountedAtIsBound(t, ds[k], dom, a);
    }
  }

  lemma BoundIsCountedAtPon(t: Topology, ds: seq<Decision>, k: Port)
    requires DecidesAll(t, ds) && PortOk(t, k) && KindOf(t, k.0, DeviceType.OLT)
    ensures BoundToPon(VerdictsOf(ds), VerdictsOf(ds).Keys, k.1) == CountedAtPort(ds, k)
  {
    hide Truthful, HasEntry, WellAnchored, IsLeaf, IsCountedAtPort, BoundAtPon, KindOf, PortOk;
    var v := VerdictsOf(ds);
    forall x | x in BoundToPon(v, v.Keys, k.1) ensures x in CountedAtPort(ds, k) {
      var n :| 0 <= n < |ds| && ds[n] == v[x];
      CountedAtPortIsBound(t, ds[n], k);
    }
    forall x | x in CountedAtPort(ds, k) ensures x in BoundToPon(v, v.Keys, k.1) {
      var n :| 0 <= n < |ds| && IsCountedAtPort(ds[n], k) && ds[n].subscriber == x;
      OneVerdictEach(ds, n);
      CountedAtPortIsBound(t, ds[n], k);
    }
  }

  lemma AllCounted(t: Topology, ds: seq<Decision>)
    requires DecidesAll(t, ds)
    ensures CountedIn(VerdictsOf(ds), VerdictsOf(ds).Keys) == CountedIds(ds)
  {
    hide Truthful, HasEntry, IsLeaf, WellAnchored;
    var v := VerdictsOf(ds);
    forall x | x in CountedIn(v, v.Keys) ensures x in CountedIds(ds) {
      var n :| 0 <= n < |ds| && ds[n] == v[x];
    }
    forall x | x in CountedIds(ds) ensures x in CountedIn(v, v.Keys) {
      var n :| 0 <= n < |ds| && ds[n].verdict.Counted? && ds[n].subscriber == x;
      OneVerdictEach(ds, n);
    }
  }

  lemma RoundTrip(t: Topology, m: Model, p: Projection)
    requires DecidesAll(t, m.acc.ds) && Conserves(t, m)
    requires Shows(t, p.physical, t.devices.Keys, t.ifaces.Keys, t.links.Keys)
    requires Tallies(VerdictsOf(m.acc.ds), p, VerdictsOf(m.acc.ds).Keys)
    ensures GivesBack(t, m, p)
  {
    hide DecidesAll, BoundTo, BoundToPon, CountedIn, CountedAt, CountedAtPort, CountedIds, VerdictsOf, OfKind,
      PortKeys, PortOk, IsDeviceRow, IsPortRow, IsLinkRow, Shows;
    ShowsGivesBack(t, p.physical);
    var ds := m.acc.ds;
    forall a | KindOf(t, a, DeviceType.OLT) ensures Get(p.analytics.olt, a) == |m.acc.subs[a]| {
      BoundIsCounted(t, ds, OltDomain, a);
    }
    forall a | KindOf(t, a, AON_SWITCH) ensures Get(p.analytics.aon, a) == |m.acc.subs[a]| {
      BoundIsCounted(t, ds, AonDomain, a);
    }
    forall k: Port | PortOk(t, k) && KindOf(t, k.0, DeviceType.OLT)
      ensures Get(p.analytics.pon, k.1) == Get(m.acc.pon, k)
    {
      BoundIsCountedAtPon(t, ds, k);
    }
    AllCounted(t, ds);
  }

  lemma EventsTogether(t: Topology, ds: seq<Decision>, log: Log, devs: seq<Id>, ports: seq<Id>, links: seq<Id>,
                       a: seq<Body>, b: seq<Body>, c: seq<Body>)
    requires ListsIds(devs, t.devices.Keys) && AreDevices(t, a, devs)
    requires ListsPorts(t, ports, t.ifaces.Keys) && ArePorts(t, b, ports)
    requires ListsIds(links, t.links.Keys) && AreLinks(t, c, links)
    requires Bodies(log) == a + b + c + DecisionEvents(ds, |a + b + c|)
    ensures IsLogOf(t, ds, log)
  {
    hide ListsIds, ListsPorts, AreDevices, ArePorts, AreLinks, Bodies, DecisionEvents;
  }

  /** There is only one way to list a set in strictly increasing order. */
  lemma {:induction false} OneOrder(a: seq<Id>, b: seq<Id>)
    requires forall i, j :: 0 <= i < j < |a| ==> IdLt(a[i], a[j])
    requires forall i, j :: 0 <= i < j < |b| ==> IdLt(b[i], b[j])
    requires forall x :: x in a <==> x in b
    ensures a == b
  {
    assert b != [] ==> b[0] in b;
    if a != [] {
      assert a[0] in b;
      var i :| 0 <= i < |b| && b[i] == a[0];
      assert b[0] in a;
      var j :| 0 <= j < |a| && a[j] == b[0];
      IdLtTotal(a[0], b[0]);
      assert a[0] == b[0];
      forall x ensures x in a[1..] <==> x in b[1..] {
        RestMembers(a, x);
        RestMembers(b, x);
      }
      OneOrder(a[1..], b[1..]);
      assert a == [a[0]] + a[1..] && b == [b[0]] + b[1..];
    }
  }

  lemma RestMembers(s: seq<Id>, x: Id)
    requires s != [] && forall i, j :: 0 <= i < j < |s| ==> IdLt(s[i], s[j])
    ensures x in s[1..] <==> x in s && x != s[0]
  {
    IdLtTotal(s[0], s[0]);
    hide IdLt;
    assert s == [s[0]] + s[1..];
    if x in s[1..] {
      var k :| 0 <= k < |s| - 1 && s[1..][k] == x;
      assert IdLt(s[0], s[k + 1]);
    }
  }

  /** The sorted decisions are the decisions, which were made in id order. */
  lemma SameDecisions(t: Topology, ds: seq<Decision>, ids: seq<Id>, ds': seq<Decision>)
    requires DecidesAll(t, ds) && InIdOrder(ds)
    requires ListsIds(ids, VerdictsOf(ds).Keys) && InOrderOf(VerdictsOf(ds), ids, ds')
    ensures ds' == ds
  {
    hide Truthful, WellAnchored, HasEntry;
    var v := VerdictsOf(ds);
    var subs := seq(|ds|, n requires 0 <= n < |ds| => ds[n].subscriber);
    forall x ensures x in ids <==> x in subs {
      if x in ids {
        var n :| 0 <= n < |ds| && ds[n] == v[x];
        assert subs[n] == x;
      }
      if x in subs {
        var n :| 0 <= n < |ds| && subs[n] == x;
        assert ds[n] in ds;
      }
    }
    OneOrder(ids, subs);
    forall n | 0 <= n < |ds| ensures ds'[n] == ds[n] {
      OneVerdictEach(ds, n);
    }
  }

  /** `build_simulation_event_log`. */
  method BuildLog(t: Topology) returns (log: Log, m: Model)
    ensures DecidesAll(t, m.acc.ds) && Conserves(t, m)
    ensures Causal(log) && IsLogOf(t, m.acc.ds, log)
    ensures GivesBack(t, m, Replayed(log))
    ensures Assigns(VerdictsOf(m.acc.ds), Replayed(log).service, VerdictsOf(m.acc.ds).Keys)
  {
    hide *;
    m := ResolveSubscribers(t);
    ghost var devs, ports, links, es, es', ids, ds;
    log, devs := LogDevices(t);
    ghost var first := Bodies(log);
    log, ports, es := LogPorts(t, log);
    log, links, es' := LogLinks(t, log);
    VerdictsKeyed(t, m.acc.ds);
    log, ids, ds := LogDecisions(VerdictsOf(m.acc.ds), log);
    SameDecisions(t, m.acc.ds, ids, ds);
    EventsTogether(t, ds, log, devs, ports, links, first, es, es');
    RoundTrip(t, m, Replayed(log));
  }
}
