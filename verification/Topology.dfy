/** A database snapshot: device, interface and link rows keyed by primary key. */
module Topology {
  import opened Types
  import opened Order

  datatype Device = Device(kind: DeviceType, status: Status, provisioned: bool, override: Option<Status>,
                           parent: Option<Id>, vrf: Option<int>)

  datatype Interface = Interface(device: Id, name: string, role: Option<PortRole>, capacity: Option<int>, adminUp: bool)

  /** `viable` is the verdict of the physical range and medium check on the link row. */
  datatype Link = Link(a: Id, b: Id, kind: LinkKind, status: Status, override: Option<Status>, viable: bool)

  datatype Topology = Topology(devices: map<Id, Device>, ifaces: map<Id, Interface>, links: map<Id, Link>)

  predicate ForcedDown(d: Device) {
    d.override == Some(DOWN)
  }

  /** `if_to_dev.get(i)`, where a missing row and an empty device id both count as absent. */
  function DeviceOf(t: Topology, i: Id): Option<Id> {
    if i in t.ifaces && t.ifaces[i].device != "" then Some(t.ifaces[i].device) else None
  }

  predicate EndPresent(t: Topology, i: Id) {
    i in t.ifaces && t.ifaces[i].device in t.devices && !ForcedDown(t.devices[t.ifaces[i].device])
  }

  /** The override if there is one, else the status, lets traffic pass. */
  predicate AdminPassable(l: Link) {
    if l.override.Some? then l.override == Some(UP) else l.status == UP
  }

  /** A link override decides alone; otherwise the link must be UP between devices that are not forced down. */
  predicate Passable(t: Topology, l: Link) {
    match l.override
    case Some(s) => s == UP
    case None => l.status == UP && EndPresent(t, l.a) && EndPresent(t, l.b)
  }

  /** The two devices a link joins, in either order. */
  predicate LinkEnds(t: Topology, l: Link, u: Id, v: Id) {
    || (DeviceOf(t, l.a) == Some(u) && DeviceOf(t, l.b) == Some(v))
    || (DeviceOf(t, l.a) == Some(v) && DeviceOf(t, l.b) == Some(u))
  }

  predicate IsParent(t: Topology, child: Id, parent: Id) {
    child in t.devices && t.devices[child].parent == Some(parent) && parent != ""
  }

  /** A link that carries propagation between its two devices. */
  predicate Carries(t: Topology, id: Id, u: Id, v: Id) {
    id in t.links && Passable(t, t.links[id]) && t.links[id].viable && LinkEnds(t, t.links[id], u, v)
  }

  /** Propagation crosses passable viable links and container edges. */
  ghost predicate AdjEdge(t: Topology, u: Id, v: Id) {
    || (exists id :: Carries(t, id, u, v))
    || IsParent(t, u, v) || IsParent(t, v, u)
  }

  /** Devices a link joins in the index, whatever the state of the link. */
  ghost predicate IndexEdge(t: Topology, u: Id, v: Id) {
    exists id :: id in t.links && LinkEnds(t, t.links[id], u, v)
  }

  // ---- The same relations, read off the columns of the rows ----

  /** The interface rows of the link belong to `u` and `v`, in this or the other order. */
  ghost predicate RowJoins(t: Topology, id: Id, u: Id, v: Id) {
    && id in t.links && t.links[id].a in t.ifaces && t.links[id].b in t.ifaces && u != "" && v != ""
    && var x, y := t.ifaces[t.links[id].a].device, t.ifaces[t.links[id].b].device;
      (u == x && v == y) || (u == y && v == x)
  }

  /** Neither end of the link is missing its device or sits on one that is forced down. */
  ghost predicate RowEndsStand(t: Topology, id: Id) {
    id in t.links && forall i :: i in {t.links[id].a, t.links[id].b} ==>
      && i in t.ifaces && t.ifaces[i].device in t.devices
      && t.devices[t.ifaces[i].device].override != Some(DOWN)
  }

  /** Forced up, or not forced at all while UP between standing ends. */
  ghost predicate RowPasses(t: Topology, id: Id) {
    && id in t.links
    && (t.links[id].override == Some(UP) ||
        (t.links[id].override == None && t.links[id].status == UP && RowEndsStand(t, id)))
  }

  ghost predicate RowContains(t: Topology, child: Id, box: Id) {
    child in t.devices && t.devices[child].parent.Some? && t.devices[child].parent.value == box && |box| > 0
  }

  ghost predicate RowAdjacent(t: Topology, u: Id, v: Id) {
    || (exists id :: RowJoins(t, id, u, v) && RowPasses(t, id) && t.links[id].viable)
    || RowContains(t, u, v) || RowContains(t, v, u)
  }

  lemma EndsOnRows(t: Topology, id: Id, u: Id, v: Id)
    ensures id in t.links && LinkEnds(t, t.links[id], u, v) <==> RowJoins(t, id, u, v)
  {
  }

  lemma PassableOnRows(t: Topology, id: Id)
    ensures id in t.links && Passable(t, t.links[id]) <==> RowPasses(t, id)
  {
    if id in t.links {
      var l := t.links[id];
      assert l.a in {l.a, l.b} && l.b in {l.a, l.b};
    }
  }

  lemma AdjEdgeOnRows(t: Topology, u: Id, v: Id)
    ensures AdjEdge(t, u, v) <==> RowAdjacent(t, u, v)
  {
    forall id ensures Carries(t, id, u, v) <==> (RowJoins(t, id, u, v) && RowPasses(t, id) && t.links[id].viable) {
      EndsOnRows(t, id, u, v);
      PassableOnRows(t, id);
    }
    hide Carries, RowJoins, RowPasses;
    if id :| Carries(t, id, u, v) {
      assert RowJoins(t, id, u, v);
    }
  }

  lemma IndexEdgeOnRows(t: Topology, u: Id, v: Id)
    ensures IndexEdge(t, u, v) <==> exists id :: RowJoins(t, id, u, v)
  {
    forall id { EndsOnRows(t, id, u, v); }
    hide LinkEnds, RowJoins;
    if id :| id in t.links && LinkEnds(t, t.links[id], u, v) {
      assert RowJoins(t, id, u, v);
    }
  }

  /** One of the interface rows of the link belongs to `d`. */
  ghost predicate RowEndsAt(t: Topology, id: Id, d: Id) {
    && id in t.links && d != ""
    && exists i :: (i == t.links[id].a || i == t.links[id].b) && i in t.ifaces && t.ifaces[i].device == d
  }

  lemma EndOnRows(t: Topology, id: Id, d: Id)
    ensures id in t.links && (DeviceOf(t, t.links[id].a) == Some(d) || DeviceOf(t, t.links[id].b) == Some(d)) <==>
      RowEndsAt(t, id, d)
  {
  }
}
