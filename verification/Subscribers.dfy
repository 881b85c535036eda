/**
 Subscriber aggregation (backend/services/subscriber_model.py): one decision per ONT and CPE,
 per-port occupancy, per-device counts and the global total, all accounting for the same subscribers.
 */
module Subscribers {
  import opened Types
  import opened Order
  import opened Topology
  import opened Bfs
  import opened Tracers
  import opened Sums

  /** A port of a device: (device id, interface id). */
  type Port = (Id, Id)

  datatype Domain = OltDomain | AonDomain

  datatype Verdict = Counted | NotCounted | Undetermined

  datatype Why =
    | NotProvisioned | NoDirectAonPort | NoReachableAnchor
    | FirstReachableOltPon | DirectPort | DirectPortOneToOne | Oversubscribed

  datatype Decision = Decision(subscriber: Id, kind: DeviceType, verdict: Verdict, domain: Option<Domain>,
                               at: Option<Port>, why: Why)

  /** The dictionaries and the decision list that the two passes fill. */
  datatype Acc = Acc(
    ds: seq<Decision>, subs: map<Id, seq<Id>>, domain: map<Id, Domain>,
    pon: map<Port, nat>, aon: map<Port, nat>, cand: map<Port, seq<Id>>)

  predicate IsLeafKind(k: DeviceType) {
    IsOntType(k) || k == AON_CPE
  }

  predicate IsLeaf(t: Topology, d: Id) {
    d in t.devices && IsLeafKind(t.devices[d].kind)
  }

  predicate KindOf(t: Topology, d: Id, k: DeviceType) {
    d in t.devices && t.devices[d].kind == k
  }

  /** A port of an OLT or AON switch that exists on that device. */
  predicate PortOk(t: Topology, k: Port) {
    && k.1 in t.ifaces && t.ifaces[k.1].device == k.0
    && (KindOf(t, k.0, DeviceType.OLT) || KindOf(t, k.0, AON_SWITCH))
  }

  function AnchorKind(d: Domain): DeviceType {
    if d.OltDomain? then DeviceType.OLT else AON_SWITCH
  }

  // ---- What every step keeps ----

  /** `place` maps each counted subscriber to its port; `open` are the AON ports still to be resolved. */
  ghost predicate EntryOk(t: Topology, cand: map<Port, seq<Id>>, open: set<Port>, place: map<Id, Port>, e: Decision) {
    && IsLeaf(t, e.subscriber) && e.kind == t.devices[e.subscriber].kind
    && (e.at.Some? ==> PortOk(t, e.at.value) && e.domain.Some? && KindOf(t, e.at.value.0, AnchorKind(e.domain.value)))
    && (e.verdict.Counted? <==> e.subscriber in place)
    && (e.verdict.Counted? ==> e.at == Some(place[e.subscriber]))
    && (e.verdict.Undetermined? ==> e.domain == Some(AonDomain) && e.at.Some? && e.at.value in open)
    && (e.domain == Some(AonDomain) && e.at.Some? ==>
          && e.at.value in cand && e.subscriber in cand[e.at.value]
          && (e.verdict.Undetermined? <==> e.at.value in open)
          && (e.verdict.Counted? ==> e.subscriber == LeastIn(cand[e.at.value])))
  }

  ghost predicate HasEntry(ds: seq<Decision>, x: Id) {
    exists i :: 0 <= i < |ds| && ds[i].subscriber == x
  }

  ghost predicate Waiting(ds: seq<Decision>, x: Id, k: Port) {
    exists i :: 0 <= i < |ds| && ds[i].subscriber == x && ds[i].at == Some(k) && ds[i].verdict.Undetermined?
  }

  /** One decision for each leaf seen so far, each telling the truth about `place`. */
  ghost predicate DecisionsOk(t: Topology, ds: seq<Decision>, cand: map<Port, seq<Id>>, open: set<Port>,
                              place: map<Id, Port>, seen: set<Id>) {
    && (forall i, j :: 0 <= i < j < |ds| ==> ds[i].subscriber != ds[j].subscriber)
    && (forall x :: x in seen && IsLeaf(t, x) <==> HasEntry(ds, x))
    && (forall x :: x in place ==> HasEntry(ds, x) && PortOk(t, place[x]))
    && (forall i :: 0 <= i < |ds| ==> EntryOk(t, cand, open, place, ds[i]))
  }

  ghost predicate CandOk(t: Topology, ds: seq<Decision>, cand: map<Port, seq<Id>>, open: set<Port>) {
    && open <= cand.Keys
    && (forall k :: k in cand ==> cand[k] != [] && PortOk(t, k) && KindOf(t, k.0, AON_SWITCH))
    && (forall k, x :: k in open && x in cand[k] ==> Waiting(ds, x, k))
  }

  /** The node of a device lists exactly the subscribers placed at it. */
  ghost predicate NodesOk(t: Topology, subs: map<Id, seq<Id>>, domain: map<Id, Domain>, place: map<Id, Port>) {
    ListsOk(t, subs, place) && DomainsOk(t, subs, domain)
  }

  ghost predicate ListsOk(t: Topology, subs: map<Id, seq<Id>>, place: map<Id, Port>) {
    subs.Keys == t.devices.Keys && forall a :: a in t.devices && !IsLeaf(t, a) ==> ListsExactly(subs[a], place, a)
  }

  /** Exactly the nodes with subscribers are labelled, with the domain of their kind. */
  ghost predicate DomainsOk(t: Topology, subs: map<Id, seq<Id>>, domain: map<Id, Domain>) {
    && subs.Keys == t.devices.Keys
    && forall a :: a in t.devices && !IsLeaf(t, a) ==>
         (a in domain <==> subs[a] != []) && (a in domain ==> KindOf(t, a, AnchorKind(domain[a])))
  }

  ghost predicate ListsExactly(s: seq<Id>, place: map<Id, Port>, a: Id) {
    NoDuplicates(s) && Sorted(s) && forall x :: x in s <==> x in place && place[x].0 == a
  }

  /** Per-port occupancy is the number of subscribers placed at the port. */
  ghost predicate PortsOk(t: Topology, pon: map<Port, nat>, aon: map<Port, nat>, place: map<Id, Port>) {
    && (forall k: Port :: KindOf(t, k.0, DeviceType.OLT) ==> Get(pon, k) == |Class(place, k)|)
    && (forall k: Port :: KindOf(t, k.0, AON_SWITCH) ==> Get(aon, k) == |Class(place, k)|)
  }

  ghost predicate Inv(t: Topology, acc: Acc, open: set<Port>, place: map<Id, Port>, seen: set<Id>) {
    && DecisionsOk(t, acc.ds, acc.cand, open, place, seen)
    && CandOk(t, acc.ds, acc.cand, open)
    && NodesOk(t, acc.subs, acc.domain, place)
    && PortsOk(t, acc.pon, acc.aon, place)
    && ResolvedOk(acc.cand, open, place)
  }

  /** A resolved access port has its least CPE placed at it. */
  ghost predicate ResolvedOk(cand: map<Port, seq<Id>>, open: set<Port>, place: map<Id, Port>) {
    forall k :: k in cand && k !in open ==> cand[k] != [] && LeastIn(cand[k]) in place && place[LeastIn(cand[k])] == k
  }

  // ---- First pass: one device ----

  /** A decision without a port: not provisioned or not anchored. */
  function Unplaced(acc: Acc, e: Decision): Acc {
    acc.(ds := acc.ds + [e])
  }

  /** A provisioned leaf is its own subscriber. */
  function LeafNode(acc: Acc, d: Id, dom: Domain): Acc {
    acc.(subs := acc.subs[d := [d]], domain := acc.domain[d := dom])
  }

  function AddToNode(acc: Acc, a: Id, d: Id, dom: Domain): Acc
    requires a in acc.subs
  {
    if d in acc.subs[a] then acc.(domain := if dom.AonDomain? then acc.domain[a := dom] else acc.domain)
    else acc.(subs := acc.subs[a := Insert(acc.subs[a], d)], domain := acc.domain[a := dom])
  }

  /** An ONT anchored at a PON port is counted at once. */
  function CountOnt(acc: Acc, d: Id, kind: DeviceType, k: Port): Acc
    requires k.0 in acc.subs
  {
    var acc' := AddToNode(acc, k.0, d, OltDomain);
    acc'.(pon := acc.pon[k := Get(acc.pon, k) + 1],
          ds := acc.ds + [Decision(d, kind, Counted, Some(OltDomain), Some(k), FirstReachableOltPon)])
  }

  /** A CPE waits for the resolution of its access port. */
  function QueueCpe(acc: Acc, d: Id, kind: DeviceType, k: Port): Acc {
    acc.(cand := acc.cand[k := (if k in acc.cand then acc.cand[k] else []) + [d]],
         ds := acc.ds + [Decision(d, kind, Undetermined, Some(AonDomain), Some(k), DirectPort)])
  }

  // ---- Second pass: one access port ----

  function Rewrite(e: Decision, port: Id, chosen: Id, cpes: seq<Id>): Decision {
    if e.domain != Some(AonDomain) || e.at.None? || e.at.value.1 != port then e
    else if e.subscriber == chosen then e.(verdict := Counted, why := DirectPortOneToOne)
    else if e.subscriber in cpes then e.(verdict := NotCounted, why := Oversubscribed)
    else e
  }

  function RewriteAll(ds: seq<Decision>, port: Id, chosen: Id, cpes: seq<Id>): (r: seq<Decision>)
    ensures |r| == |ds| && forall i :: 0 <= i < |ds| ==> r[i] == Rewrite(ds[i], port, chosen, cpes)
  {
    seq(|ds|, i requires 0 <= i < |ds| => Rewrite(ds[i], port, chosen, cpes))
  }

  /** An access port counts its least CPE; the others are oversubscribed. */
  function ResolvePort(acc: Acc, k: Port): Acc
    requires k in acc.cand && acc.cand[k] != [] && k.0 in acc.subs
  {
    var cpes := acc.cand[k];
    var chosen := LeastIn(cpes);
    var acc' := AddToNode(acc, k.0, chosen, AonDomain);
    acc'.(aon := acc.aon[k := 1], ds := RewriteAll(acc.ds, k.1, chosen, cpes))
  }

  // ---- Every step keeps the accounts ----

  lemma AppendKeeps(t: Topology, ds: seq<Decision>, cand: map<Port, seq<Id>>, open: set<Port>, place: map<Id, Port>,
                    seen: set<Id>, cand': map<Port, seq<Id>>, open': set<Port>, place': map<Id, Port>, e: Decision)
    requires DecisionsOk(t, ds, cand, open, place, seen) && e.subscriber !in seen
    requires EntryOk(t, cand', open', place', e)
    requires forall i :: 0 <= i < |ds| && EntryOk(t, cand, open, place, ds[i]) && ds[i].subscriber != e.subscriber ==>
      EntryOk(t, cand', open', place', ds[i])
    requires forall x :: x in place' ==> x in place || x == e.subscriber
    requires forall x :: x in place' ==> PortOk(t, place'[x])
    ensures DecisionsOk(t, ds + [e], cand', open', place', seen + {e.subscriber})
  {
    hide EntryOk, PortOk;
    var ds' := ds + [e];
    assert IsLeaf(t, e.subscriber) by { LeafOfEntry(t, cand', open', place', e); }
    forall x ensures HasEntry(ds', x) <==> HasEntry(ds, x) || x == e.subscriber {
      if HasEntry(ds, x) {
        var i :| 0 <= i < |ds| && ds[i].subscriber == x;
        assert ds'[i].subscriber == x;
      }
      assert ds'[|ds|] == e;
    }
    forall i | 0 <= i < |ds| ensures ds[i].subscriber != e.subscriber {
      assert HasEntry(ds, ds[i].subscriber);
    }
    hide HasEntry;
  }

  lemma LeafOfEntry(t: Topology, cand: map<Port, seq<Id>>, open: set<Port>, place: map<Id, Port>, e: Decision)
    requires EntryOk(t, cand, open, place, e)
    ensures IsLeaf(t, e.subscriber)
  {
  }

  lemma WaitingKept(ds: seq<Decision>, e: Decision, x: Id, k: Port)
    requires Waiting(ds, x, k)
    ensures Waiting(ds + [e], x, k)
  {
    var i :| 0 <= i < |ds| && ds[i].subscriber == x && ds[i].at == Some(k) && ds[i].verdict.Undetermined?;
    assert (ds + [e])[i] == ds[i];
  }

  lemma CandAppend(t: Topology, ds: seq<Decision>, cand: map<Port, seq<Id>>, open: set<Port>, e: Decision)
    requires CandOk(t, ds, cand, open)
    ensures CandOk(t, ds + [e], cand, open)
  {
    forall k, x | k in open && x in cand[k] ensures Waiting(ds + [e], x, k) {
      WaitingKept(ds, e, x, k);
    }
    hide Waiting;
  }

  lemma StepUnplaced(t: Topology, acc: Acc, place: map<Id, Port>, seen: set<Id>, e: Decision)
    requires Inv(t, acc, acc.cand.Keys, place, seen) && e.subscriber !in seen
    requires IsLeaf(t, e.subscriber) && e.kind == t.devices[e.subscriber].kind && e.verdict.NotCounted? && e.at.None?
    ensures Inv(t, Unplaced(acc, e), acc.cand.Keys, place, seen + {e.subscriber})
  {
    PlacedWasSeen(t, acc, acc.cand.Keys, place, seen, e.subscriber);
    CandAppend(t, acc.ds, acc.cand, acc.cand.Keys, e);
    AppendKeeps(t, acc.ds, acc.cand, acc.cand.Keys, place, seen, acc.cand, acc.cand.Keys, place, e) by {
      assert forall x :: x in place ==> PortOk(t, place[x]);
    }
    hide DecisionsOk, CandOk, NodesOk, PortsOk;
  }

  lemma PlacedWasSeen(t: Topology, acc: Acc, open: set<Port>, place: map<Id, Port>, seen: set<Id>, x: Id)
    requires DecisionsOk(t, acc.ds, acc.cand, open, place, seen)
    ensures x in place ==> x in seen
  {
  }

  lemma StepLeafNode(t: Topology, acc: Acc, open: set<Port>, place: map<Id, Port>, seen: set<Id>, d: Id, dom: Domain)
    requires Inv(t, acc, open, place, seen) && IsLeaf(t, d)
    ensures Inv(t, LeafNode(acc, d, dom), open, place, seen)
  {
    hide DecisionsOk, CandOk, PortsOk;
  }

  lemma StepOther(t: Topology, acc: Acc, open: set<Port>, place: map<Id, Port>, seen: set<Id>, d: Id)
    requires Inv(t, acc, open, place, seen) && !IsLeaf(t, d)
    ensures Inv(t, acc, open, place, seen + {d})
  {
    hide CandOk, NodesOk, PortsOk, EntryOk, HasEntry;
  }

  /** Placing one more subscriber, in the node and in the port counter. */
  lemma NodeGains(t: Topology, acc: Acc, place: map<Id, Port>, x: Id, k: Port, dom: Domain)
    requires NodesOk(t, acc.subs, acc.domain, place) && x !in place && PortOk(t, k) && KindOf(t, k.0, AnchorKind(dom))
    ensures var acc' := AddToNode(acc, k.0, x, dom); NodesOk(t, acc'.subs, acc'.domain, place[x := k])
  {
    var s := acc.subs[k.0];
    assert !IsLeaf(t, k.0);
    InsertLists(s, place, x, k);
    ListsGain(t, acc.subs, place, x, k, Insert(s, x));
    hide ListsOk;
  }

  lemma ListsGain(t: Topology, subs: map<Id, seq<Id>>, place: map<Id, Port>, x: Id, k: Port, s: seq<Id>)
    requires ListsOk(t, subs, place) && x !in place && k.0 in t.devices && ListsExactly(s, place[x := k], k.0)
    ensures ListsOk(t, subs[k.0 := s], place[x := k])
  {
    hide IsLeaf;
    forall a | a in t.devices && !IsLeaf(t, a) && a != k.0 ensures ListsExactly(subs[a], place[x := k], a) {
      assert ListsExactly(subs[a], place, a);
    }
    hide ListsExactly;
  }

  lemma InsertLists(s: seq<Id>, place: map<Id, Port>, x: Id, k: Port)
    requires ListsExactly(s, place, k.0) && x !in place
    ensures x !in s && ListsExactly(Insert(s, x), place[x := k], k.0)
  {
    forall y { InsertMembers(s, x, y); }
    InsertDistinct(s, x);
    InsertSorted(s, x);
  }

  lemma InsertMembers(s: seq<Id>, x: Id, y: Id)
    ensures y in Insert(s, x) <==> y in s || y == x
  {
    assert y in multiset(Insert(s, x)) <==> y in multiset(s) || y == x;
  }

  lemma {:induction false} InsertDistinct(s: seq<Id>, x: Id)
    requires NoDuplicates(s) && x !in s
    ensures NoDuplicates(Insert(s, x))
  {
    if s != [] && !IdLe(x, s[0]) {
      InsertDistinct(s[1..], x);
      InsertMembers(s[1..], x, s[0]);
    }
  }

  lemma ClassGains(place: map<Id, Port>, x: Id, k: Port, j: Port)
    requires x !in place
    ensures |Class(place[x := k], j)| == |Class(place, j)| + if j == k then 1 else 0
  {
    if j == k {
      assert Class(place[x := k], j) == Class(place, j) + {x};
    } else {
      assert Class(place[x := k], j) == Class(place, j);
    }
  }

  lemma PonGains(t: Topology, acc: Acc, place: map<Id, Port>, x: Id, k: Port)
    requires PortsOk(t, acc.pon, acc.aon, place) && x !in place && KindOf(t, k.0, DeviceType.OLT)
    ensures PortsOk(t, acc.pon[k := Get(acc.pon, k) + 1], acc.aon, place[x := k])
  {
    forall j: Port { ClassGains(place, x, k, j); }
    hide Class;
  }

  lemma AonGains(t: Topology, acc: Acc, place: map<Id, Port>, x: Id, k: Port)
    requires PortsOk(t, acc.pon, acc.aon, place) && x !in place && KindOf(t, k.0, AON_SWITCH) && Class(place, k) == {}
    ensures PortsOk(t, acc.pon, acc.aon[k := 1], place[x := k])
  {
    forall j: Port { ClassGains(place, x, k, j); }
    hide Class;
  }

  lemma DecisionsCount(t: Topology, ds: seq<Decision>, cand: map<Port, seq<Id>>, place: map<Id, Port>, seen: set<Id>,
                       e: Decision, k: Port)
    requires DecisionsOk(t, ds, cand, cand.Keys, place, seen) && e.subscriber !in seen
    requires IsLeaf(t, e.subscriber) && e.kind == t.devices[e.subscriber].kind && PortOk(t, k)
    requires KindOf(t, k.0, DeviceType.OLT)
    requires e.verdict.Counted? && e.domain == Some(OltDomain) && e.at == Some(k)
    ensures DecisionsOk(t, ds + [e], cand, cand.Keys, place[e.subscriber := k], seen + {e.subscriber})
  {
    var place' := place[e.subscriber := k];
    hide PortOk, KindOf, IsLeaf;
    assert EntryOk(t, cand, cand.Keys, place', e);
    forall i | 0 <= i < |ds| && EntryOk(t, cand, cand.Keys, place, ds[i]) && ds[i].subscriber != e.subscriber
      ensures EntryOk(t, cand, cand.Keys, place', ds[i])
    {
    }
    assert forall x :: x in place' ==> PortOk(t, place'[x]);
    hide EntryOk;
    AppendKeeps(t, ds, cand, cand.Keys, place, seen, cand, cand.Keys, place', e);
  }

  lemma StepCountOnt(t: Topology, acc: Acc, place: map<Id, Port>, seen: set<Id>, d: Id, k: Port)
    requires Inv(t, acc, acc.cand.Keys, place, seen) && d !in seen && IsLeaf(t, d)
    requires d in t.devices && PortOk(t, k) && KindOf(t, k.0, DeviceType.OLT)
    ensures k.0 in acc.subs
    ensures Inv(t, CountOnt(acc, d, t.devices[d].kind, k), acc.cand.Keys, place[d := k], seen + {d})
  {
    hide DecisionsOk, CandOk, NodesOk, PortsOk, PortOk, KindOf, IsLeaf, AddToNode;
    PlacedWasSeen(t, acc, acc.cand.Keys, place, seen, d);
    NodeExists(t, acc, place, k);
    NodeGains(t, acc, place, d, k, OltDomain);
    NodeFrame(acc, k.0, d, OltDomain);
    PonGains(t, acc, place, d, k);
    var e := Decision(d, t.devices[d].kind, Counted, Some(OltDomain), Some(k), FirstReachableOltPon);
    DecisionsCount(t, acc.ds, acc.cand, place, seen, e, k);
    CandAppend(t, acc.ds, acc.cand, acc.cand.Keys, e);
  }

  lemma DecisionsQueue(t: Topology, acc: Acc, place: map<Id, Port>, seen: set<Id>, d: Id, k: Port)
    requires DecisionsOk(t, acc.ds, acc.cand, acc.cand.Keys, place, seen) && d !in seen && IsLeaf(t, d) && d !in place
    requires PortOk(t, k) && KindOf(t, k.0, AON_SWITCH)
    ensures var acc' := QueueCpe(acc, d, t.devices[d].kind, k);
      DecisionsOk(t, acc'.ds, acc'.cand, acc'.cand.Keys, place, seen + {d})
  {
    var acc' := QueueCpe(acc, d, t.devices[d].kind, k);
    var e := Decision(d, t.devices[d].kind, Undetermined, Some(AonDomain), Some(k), DirectPort);
    hide PortOk, KindOf, IsLeaf;
    assert EntryOk(t, acc'.cand, acc'.cand.Keys, place, e);
    forall i | 0 <= i < |acc.ds| && EntryOk(t, acc.cand, acc.cand.Keys, place, acc.ds[i])
      ensures EntryOk(t, acc'.cand, acc'.cand.Keys, place, acc.ds[i])
    {
    }
    assert forall x :: x in place ==> PortOk(t, place[x]);
    hide EntryOk;
    AppendKeeps(t, acc.ds, acc.cand, acc.cand.Keys, place, seen, acc'.cand, acc'.cand.Keys, place, e);
  }

  lemma CandQueue(t: Topology, acc: Acc, d: Id, kind: DeviceType, k: Port)
    requires CandOk(t, acc.ds, acc.cand, acc.cand.Keys) && PortOk(t, k) && KindOf(t, k.0, AON_SWITCH)
    ensures var acc' := QueueCpe(acc, d, kind, k); CandOk(t, acc'.ds, acc'.cand, acc'.cand.Keys)
  {
    var acc' := QueueCpe(acc, d, kind, k);
    var e := Decision(d, kind, Undetermined, Some(AonDomain), Some(k), DirectPort);
    forall j, x | j in acc'.cand && x in acc'.cand[j] ensures Waiting(acc'.ds, x, j) {
      if x == d && j == k {
        assert acc'.ds[|acc.ds|] == e;
      } else {
        WaitingKept(acc.ds, e, x, j);
      }
    }
    hide Waiting, PortOk, KindOf;
  }

  lemma StepQueueCpe(t: Topology, acc: Acc, place: map<Id, Port>, seen: set<Id>, d: Id, k: Port)
    requires Inv(t, acc, acc.cand.Keys, place, seen) && d !in seen && IsLeaf(t, d)
    requires PortOk(t, k) && KindOf(t, k.0, AON_SWITCH)
    ensures var acc' := QueueCpe(acc, d, t.devices[d].kind, k); Inv(t, acc', acc'.cand.Keys, place, seen + {d})
  {
    hide DecisionsOk, CandOk, NodesOk, PortsOk, PortOk, KindOf;
    PlacedWasSeen(t, acc, acc.cand.Keys, place, seen, d);
    DecisionsQueue(t, acc, place, seen, d, k);
    CandQueue(t, acc, d, t.devices[d].kind, k);
  }

  /** Entries at an open port are undetermined, so nobody is placed there yet. */
  lemma OpenPortIsEmpty(t: Topology, acc: Acc, open: set<Port>, place: map<Id, Port>, seen: set<Id>, k: Port)
    requires DecisionsOk(t, acc.ds, acc.cand, open, place, seen) && CandOk(t, acc.ds, acc.cand, open) && k in open
    ensures Class(place, k) == {} && LeastIn(acc.cand[k]) !in place
  {
    var c := LeastIn(acc.cand[k]);
    hide EntryOk, PortOk, KindOf, IsLeaf;
    assert Waiting(acc.ds, c, k);
    var i :| 0 <= i < |acc.ds| && acc.ds[i].subscriber == c && acc.ds[i].at == Some(k) &&
      acc.ds[i].verdict.Undetermined?;
    WaitingUnplaced(t, acc.cand, open, place, acc.ds[i]);
    forall x | x in place ensures place[x] != k {
      assert HasEntry(acc.ds, x);
      var j :| 0 <= j < |acc.ds| && acc.ds[j].subscriber == x;
      PlacedElsewhere(t, acc.cand, open, place, acc.ds[j], k);
    }
  }

  lemma WaitingUnplaced(t: Topology, cand: map<Port, seq<Id>>, open: set<Port>, place: map<Id, Port>, e: Decision)
    requires EntryOk(t, cand, open, place, e) && e.verdict.Undetermined?
    ensures e.subscriber !in place
  {
  }

  lemma PlacedElsewhere(t: Topology, cand: map<Port, seq<Id>>, open: set<Port>, place: map<Id, Port>, e: Decision,
                        k: Port)
    requires EntryOk(t, cand, open, place, e) && e.subscriber in place && k in open && KindOf(t, k.0, AON_SWITCH)
    ensures place[e.subscriber] != k
  {
  }

  lemma EntryResolves(t: Topology, cand: map<Port, seq<Id>>, open: set<Port>, place: map<Id, Port>, e: Decision,
                      k: Port)
    requires EntryOk(t, cand, open, place, e) && k in open && k in cand && cand[k] != [] && PortOk(t, k)
    requires KindOf(t, k.0, AON_SWITCH)
    requires LeastIn(cand[k]) !in place
    requires e.subscriber == LeastIn(cand[k]) ==> e.at == Some(k) && e.verdict.Undetermined?
    ensures EntryOk(t, cand, open - {k}, place[LeastIn(cand[k]) := k], Rewrite(e, k.1, LeastIn(cand[k]), cand[k]))
  {
  }

  lemma EntriesResolve(t: Topology, acc: Acc, open: set<Port>, place: map<Id, Port>, seen: set<Id>, k: Port)
    requires DecisionsOk(t, acc.ds, acc.cand, open, place, seen) && CandOk(t, acc.ds, acc.cand, open) && k in open
    ensures var c := LeastIn(acc.cand[k]);
      && HasEntry(acc.ds, c) && c !in place && PortOk(t, k)
      && forall i :: 0 <= i < |acc.ds| ==>
           EntryOk(t, acc.cand, open - {k}, place[c := k], Rewrite(acc.ds[i], k.1, c, acc.cand[k]))
  {
    hide EntryOk, PortOk, KindOf, IsLeaf, Rewrite;
    var c, ds := LeastIn(acc.cand[k]), acc.ds;
    OpenPortIsEmpty(t, acc, open, place, seen, k);
    assert Waiting(ds, c, k);
    var n :| 0 <= n < |ds| && ds[n].subscriber == c && ds[n].at == Some(k) && ds[n].verdict.Undetermined?;
    forall i | 0 <= i < |ds|
      ensures EntryOk(t, acc.cand, open - {k}, place[c := k], Rewrite(ds[i], k.1, c, acc.cand[k]))
    {
      assert ds[i].subscriber == c ==> i == n;
      EntryResolves(t, acc.cand, open, place, ds[i], k);
    }
  }

  lemma DecisionsResolve(t: Topology, acc: Acc, open: set<Port>, place: map<Id, Port>, seen: set<Id>, k: Port)
    requires DecisionsOk(t, acc.ds, acc.cand, open, place, seen) && CandOk(t, acc.ds, acc.cand, open) && k in open
    ensures var c := LeastIn(acc.cand[k]);
      DecisionsOk(t, RewriteAll(acc.ds, k.1, c, acc.cand[k]), acc.cand, open - {k}, place[c := k], seen)
  {
    hide EntryOk, PortOk, KindOf, IsLeaf, Rewrite, HasEntry, LeastIn, CandOk;
    EntriesResolve(t, acc, open, place, seen, k);
    OpenPort(t, acc, open, k);
    var c, ds := LeastIn(acc.cand[k]), acc.ds;
    var ds' := RewriteAll(ds, k.1, c, acc.cand[k]);
    forall i | 0 <= i < |ds| ensures ds'[i].subscriber == ds[i].subscriber {
      RewriteKeepsSubscriber(ds[i], k.1, c, acc.cand[k]);
    }
    forall x { SameEntries(ds, ds', x); }
    hide RewriteAll;
  }

  lemma RewriteKeepsSubscriber(e: Decision, port: Id, chosen: Id, cpes: seq<Id>)
    ensures Rewrite(e, port, chosen, cpes).subscriber == e.subscriber
  {
  }

  lemma SameEntries(ds: seq<Decision>, ds': seq<Decision>, x: Id)
    requires |ds'| == |ds| && forall i :: 0 <= i < |ds| ==> ds'[i].subscriber == ds[i].subscriber
    ensures HasEntry(ds', x) <==> HasEntry(ds, x)
  {
    if i :| 0 <= i < |ds| && ds[i].subscriber == x { assert ds'[i].subscriber == x; }
  }

  lemma CandResolve(t: Topology, acc: Acc, open: set<Port>, k: Port)
    requires CandOk(t, acc.ds, acc.cand, open) && k in open
    ensures CandOk(t, RewriteAll(acc.ds, k.1, LeastIn(acc.cand[k]), acc.cand[k]), acc.cand, open - {k})
  {
    var c := LeastIn(acc.cand[k]);
    var ds' := RewriteAll(acc.ds, k.1, c, acc.cand[k]);
    forall j, x | j in open - {k} && x in acc.cand[j] ensures Waiting(ds', x, j) {
      assert Waiting(acc.ds, x, j);
      var i :| 0 <= i < |acc.ds| && acc.ds[i].subscriber == x && acc.ds[i].at == Some(j) &&
        acc.ds[i].verdict.Undetermined?;
      assert PortOk(t, j) && PortOk(t, k);
      assert ds'[i] == acc.ds[i];
    }
    hide Waiting, PortOk, KindOf;
  }

  lemma OpenPort(t: Topology, acc: Acc, open: set<Port>, k: Port)
    requires CandOk(t, acc.ds, acc.cand, open) && k in open
    ensures k in acc.cand && acc.cand[k] != [] && PortOk(t, k) && KindOf(t, k.0, AON_SWITCH)
  {
  }

  lemma NodeExists(t: Topology, acc: Acc, place: map<Id, Port>, k: Port)
    requires NodesOk(t, acc.subs, acc.domain, place) && PortOk(t, k)
    ensures k.0 in acc.subs
  {
  }

  lemma NodeFrame(acc: Acc, a: Id, d: Id, dom: Domain)
    requires a in acc.subs
    ensures var acc' := AddToNode(acc, a, d, dom);
      acc'.ds == acc.ds && acc'.pon == acc.pon && acc'.aon == acc.aon && acc'.cand == acc.cand
  {
  }

  lemma ResolvedGains(cand: map<Port, seq<Id>>, open: set<Port>, place: map<Id, Port>, k: Port)
    requires ResolvedOk(cand, open, place) && k in cand && cand[k] != [] && LeastIn(cand[k]) !in place
    ensures ResolvedOk(cand, open - {k}, place[LeastIn(cand[k]) := k])
  {
  }

  /** Resolving a port places its least CPE there and settles every other decision at the port. */
  lemma StepResolve(t: Topology, acc: Acc, open: set<Port>, place: map<Id, Port>, seen: set<Id>, k: Port)
    requires Inv(t, acc, open, place, seen) && k in open
    ensures k in acc.cand && acc.cand[k] != [] && k.0 in acc.subs
    ensures Inv(t, ResolvePort(acc, k), open - {k}, place[LeastIn(acc.cand[k]) := k], seen)
  {
    hide DecisionsOk, CandOk, NodesOk, PortsOk, ResolvedOk, PortOk, KindOf, AddToNode, RewriteAll, LeastIn;
    OpenPort(t, acc, open, k);
    NodeExists(t, acc, place, k);
    var c := LeastIn(acc.cand[k]);
    OpenPortIsEmpty(t, acc, open, place, seen, k);
    DecisionsResolve(t, acc, open, place, seen, k);
    CandResolve(t, acc, open, k);
    NodeGains(t, acc, place, c, k, AonDomain);
    NodeFrame(acc, k.0, c, AonDomain);
    AonGains(t, acc, place, c, k);
    ResolvedGains(acc.cand, open, place, k);
  }

  // ---- What the decisions mean, on the columns of the rows ----

  ghost predicate RowPort(t: Topology, d: Id, i: Id) {
    i in t.ifaces && t.ifaces[i].device == d
  }

  ghost predicate RowPlug(t: Topology, i: Id, j: Id) {
    exists id :: id in t.links && t.links[id].a != "" && t.links[id].b != "" &&
      ((t.links[id].a == i && t.links[id].b == j) || (t.links[id].a == j && t.links[id].b == i))
  }

  /** Over a link, or to another port of a passive box, an ONT or a CPE. */
  ghost predicate RowHop(t: Topology, i: Id, j: Id) {
    && i in t.ifaces && t.ifaces[i].device in t.devices
    && (RowPlug(t, i, j) ||
        (i != j && j in t.ifaces && t.ifaces[j].device == t.ifaces[i].device &&
         t.devices[t.ifaces[i].device].kind in {ODF, NVT, SPLITTER, HOP, ONT, BUSINESS_ONT, AON_CPE}))
  }

  ghost predicate RowPon(t: Topology, i: Id) {
    i in t.ifaces && t.ifaces[i].role == Some(PON) && t.ifaces[i].device in t.devices &&
      t.devices[t.ifaces[i].device].kind == DeviceType.OLT
  }

  ghost predicate RowAccess(t: Topology, i: Id) {
    i in t.ifaces && t.ifaces[i].device in t.devices && t.devices[t.ifaces[i].device].kind == AON_SWITCH
  }

  /** A chain of service hops from a port of the device. */
  ghost predicate IsServiceRoute(t: Topology, d: Id, p: Path) {
    |p| > 0 && RowPort(t, d, p[0]) && forall i :: 0 <= i < |p| - 1 ==> ServiceHop(t, p, i)
  }

  ghost predicate ServiceHop(t: Topology, p: Path, i: int)
    requires 0 <= i < |p| - 1
  {
    RowHop(t, p[i], p[i + 1])
  }

  ghost predicate HasPonRoute(t: Topology, d: Id) {
    exists p :: IsServiceRoute(t, d, p) && RowPon(t, p[|p| - 1])
  }

  /** `port` is a PON port of an OLT, and none is fewer interface hops away from the device. */
  ghost predicate NearestPon(t: Topology, d: Id, port: Id) {
    && RowPon(t, port)
    && exists p :: IsServiceRoute(t, d, p) && p[|p| - 1] == port && NoPonCloser(t, d, p)
  }

  ghost predicate NoPonCloser(t: Topology, d: Id, p: Path) {
    forall q :: IsServiceRoute(t, d, q) && RowPon(t, q[|q| - 1]) ==> |p| <= |q|
  }

  ghost predicate DirectlyPlugged(t: Topology, d: Id) {
    exists i, j :: RowPort(t, d, i) && RowPlug(t, i, j) && RowAccess(t, j)
  }

  /**
   `port` is the least access port at port `i` of the device, and no port with one comes before `i` by name
   and id.
   */
  ghost predicate FirstAccessRow(t: Topology, d: Id, i: Id, port: Id) {
    && RowPort(t, d, i) && RowPlug(t, i, port) && RowAccess(t, port)
    && forall x, j :: RowPort(t, d, x) && RowPlug(t, x, j) && RowAccess(t, j) ==>
         if x == i then IdLe(port, j)
         else if t.ifaces[x].name == t.ifaces[i].name then IdLt(i, x)
         else IdLt(t.ifaces[i].name, t.ifaces[x].name)
  }

  ghost predicate AtFirstAccess(t: Topology, d: Id, port: Id) {
    exists i :: FirstAccessRow(t, d, i, port)
  }

  /** An ONT is counted at once, at a nearest PON port, exactly when some PON port is in reach. */
  ghost predicate OntTruth(t: Topology, e: Decision) {
    && e.kind in {ONT, BUSINESS_ONT} && e.domain == Some(OltDomain)
    && (e.at.Some? <==> HasPonRoute(t, e.subscriber))
    && if e.at.Some?
      then e.verdict == Counted && e.why == FirstReachableOltPon && NearestPon(t, e.subscriber, e.at.value.1)
       else e.verdict == NotCounted && e.why == NoReachableAnchor
  }

  /** A CPE has a port exactly when it is plugged into an AON switch; its verdict then comes with the reason for it. */
  ghost predicate CpeTruth(t: Topology, e: Decision) {
    && e.kind == AON_CPE && e.domain == Some(AonDomain)
    && (e.at.Some? <==> DirectlyPlugged(t, e.subscriber))
    && if e.at.None? then e.verdict == NotCounted && e.why == NoDirectAonPort
       else
         && AtFirstAccess(t, e.subscriber, e.at.value.1)
         && e.why == match e.verdict
           case Undetermined => DirectPort
           case Counted => DirectPortOneToOne
           case NotCounted => Oversubscribed
  }

  ghost predicate Truthful(t: Topology, e: Decision) {
    && e.subscriber in t.devices && e.kind == t.devices[e.subscriber].kind
    && if t.devices[e.subscriber].provisioned then OntTruth(t, e) || CpeTruth(t, e)
       else e.kind in {ONT, BUSINESS_ONT, AON_CPE} &&
            e == Decision(e.subscriber, e.kind, NotCounted, None, None, NotProvisioned)
  }

  lemma HopOnRows(t: Topology, i: Id, j: Id)
    ensures HopEdge(Service, t, i, j) <==> RowHop(t, i, j)
    ensures Linked(t, i, j) <==> RowPlug(t, i, j)
  {
    assert Linked(t, i, j) <==> RowPlug(t, i, j) by {
      if id :| id in t.links && Plugged(t.links[id], i, j) {
        assert RowPlug(t, i, j);
      }
      if RowPlug(t, i, j) {
        var id :| id in t.links && t.links[id].a != "" && t.links[id].b != "" &&
          ((t.links[id].a == i && t.links[id].b == j) || (t.links[id].a == j && t.links[id].b == i));
        assert Plugged(t.links[id], i, j);
      }
    }
    hide Linked, RowPlug;
  }

  /** The physical tracer makes the same hops, except that it does not cross a CPE. */
  lemma PhysicalHopOnRows(t: Topology, i: Id, j: Id)
    ensures HopEdge(Physical, t, i, j) <==>
      RowHop(t, i, j) && (RowPlug(t, i, j) || t.devices[t.ifaces[i].device].kind != AON_CPE)
  {
    HopOnRows(t, i, j);
    hide Linked, RowPlug;
  }

  lemma PortsOnRows(t: Topology, d: Id, i: Id)
    ensures i in PonPorts(t) <==> RowPon(t, i)
    ensures i in PortsOf(t, d) <==> RowPort(t, d, i)
    ensures IsAonPort(t, i) <==> RowAccess(t, i)
  {
  }

  lemma KeyOrder(t: Topology, d: Id, i: Id, x: Id)
    requires RowPort(t, d, i) && RowPort(t, d, x) && i != x && PortBefore(t, i, x)
    ensures if t.ifaces[x].name == t.ifaces[i].name then IdLt(i, x) else IdLt(t.ifaces[i].name, t.ifaces[x].name)
  {
    var p, q := PortKey(t, i), PortKey(t, x);
    IdLtTotal(d, d);
    IdLtTotal(t.ifaces[i].name, t.ifaces[x].name);
    hide IdLt;
    assert LexLt(p[1..], q[1..]);
    assert p[1..] == [t.ifaces[i].name, i] && q[1..] == [t.ifaces[x].name, x];
    if t.ifaces[x].name == t.ifaces[i].name {
      assert LexLt(p[1..][1..], q[1..][1..]);
    }
  }

  lemma FirstAccessOnRows(t: Topology, d: Id, i: Id, port: Id)
    requires IsFirstAccess(t, d, i, port)
    ensures FirstAccessRow(t, d, i, port)
  {
    forall x, j ensures Linked(t, x, j) <==> RowPlug(t, x, j) { HopOnRows(t, x, j); }
    forall x ensures (x in PortsOf(t, d) <==> RowPort(t, d, x)) && (IsAonPort(t, x) <==> RowAccess(t, x)) {
      PortsOnRows(t, d, x);
    }
    hide Linked, RowPlug, PortsOf, RowPort, IsAonPort, RowAccess, PortBefore, IdLt;
    forall x, j | RowPort(t, d, x) && RowPlug(t, x, j) && RowAccess(t, j)
      ensures PortBefore(t, i, x) && (x == i ==> IdLe(port, j))
    {
    }
    forall x | RowPort(t, d, x) && x != i && PortBefore(t, i, x)
      ensures if t.ifaces[x].name == t.ifaces[i].name then IdLt(i, x) else IdLt(t.ifaces[i].name, t.ifaces[x].name)
    {
      KeyOrder(t, d, i, x);
    }
  }

  lemma RoutesAgree(t: Topology, d: Id, starts: seq<Id>, next: Successors, p: Path)
    requires IsHopGraph(Service, t, next) && forall i :: i in starts <==> i in PortsOf(t, d)
    ensures IsRoute(starts, next, p) <==> IsServiceRoute(t, d, p)
  {
    forall i, j ensures j in Next(next, i) <==> RowHop(t, i, j) { HopOnRows(t, i, j); }
    hide RowHop, IsHopGraph;
    if IsRoute(starts, next, p) {
      forall i | 0 <= i < |p| - 1 ensures ServiceHop(t, p, i) {
        assert p[i + 1] in Next(next, p[i]);
      }
    }
    if IsServiceRoute(t, d, p) {
      forall i | 0 <= i < |p| - 1 ensures p[i + 1] in Next(next, p[i]) {
        assert ServiceHop(t, p, i);
      }
    }
  }

  lemma NearestAgrees(t: Topology, d: Id, starts: seq<Id>, next: Successors, port: Option<Id>)
    requires IsHopGraph(Service, t, next) && forall i :: i in starts <==> i in PortsOf(t, d)
    requires port.Some? ==> port.value in PonPorts(t) && IsNearest(starts, next, PonPorts(t), port.value)
    requires port.None? ==> Unreachable(starts, next, PonPorts(t))
    ensures port.Some? ==> NearestPon(t, d, port.value)
    ensures port.Some? <==> HasPonRoute(t, d)
  {
    forall p { RoutesAgree(t, d, starts, next, p); }
    forall i { PortsOnRows(t, d, i); }
    hide IsRoute, IsServiceRoute, PonPorts, RowPon;
    if port.Some? {
      var p :| IsRouteTo(starts, next, p, port.value) && NoneShorter(starts, next, PonPorts(t), p);
      assert IsServiceRoute(t, d, p);
      forall q | IsServiceRoute(t, d, q) && RowPon(t, q[|q| - 1]) ensures |p| <= |q| {
        assert IsRouteTo(starts, next, q, q[|q| - 1]);
      }
    }
    if HasPonRoute(t, d) {
      PonRouteReaches(t, d, starts, next);
    }
  }

  lemma PonRouteReaches(t: Topology, d: Id, starts: seq<Id>, next: Successors)
    requires HasPonRoute(t, d) && forall p :: IsRoute(starts, next, p) <==> IsServiceRoute(t, d, p)
    ensures !Unreachable(starts, next, PonPorts(t))
  {
    var p :| IsServiceRoute(t, d, p) && RowPon(t, p[|p| - 1]);
    assert IsRoute(starts, next, p);
    assert IsRouteTo(starts, next, p, p[|p| - 1]);
    PortsOnRows(t, d, p[|p| - 1]);
  }

  lemma RewriteTruthful(t: Topology, e: Decision, port: Id, chosen: Id, cpes: seq<Id>)
    requires Truthful(t, e)
    ensures Truthful(t, Rewrite(e, port, chosen, cpes))
  {
    hide HasPonRoute, NearestPon, DirectlyPlugged;
  }

  // ---- The two passes ----

  ghost predicate AllTruthful(t: Topology, ds: seq<Decision>) {
    forall i :: 0 <= i < |ds| ==> Truthful(t, ds[i])
  }

  /** One provisioned CPE of the first pass. */
  method DecideCpe(t: Topology, acc0: Acc, ghost place: map<Id, Port>, ghost seen: set<Id>, d: Id) returns (acc: Acc)
    requires d in t.devices && d !in seen && t.devices[d].kind == AON_CPE && t.devices[d].provisioned
    requires Inv(t, acc0, acc0.cand.Keys, place, seen) && AllTruthful(t, acc0.ds)
    ensures Inv(t, acc, acc.cand.Keys, place, seen + {d}) && AllTruthful(t, acc.ds)
    ensures acc.subs == acc0.subs && acc.domain == acc0.domain && ExtendedBy(acc0.ds, acc.ds, d)
  {
    hide Inv, HasPonRoute, NearestPon, DirectlyPlugged, AtFirstAccess;
    var port := TraceDirectAon(t, d);
    PluggedIs(t, d, port);
    if port.None? {
      var e := Decision(d, AON_CPE, NotCounted, Some(AonDomain), None, NoDirectAonPort);
      StepUnplaced(t, acc0, place, seen, e);
      acc := Unplaced(acc0, e);
    } else {
      var k := (t.ifaces[port.value].device, port.value);
      StepQueueCpe(t, acc0, place, seen, d, k);
      acc := QueueCpe(acc0, d, AON_CPE, k);
    }
  }

  /** One provisioned ONT of the first pass. */
  method DecideOnt(t: Topology, next: Successors, acc0: Acc, ghost place0: map<Id, Port>, ghost seen: set<Id>, d: Id)
    returns (acc: Acc, ghost place: map<Id, Port>)
    requires IsHopGraph(Service, t, next)
    requires d in t.devices && d !in seen && IsOntType(t.devices[d].kind) && t.devices[d].provisioned
    requires Inv(t, acc0, acc0.cand.Keys, place0, seen) && AllTruthful(t, acc0.ds)
    requires LeavesOk(t, acc0, seen + {d})
    ensures Inv(t, acc, acc.cand.Keys, place, seen + {d}) && AllTruthful(t, acc.ds)
    ensures LeavesOk(t, acc, seen + {d}) && ExtendedBy(acc0.ds, acc.ds, d)
  {
    hide Inv, HasPonRoute, NearestPon, DirectlyPlugged, AtFirstAccess, IsHopGraph, LeavesOk, CountOnt;
    var kind := t.devices[d].kind;
    place := place0;
    var port, starts := TraceAnchor(t, next, d, Service);
    NearestAgrees(t, d, starts, next, port);
    if port.None? {
      var e := Decision(d, kind, NotCounted, Some(OltDomain), None, NoReachableAnchor);
      StepUnplaced(t, acc0, place, seen, e);
      acc := Unplaced(acc0, e);
      LeavesByNodes(t, acc0, acc, seen + {d});
    } else {
      var k := (t.ifaces[port.value].device, port.value);
      StepCountOnt(t, acc0, place, seen, d, k);
      CountOntLeaves(t, acc0, seen + {d}, d, kind, k);
      acc, place := CountOnt(acc0, d, kind, k), place[d := k];
    }
  }

  /** One device of the first pass. */
  method Decide(t: Topology, next: Successors, acc0: Acc, ghost place0: map<Id, Port>, ghost seen: set<Id>, d: Id)
    returns (acc: Acc, ghost place: map<Id, Port>)
    requires IsHopGraph(Service, t, next) && d in t.devices && d !in seen
    requires Inv(t, acc0, acc0.cand.Keys, place0, seen) && AllTruthful(t, acc0.ds) && LeavesOk(t, acc0, seen)
    ensures Inv(t, acc, acc.cand.Keys, place, seen + {d}) && AllTruthful(t, acc.ds)
    ensures LeavesOk(t, acc, seen + {d}) && ExtendedBy(acc0.ds, acc.ds, d)
  {
    hide Inv, HasPonRoute, NearestPon, DirectlyPlugged, AtFirstAccess, IsHopGraph, LeavesOk;
    acc, place := acc0, place0;
    var kind := t.devices[d].kind;
    if !(IsLeafKind(kind) && t.devices[d].provisioned) { LeavesNext(t, acc, seen, d); }
    if !IsLeafKind(kind) {
      StepOther(t, acc, acc.cand.Keys, place, seen, d);
    } else if !t.devices[d].provisioned {
      var e := Decision(d, kind, NotCounted, None, None, NotProvisioned);
      StepUnplaced(t, acc, place, seen, e);
      acc := Unplaced(acc, e);
      LeavesByNodes(t, acc0, acc, seen + {d});
    } else {
      var dom := if IsOntType(kind) then OltDomain else AonDomain;
      StepLeafNode(t, acc, acc.cand.Keys, place, seen, d, dom);
      LeafGains(t, acc, seen, d, dom);
      acc := LeafNode(acc, d, dom);
      if dom.AonDomain? {
        ghost var acc1 := acc;
        acc := DecideCpe(t, acc, place, seen, d);
        LeavesByNodes(t, acc1, acc, seen + {d});
      } else {
        acc, place := DecideOnt(t, next, acc, place, seen, d);
      }
    }
  }

  lemma PluggedIs(t: Topology, d: Id, port: Option<Id>)
    requires port.Some? ==> exists i :: IsFirstAccess(t, d, i, port.value)
    requires port.None? ==> forall i, j :: i in PortsOf(t, d) && Linked(t, i, j) ==> !IsAonPort(t, j)
    ensures port.Some? <==> DirectlyPlugged(t, d)
    ensures port.Some? ==> AtFirstAccess(t, d, port.value)
  {
    if port.Some? {
      var i :| IsFirstAccess(t, d, i, port.value);
      FirstAccessOnRows(t, d, i, port.value);
    } else {
      forall i, j ensures !(RowPort(t, d, i) && RowPlug(t, i, j) && RowAccess(t, j)) {
        HopOnRows(t, i, j);
        PortsOnRows(t, d, i);
        PortsOnRows(t, d, j);
      }
    }
  }

  // ---- The nodes of the leaves, and the order of the decisions ----

  /** A leaf dealt with is its own subscriber in its own domain if it is provisioned; otherwise it has none. */
  ghost predicate LeafRow(t: Topology, acc: Acc, seen: set<Id>, a: Id)
    requires a in t.devices
  {
    && a in acc.subs
    && if a in seen && t.devices[a].provisioned
       then acc.subs[a] == [a] && a in acc.domain &&
            acc.domain[a] == if t.devices[a].kind == AON_CPE then AonDomain else OltDomain
       else acc.subs[a] == [] && a !in acc.domain
  }

  ghost predicate LeavesOk(t: Topology, acc: Acc, seen: set<Id>) {
    forall a :: a in t.devices && t.devices[a].kind in {ONT, BUSINESS_ONT, AON_CPE} ==> LeafRow(t, acc, seen, a)
  }

  lemma LeafKinds(t: Topology, a: Id)
    ensures IsLeaf(t, a) <==> a in t.devices && t.devices[a].kind in {ONT, BUSINESS_ONT, AON_CPE}
  {
  }

  /** Work at a node that is no leaf leaves the leaves alone. */
  lemma LeavesKept(t: Topology, acc: Acc, seen: set<Id>, n: Id, d: Id, dom: Domain)
    requires LeavesOk(t, acc, seen) && !IsLeaf(t, n) && n in acc.subs
    ensures LeavesOk(t, AddToNode(acc, n, d, dom), seen)
  {
    LeafKinds(t, n);
  }

  lemma CountOntLeaves(t: Topology, acc: Acc, seen: set<Id>, d: Id, kind: DeviceType, k: Port)
    requires LeavesOk(t, acc, seen) && PortOk(t, k) && k.0 in acc.subs
    ensures LeavesOk(t, CountOnt(acc, d, kind, k), seen) && CountOnt(acc, d, kind, k).cand == acc.cand
    ensures CountOnt(acc, d, kind, k).ds ==
      acc.ds + [Decision(d, kind, Counted, Some(OltDomain), Some(k), FirstReachableOltPon)]
  {
    LeavesKept(t, acc, seen, k.0, d, OltDomain);
    hide AddToNode, PortOk;
    LeavesByNodes(t, AddToNode(acc, k.0, d, OltDomain), CountOnt(acc, d, kind, k), seen);
  }

  lemma ResolveLeaves(t: Topology, acc: Acc, seen: set<Id>, k: Port)
    requires LeavesOk(t, acc, seen) && PortOk(t, k) && k.0 in acc.subs && k in acc.cand && acc.cand[k] != []
    ensures LeavesOk(t, ResolvePort(acc, k), seen)
  {
    var c := LeastIn(acc.cand[k]);
    LeavesKept(t, acc, seen, k.0, c, AonDomain);
    hide AddToNode, PortOk;
    LeavesByNodes(t, AddToNode(acc, k.0, c, AonDomain), ResolvePort(acc, k), seen);
  }

  lemma LeavesNext(t: Topology, acc: Acc, seen: set<Id>, d: Id)
    requires LeavesOk(t, acc, seen) && d in t.devices && d !in seen
    requires !(IsLeaf(t, d) && t.devices[d].provisioned)
    ensures LeavesOk(t, acc, seen + {d})
  {
    LeafKinds(t, d);
  }

  lemma LeavesByNodes(t: Topology, acc: Acc, acc': Acc, seen: set<Id>)
    requires LeavesOk(t, acc, seen) && acc'.subs == acc.subs && acc'.domain == acc.domain
    ensures LeavesOk(t, acc', seen)
  {
  }

  lemma LeafGains(t: Topology, acc: Acc, seen: set<Id>, d: Id, dom: Domain)
    requires LeavesOk(t, acc, seen) && IsLeaf(t, d) && t.devices[d].provisioned
    requires dom == if IsOntType(t.devices[d].kind) then OltDomain else AonDomain
    ensures LeavesOk(t, LeafNode(acc, d, dom), seen + {d})
  {
    LeafKinds(t, d);
  }

  ghost predicate InIdOrder(ds: seq<Decision>) {
    forall i, j :: 0 <= i < j < |ds| ==> IdLt(ds[i].subscriber, ds[j].subscriber)
  }

  /** At most one decision was added, about `d`. */
  ghost predicate ExtendedBy(ds: seq<Decision>, ds': seq<Decision>, d: Id) {
    ds' == ds || (|ds'| == |ds| + 1 && ds'[..|ds|] == ds && ds'[|ds|].subscriber == d)
  }

  lemma OrderKept(ds: seq<Decision>, ds': seq<Decision>, d: Id, past: seq<Id>)
    requires InIdOrder(ds) && ExtendedBy(ds, ds', d)
    requires forall i :: 0 <= i < |ds| ==> ds[i].subscriber in past
    requires forall x :: x in past ==> IdLt(x, d)
    ensures InIdOrder(ds') && forall i :: 0 <= i < |ds'| ==> ds'[i].subscriber in past + [d]
  {
    forall i | 0 <= i < |ds| ensures ds'[i] == ds[i] {
      assert ds' != ds ==> ds'[..|ds|][i] == ds[i];
    }
  }

  lemma EarlierIsLess(devs: seq<Id>, n: nat)
    requires Sorted(devs) && NoDuplicates(devs) && n < |devs|
    ensures forall x :: x in devs[..n] ==> IdLt(x, devs[n])
  {
    forall x | x in devs[..n] ensures IdLt(x, devs[n]) {
      var k :| 0 <= k < n && devs[..n][k] == x;
      assert devs[k] == x;
    }
  }

  // ---- The model ----

  datatype Model = Model(acc: Acc, oltTotal: nat, aonTotal: nat)

  function PortKeys(t: Topology, a: Id): set<Port> {
    set i | i in PortsOf(t, a) :: (a, i)
  }

  function CountedIds(ds: seq<Decision>): set<Id> {
    set i | 0 <= i < |ds| && ds[i].verdict.Counted? :: ds[i].subscriber
  }

  /** The nodes that enter a total: of the kind, and labelled with its domain. */
  function NodeCounts(t: Topology, acc: Acc, dom: Domain): map<Id, nat> {
    map a | a in t.devices && a in acc.subs && a in acc.domain && t.devices[a].kind == AnchorKind(dom) &&
      acc.domain[a] == dom :: |acc.subs[a]|
  }

  method SumNodes(t: Topology, acc: Acc, dom: Domain) returns (total: nat)
    ensures total == Total(NodeCounts(t, acc, dom), t.devices.Keys)
  {
    var counts := NodeCounts(t, acc, dom);
    hide *;
    total := 0;
    var rest := t.devices.Keys;
    while rest != {}
      invariant rest <= t.devices.Keys
      invariant total + Total(counts, rest) == Total(counts, t.devices.Keys)
      decreases rest
    {
      var a :| a in rest;
      TotalPick(counts, rest, a);
      total := total + Get(counts, a);
      rest := rest - {a};
    }
    TotalEmpty(counts);
  }

  lemma TotalEmpty(counts: map<Id, nat>)
    ensures Total(counts, {}) == 0
  {
  }

  /** A list without duplicates has the size of the set it lists. */
  lemma {:induction false} ListSize(s: seq<Id>, r: set<Id>)
    requires NoDuplicates(s) && forall x :: x in s <==> x in r
    ensures |s| == |r|
  {
    if s == [] {
      assert r == {};
    } else {
      ListSize(s[1..], r - {s[0]});
    }
  }

  function Anchors(place: map<Id, Port>): map<Id, Id> {
    map x | x in place :: place[x].0
  }

  /** The node of a device counts what is placed at the device. */
  lemma NodeSize(t: Topology, acc: Acc, place: map<Id, Port>, a: Id)
    requires NodesOk(t, acc.subs, acc.domain, place) && a in t.devices && !IsLeaf(t, a)
    ensures |acc.subs[a]| == |Class(Anchors(place), a)|
  {
    assert ListsExactly(acc.subs[a], place, a);
    ListSize(acc.subs[a], Class(Anchors(place), a));
  }

  /** Per device: the subscribers of a node are the sum of the occupancy of its ports. */
  lemma NodeIsSumOfPorts(t: Topology, acc: Acc, place: map<Id, Port>, a: Id, counters: map<Port, nat>)
    requires NodesOk(t, acc.subs, acc.domain, place) && a in t.devices && !IsLeaf(t, a)
    requires forall x :: x in place ==> PortOk(t, place[x])
    requires forall k: Port :: k.0 == a ==> Get(counters, k) == |Class(place, k)|
    ensures |acc.subs[a]| == Total(counters, PortKeys(t, a))
  {
    NodeSize(t, acc, place, a);
    TotalIsPlaced(counters, place, PortKeys(t, a));
    assert Placed(place, PortKeys(t, a)) == Class(Anchors(place), a) by {
      forall x | x in place ensures place[x] in PortKeys(t, a) <==> place[x].0 == a {
        assert PortOk(t, place[x]);
      }
    }
  }

  /** Globally: the totals of the two domains account for everything that is placed. */
  lemma DomainTotal(t: Topology, acc: Acc, place: map<Id, Port>, dom: Domain)
    requires NodesOk(t, acc.subs, acc.domain, place)
    ensures Total(NodeCounts(t, acc, dom), t.devices.Keys) == |InDomain(t, place, dom)|
  {
    hide ListsExactly;
    var counts, home := NodeCounts(t, acc, dom), Anchors(DomainPart(t, place, dom));
    forall a | a in t.devices ensures Get(counts, a) == |Class(home, a)| {
      if t.devices[a].kind == AnchorKind(dom) {
        NodeSize(t, acc, place, a);
        assert Class(home, a) == Class(Anchors(place), a);
        assert acc.subs[a] != [] ==> a in acc.domain && acc.domain[a] == dom;
      } else {
        assert Class(home, a) == {};
      }
    }
    hide NodesOk;
    TotalIsPlaced(counts, home, t.devices.Keys);
    assert Placed(home, t.devices.Keys) == InDomain(t, place, dom);
  }

  function DomainPart(t: Topology, place: map<Id, Port>, dom: Domain): map<Id, Port> {
    map x | x in place && KindOf(t, place[x].0, AnchorKind(dom)) :: place[x]
  }

  function InDomain(t: Topology, place: map<Id, Port>, dom: Domain): set<Id> {
    set x | x in place && KindOf(t, place[x].0, AnchorKind(dom))
  }

  lemma PlacedAreCounted(t: Topology, acc: Acc, open: set<Port>, place: map<Id, Port>, seen: set<Id>)
    requires DecisionsOk(t, acc.ds, acc.cand, open, place, seen)
    ensures forall x :: x in place ==> PortOk(t, place[x])
    ensures CountedIds(acc.ds) == place.Keys
    ensures |InDomain(t, place, OltDomain)| + |InDomain(t, place, AonDomain)| == |CountedIds(acc.ds)|
  {
    hide PortOk, KindOf, IsLeaf;
    forall x | x in place ensures x in CountedIds(acc.ds) {
      assert HasEntry(acc.ds, x);
      var i :| 0 <= i < |acc.ds| && acc.ds[i].subscriber == x;
      assert EntryOk(t, acc.cand, open, place, acc.ds[i]);
    }
    forall x | x in CountedIds(acc.ds) ensures x in place {
      var i :| 0 <= i < |acc.ds| && acc.ds[i].verdict.Counted? && acc.ds[i].subscriber == x;
      assert EntryOk(t, acc.cand, open, place, acc.ds[i]);
    }
    hide EntryOk, HasEntry;
    DomainsSplit(t, place);
  }

  lemma DomainsSplit(t: Topology, place: map<Id, Port>)
    requires forall x :: x in place ==> PortOk(t, place[x])
    ensures |InDomain(t, place, OltDomain)| + |InDomain(t, place, AonDomain)| == |place.Keys|
  {
    var o, a := InDomain(t, place, OltDomain), InDomain(t, place, AonDomain);
    assert o !! a;
    assert o + a == place.Keys by {
      forall x | x in place ensures x in o || x in a {
        assert PortOk(t, place[x]);
      }
    }
  }

  predicate IsCountedAt(e: Decision, a: Id) {
    e.verdict.Counted? && e.at.Some? && e.at.value.0 == a
  }

  /** Subscribers counted at a device, according to the decisions. */
  function CountedAt(ds: seq<Decision>, a: Id): set<Id> {
    set i | 0 <= i < |ds| && IsCountedAt(ds[i], a) :: ds[i].subscriber
  }

  predicate IsCountedAtPort(e: Decision, k: Port) {
    e.verdict.Counted? && e.at == Some(k)
  }

  function CountedAtPort(ds: seq<Decision>, k: Port): set<Id> {
    set i | 0 <= i < |ds| && IsCountedAtPort(ds[i], k) :: ds[i].subscriber
  }

  lemma ClassesAreCounted(t: Topology, acc: Acc, open: set<Port>, place: map<Id, Port>, seen: set<Id>)
    requires DecisionsOk(t, acc.ds, acc.cand, open, place, seen)
    ensures forall a :: CountedAt(acc.ds, a) == Class(Anchors(place), a)
    ensures forall k :: CountedAtPort(acc.ds, k) == Class(place, k)
  {
    hide PortOk, KindOf, IsLeaf;
    forall x | x in place
      ensures exists i :: 0 <= i < |acc.ds| && acc.ds[i].subscriber == x && IsCountedAtPort(acc.ds[i], place[x])
    {
      assert HasEntry(acc.ds, x);
      var i :| 0 <= i < |acc.ds| && acc.ds[i].subscriber == x;
      assert EntryOk(t, acc.cand, open, place, acc.ds[i]);
    }
    forall i | 0 <= i < |acc.ds| && acc.ds[i].verdict.Counted?
      ensures acc.ds[i].subscriber in place && acc.ds[i].at == Some(place[acc.ds[i].subscriber])
    {
      assert EntryOk(t, acc.cand, open, place, acc.ds[i]);
    }
    hide EntryOk, HasEntry;
  }

  lemma NodesAreCounted(t: Topology, acc: Acc, place: map<Id, Port>, seen: set<Id>)
    requires DecisionsOk(t, acc.ds, acc.cand, {}, place, seen)
    requires NodesOk(t, acc.subs, acc.domain, place) && PortsOk(t, acc.pon, acc.aon, place)
    ensures acc.subs.Keys == t.devices.Keys
    ensures forall a :: a in t.devices && !IsLeaf(t, a) ==> |acc.subs[a]| == |CountedAt(acc.ds, a)|
    ensures forall k: Port :: KindOf(t, k.0, DeviceType.OLT) ==> Get(acc.pon, k) == |CountedAtPort(acc.ds, k)|
    ensures forall k: Port :: KindOf(t, k.0, AON_SWITCH) ==> Get(acc.aon, k) == |CountedAtPort(acc.ds, k)|
  {
    ClassesAreCounted(t, acc, {}, place, seen);
    hide DecisionsOk, CountedAt, CountedAtPort, Class, Anchors, ListsExactly;
    forall a | a in t.devices && !IsLeaf(t, a) ensures |acc.subs[a]| == |CountedAt(acc.ds, a)| {
      NodeSize(t, acc, place, a);
    }
  }

  /** The result of both passes accounts for every subscriber exactly once. */
  ghost predicate Conserves(t: Topology, m: Model) {
    var acc := m.acc;
    && acc.subs.Keys == t.devices.Keys
    && (forall a :: KindOf(t, a, DeviceType.OLT) ==> |acc.subs[a]| == Total(acc.pon, PortKeys(t, a)))
    && (forall a :: KindOf(t, a, AON_SWITCH) ==> |acc.subs[a]| == Total(acc.aon, PortKeys(t, a)))
    && (forall a :: a in t.devices && !IsLeaf(t, a) ==> |acc.subs[a]| == |CountedAt(acc.ds, a)|)
    && (forall k: Port :: KindOf(t, k.0, DeviceType.OLT) ==> Get(acc.pon, k) == |CountedAtPort(acc.ds, k)|)
    && (forall k: Port :: KindOf(t, k.0, AON_SWITCH) ==> Get(acc.aon, k) == |CountedAtPort(acc.ds, k)|)
    && m.oltTotal == |CountedKinds(acc.ds, {ONT, BUSINESS_ONT})| && m.aonTotal == |CountedKinds(acc.ds, {AON_CPE})|
    && m.oltTotal + m.aonTotal == |CountedIds(acc.ds)|
  }

  /** The subscribers of the given kinds that a decision counts. */
  ghost function CountedKinds(ds: seq<Decision>, kinds: set<DeviceType>): set<Id> {
    set i | 0 <= i < |ds| && ds[i].verdict.Counted? && ds[i].kind in kinds :: ds[i].subscriber
  }

  lemma DomainsAreKinds(t: Topology, acc: Acc, place: map<Id, Port>)
    requires DecisionsOk(t, acc.ds, acc.cand, {}, place, t.devices.Keys) && AllTruthful(t, acc.ds)
    ensures InDomain(t, place, OltDomain) == CountedKinds(acc.ds, {ONT, BUSINESS_ONT})
    ensures InDomain(t, place, AonDomain) == CountedKinds(acc.ds, {AON_CPE})
  {
    hide PortOk, KindOf, IsLeaf, EntryOk, Truthful, HasEntry;
    var ds := acc.ds;
    forall x | x in place ensures
      (KindOf(t, place[x].0, DeviceType.OLT) <==> x in CountedKinds(ds, {ONT, BUSINESS_ONT})) &&
      (KindOf(t, place[x].0, AON_SWITCH) <==> x in CountedKinds(ds, {AON_CPE}))
    {
      var i := PlacedEntry(t, acc, place, x);
      CountedKind(t, acc.cand, place, ds[i]);
      assert forall j :: 0 <= j < |ds| && ds[j].subscriber == x ==> j == i;
    }
    forall kinds, x | x in CountedKinds(ds, kinds) ensures x in place {
      var i :| 0 <= i < |ds| && ds[i].verdict.Counted? && ds[i].kind in kinds && ds[i].subscriber == x;
      CountedKind(t, acc.cand, place, ds[i]);
    }
    hide CountedKinds, DecisionsOk, AllTruthful;
  }

  lemma PlacedEntry(t: Topology, acc: Acc, place: map<Id, Port>, x: Id) returns (i: nat)
    requires DecisionsOk(t, acc.ds, acc.cand, {}, place, t.devices.Keys) && x in place
    ensures i < |acc.ds| && acc.ds[i].subscriber == x && acc.ds[i].verdict.Counted?
  {
    hide PortOk, KindOf, IsLeaf;
    assert HasEntry(acc.ds, x);
    i :| 0 <= i < |acc.ds| && acc.ds[i].subscriber == x;
    assert EntryOk(t, acc.cand, {}, place, acc.ds[i]);
  }

  lemma CountedKind(t: Topology, cand: map<Port, seq<Id>>, place: map<Id, Port>, e: Decision)
    requires EntryOk(t, cand, {}, place, e) && Truthful(t, e) && e.verdict.Counted?
    ensures e.subscriber in place
    ensures e.kind in {ONT, BUSINESS_ONT} <==> KindOf(t, place[e.subscriber].0, DeviceType.OLT)
    ensures e.kind == AON_CPE <==> KindOf(t, place[e.subscriber].0, AON_SWITCH)
  {
    hide HasPonRoute, NearestPon, DirectlyPlugged, AtFirstAccess, PortOk;
  }

  /** The node of an anchor: the subscribers counted at it in id order, labelled exactly when there are any. */
  ghost predicate AnchorRow(t: Topology, acc: Acc, a: Id)
    requires a in t.devices
  {
    && a in acc.subs && Sorted(acc.subs[a]) && NoDuplicates(acc.subs[a])
    && (forall x :: x in acc.subs[a] <==> x in CountedAt(acc.ds, a))
    && (a in acc.domain <==> acc.subs[a] != [])
    && (a in acc.domain ==> t.devices[a].kind == if acc.domain[a] == OltDomain then DeviceType.OLT else AON_SWITCH)
  }

  ghost predicate NodesDescribe(t: Topology, acc: Acc) {
    && acc.subs.Keys == t.devices.Keys && LeavesOk(t, acc, t.devices.Keys)
    && forall a :: a in t.devices && t.devices[a].kind !in {ONT, BUSINESS_ONT, AON_CPE} ==> AnchorRow(t, acc, a)
  }

  lemma AnchorSettles(t: Topology, acc: Acc, place: map<Id, Port>, a: Id)
    requires NodesOk(t, acc.subs, acc.domain, place) && a in t.devices && !IsLeaf(t, a)
    requires CountedAt(acc.ds, a) == Class(Anchors(place), a)
    ensures AnchorRow(t, acc, a)
  {
    hide IsLeaf, CountedAt;
    assert ListsExactly(acc.subs[a], place, a);
  }

  lemma NodesSettle(t: Topology, acc: Acc, place: map<Id, Port>)
    requires Inv(t, acc, {}, place, t.devices.Keys) && LeavesOk(t, acc, t.devices.Keys)
    ensures NodesDescribe(t, acc)
  {
    hide *;
    InvParts(t, acc, place);
    ClassesAreCounted(t, acc, {}, place, t.devices.Keys);
    forall a | a in t.devices && t.devices[a].kind !in {ONT, BUSINESS_ONT, AON_CPE} ensures AnchorRow(t, acc, a) {
      LeafKinds(t, a);
      AnchorSettles(t, acc, place, a);
    }
    NodesTogether(t, acc);
  }

  lemma InvParts(t: Topology, acc: Acc, place: map<Id, Port>)
    requires Inv(t, acc, {}, place, t.devices.Keys)
    ensures DecisionsOk(t, acc.ds, acc.cand, {}, place, t.devices.Keys) && NodesOk(t, acc.subs, acc.domain, place)
    ensures acc.subs.Keys == t.devices.Keys
  {
  }

  lemma NodesTogether(t: Topology, acc: Acc)
    requires acc.subs.Keys == t.devices.Keys && LeavesOk(t, acc, t.devices.Keys)
    requires forall a :: a in t.devices && t.devices[a].kind !in {ONT, BUSINESS_ONT, AON_CPE} ==> AnchorRow(t, acc, a)
    ensures NodesDescribe(t, acc)
  {
    hide AnchorRow, LeavesOk;
  }

  ghost predicate DecidesAll(t: Topology, ds: seq<Decision>) {
    && (forall i, j :: 0 <= i < j < |ds| ==> ds[i].subscriber != ds[j].subscriber)
    && (forall x :: x in t.devices && t.devices[x].kind in {ONT, BUSINESS_ONT, AON_CPE} <==> HasEntry(ds, x))
    && (forall i :: 0 <= i < |ds| ==> !ds[i].verdict.Undetermined? && Truthful(t, ds[i]) && WellAnchored(t, ds[i]))
  }

  /** A port belongs to an anchor of the decision's domain, and a counted subscriber has one. */
  ghost predicate WellAnchored(t: Topology, e: Decision) {
    && (e.verdict.Counted? ==> e.at.Some?)
    && (e.at.Some? ==>
          && e.at.value.1 in t.ifaces && t.ifaces[e.at.value.1].device == e.at.value.0 && e.at.value.0 in t.devices
          && e.domain == match t.devices[e.at.value.0].kind
            case OLT => Some(OltDomain)
            case AON_SWITCH => Some(AonDomain)
            case _ => None)
    && (e.at.Some? ==> e.domain.Some?)
  }

  predicate SharesPort(e: Decision, f: Decision) {
    f.domain == Some(AonDomain) && f.at == e.at
  }

  /** A CPE with an access port is counted exactly when no CPE at the port has a smaller id. */
  ghost predicate CountsLeastCpe(ds: seq<Decision>) {
    forall j :: 0 <= j < |ds| && ds[j].domain == Some(AonDomain) && ds[j].at.Some? ==>
      (ds[j].verdict.Counted? <==> IsLeastAtPort(ds, ds[j]))
  }

  ghost predicate IsLeastAtPort(ds: seq<Decision>, e: Decision) {
    forall l :: 0 <= l < |ds| && SharesPort(e, ds[l]) ==> IdLe(e.subscriber, ds[l].subscriber)
  }

  lemma LeastCounted(t: Topology, acc: Acc, place: map<Id, Port>, seen: set<Id>, j: nat)
    requires DecisionsOk(t, acc.ds, acc.cand, {}, place, seen) && ResolvedOk(acc.cand, {}, place) && j < |acc.ds|
    requires acc.ds[j].domain == Some(AonDomain) && acc.ds[j].at.Some?
    ensures acc.ds[j].verdict.Counted? <==> IsLeastAtPort(acc.ds, acc.ds[j])
  {
    hide PortOk, KindOf, IsLeaf;
    var ds, e := acc.ds, acc.ds[j];
    assert EntryOk(t, acc.cand, {}, place, e);
    if e.verdict.Counted? {
      forall l | 0 <= l < |ds| && SharesPort(e, ds[l]) ensures IdLe(e.subscriber, ds[l].subscriber) {
        assert EntryOk(t, acc.cand, {}, place, ds[l]);
      }
    } else {
      var c := LeastIn(acc.cand[e.at.value]);
      assert HasEntry(ds, c);
      var n :| 0 <= n < |ds| && ds[n].subscriber == c;
      PlacedSharesPort(t, acc.cand, place, ds[n], e);
      IdLtTotal(e.subscriber, c);
    }
  }

  lemma PlacedSharesPort(t: Topology, cand: map<Port, seq<Id>>, place: map<Id, Port>, f: Decision, e: Decision)
    requires EntryOk(t, cand, {}, place, f) && EntryOk(t, cand, {}, place, e)
    requires e.domain == Some(AonDomain) && e.at.Some? && f.subscriber in place && place[f.subscriber] == e.at.value
    ensures SharesPort(e, f)
  {
  }

  lemma NothingOpen(t: Topology, acc: Acc, place: map<Id, Port>)
    requires DecisionsOk(t, acc.ds, acc.cand, {}, place, t.devices.Keys) && ResolvedOk(acc.cand, {}, place)
    requires AllTruthful(t, acc.ds)
    ensures DecidesAll(t, acc.ds) && CountsLeastCpe(acc.ds)
  {
    hide Truthful, PortOk, KindOf, IsLeafKind;
    forall x { LeafKinds(t, x); }
    forall j | 0 <= j < |acc.ds| && acc.ds[j].domain == Some(AonDomain) && acc.ds[j].at.Some?
      ensures acc.ds[j].verdict.Counted? <==> IsLeastAtPort(acc.ds, acc.ds[j])
    {
      LeastCounted(t, acc, place, t.devices.Keys, j);
    }
    forall i | 0 <= i < |acc.ds| ensures !acc.ds[i].verdict.Undetermined? && WellAnchored(t, acc.ds[i]) {
      EntryAnchored(t, acc.cand, place, acc.ds[i]);
    }
    hide EntryOk, IsLeastAtPort, WellAnchored;
  }

  lemma EntryAnchored(t: Topology, cand: map<Port, seq<Id>>, place: map<Id, Port>, e: Decision)
    requires EntryOk(t, cand, {}, place, e)
    ensures !e.verdict.Undetermined? && WellAnchored(t, e)
  {
    hide LeastIn;
  }

  lemma Settles(t: Topology, acc: Acc, place: map<Id, Port>)
    requires Inv(t, acc, {}, place, t.devices.Keys) && AllTruthful(t, acc.ds)
    ensures Conserves(t, Model(acc, |InDomain(t, place, OltDomain)|, |InDomain(t, place, AonDomain)|))
  {
    hide DecisionsOk, CandOk, NodesOk, PortsOk, ResolvedOk, PortOk, KindOf, CountedIds, InDomain, Total, PortKeys;
    hide CountedKinds, AllTruthful;
    DomainsAreKinds(t, acc, place);
    PlacedAreCounted(t, acc, {}, place, t.devices.Keys);
    forall a ensures KindOf(t, a, DeviceType.OLT) ==> a in acc.subs && |acc.subs[a]| == Total(acc.pon, PortKeys(t, a))
      ensures KindOf(t, a, AON_SWITCH) ==> a in acc.subs && |acc.subs[a]| == Total(acc.aon, PortKeys(t, a))
    {
      PortsAddUp(t, acc, place, a);
    }
    hide CountedAt, CountedAtPort, IsLeaf, Get;
    NodesAreCounted(t, acc, place, t.devices.Keys);
  }

  lemma PortsAddUp(t: Topology, acc: Acc, place: map<Id, Port>, a: Id)
    requires NodesOk(t, acc.subs, acc.domain, place) && PortsOk(t, acc.pon, acc.aon, place)
    requires forall x :: x in place ==> PortOk(t, place[x])
    ensures KindOf(t, a, DeviceType.OLT) ==> a in acc.subs && |acc.subs[a]| == Total(acc.pon, PortKeys(t, a))
    ensures KindOf(t, a, AON_SWITCH) ==> a in acc.subs && |acc.subs[a]| == Total(acc.aon, PortKeys(t, a))
  {
    hide PortOk, Total, PortKeys, Class, Get;
    if KindOf(t, a, DeviceType.OLT) {
      NodeIsSumOfPorts(t, acc, place, a, acc.pon);
    }
    if KindOf(t, a, AON_SWITCH) {
      NodeIsSumOfPorts(t, acc, place, a, acc.aon);
    }
  }

  /** The first pass: devices in id order. */
  method FirstPass(t: Topology, next: Successors) returns (acc: Acc, ghost place: map<Id, Port>)
    requires IsHopGraph(Service, t, next)
    ensures Inv(t, acc, acc.cand.Keys, place, t.devices.Keys) && AllTruthful(t, acc.ds)
    ensures LeavesOk(t, acc, t.devices.Keys) && InIdOrder(acc.ds)
  {
    hide *;
    acc := Acc([], map a | a in t.devices :: [], map[], map[], map[], map[]);
    ghost var seen: set<Id> := {};
    place := map[];
    StartsEmpty(t);
    assert acc.cand.Keys == {};
    var devs := SortedOf(t.devices.Keys);
    for n := 0 to |devs|
      invariant Inv(t, acc, acc.cand.Keys, place, seen) && AllTruthful(t, acc.ds)
      invariant LeavesOk(t, acc, seen) && InIdOrder(acc.ds)
      invariant forall i :: 0 <= i < |acc.ds| ==> acc.ds[i].subscriber in devs[..n]
      invariant forall x :: x in seen <==> x in devs[..n]
    {
      assert devs[..n + 1] == devs[..n] + [devs[n]];
      DistinctAt(devs, n);
      ghost var before := acc.ds;
      acc, place := Decide(t, next, acc, place, seen, devs[n]);
      EarlierIsLess(devs, n);
      OrderKept(before, acc.ds, devs[n], devs[..n]);
      seen := seen + {devs[n]};
    }
    assert devs[..|devs|] == devs;
    assert seen == t.devices.Keys;
  }

  /** The second pass: AON access ports. */
  method SecondPass(t: Topology, acc0: Acc, ghost place0: map<Id, Port>) returns (acc: Acc, ghost place: map<Id, Port>)
    requires Inv(t, acc0, acc0.cand.Keys, place0, t.devices.Keys) && AllTruthful(t, acc0.ds)
    requires LeavesOk(t, acc0, t.devices.Keys) && InIdOrder(acc0.ds)
    ensures Inv(t, acc, {}, place, t.devices.Keys) && AllTruthful(t, acc.ds)
    ensures LeavesOk(t, acc, t.devices.Keys) && InIdOrder(acc.ds)
  {
    hide *;
    acc, place := acc0, place0;
    var open := acc.cand.Keys;
    while open != {}
      invariant Inv(t, acc, open, place, t.devices.Keys) && AllTruthful(t, acc.ds)
      invariant LeavesOk(t, acc, t.devices.Keys) && InIdOrder(acc.ds)
      decreases open
    {
      var k :| k in open;
      StepResolve(t, acc, open, place, t.devices.Keys, k);
      ResolveTruthful(t, acc, k);
      ResolveKeepsNodes(t, acc, open, place, k);
      place := place[LeastIn(acc.cand[k]) := k];
      acc := ResolvePort(acc, k);
      open := open - {k};
    }
  }

  /** `resolve_subscriber_model`. */
  method ResolveSubscribers(t: Topology) returns (m: Model)
    ensures DecidesAll(t, m.acc.ds) && CountsLeastCpe(m.acc.ds) && Conserves(t, m)
    ensures NodesDescribe(t, m.acc) && InIdOrder(m.acc.ds)
  {
    hide *;
    var next := BuildHops(Service, t);
    var acc, place := FirstPass(t, next);
    acc, place := SecondPass(t, acc, place);
    var olt := SumNodes(t, acc, OltDomain);
    var aon := SumNodes(t, acc, AonDomain);
    m := Model(acc, olt, aon);
    Settles(t, acc, place);
    InvSettles(t, acc, place);
    NodesSettle(t, acc, place);
    TotalsAgree(t, acc, place);
  }

  lemma InvSettles(t: Topology, acc: Acc, place: map<Id, Port>)
    requires Inv(t, acc, {}, place, t.devices.Keys) && AllTruthful(t, acc.ds)
    ensures DecidesAll(t, acc.ds) && CountsLeastCpe(acc.ds)
  {
    hide DecisionsOk, ResolvedOk, AllTruthful, DecidesAll, CountsLeastCpe;
    NothingOpen(t, acc, place);
  }

  lemma TotalsAgree(t: Topology, acc: Acc, place: map<Id, Port>)
    requires Inv(t, acc, {}, place, t.devices.Keys)
    ensures forall dom :: Total(NodeCounts(t, acc, dom), t.devices.Keys) == |InDomain(t, place, dom)|
  {
    forall dom { DomainTotal(t, acc, place, dom); }
  }

  lemma StartsEmpty(t: Topology)
    ensures Inv(t, Acc([], map a | a in t.devices :: [], map[], map[], map[], map[]), {}, map[], {})
    ensures AllTruthful(t, []) && InIdOrder([])
    ensures LeavesOk(t, Acc([], map a | a in t.devices :: [], map[], map[], map[], map[]), {})
  {
    var none: map<Id, Port> := map[];
    assert forall k: Port :: Class(none, k) == {};
  }

  lemma ResolveTruthful(t: Topology, acc: Acc, k: Port)
    requires k in acc.cand && acc.cand[k] != [] && k.0 in acc.subs && AllTruthful(t, acc.ds)
    ensures AllTruthful(t, ResolvePort(acc, k).ds)
  {
    forall i | 0 <= i < |acc.ds| ensures Truthful(t, ResolvePort(acc, k).ds[i]) {
      RewriteTruthful(t, acc.ds[i], k.1, LeastIn(acc.cand[k]), acc.cand[k]);
    }
  }

  lemma ResolveKeepsNodes(t: Topology, acc: Acc, open: set<Port>, place: map<Id, Port>, k: Port)
    requires Inv(t, acc, open, place, t.devices.Keys) && k in open && k.0 in acc.subs
    requires k in acc.cand && acc.cand[k] != [] && LeavesOk(t, acc, t.devices.Keys) && InIdOrder(acc.ds)
    ensures LeavesOk(t, ResolvePort(acc, k), t.devices.Keys) && InIdOrder(ResolvePort(acc, k).ds)
  {
    hide DecisionsOk, NodesOk, PortsOk, ResolvedOk, IdLt, LeavesOk;
    OpenPort(t, acc, open, k);
    ResolveLeaves(t, acc, t.devices.Keys, k);
    var c, ds' := LeastIn(acc.cand[k]), ResolvePort(acc, k).ds;
    hide CandOk, LeastIn;
    forall i | 0 <= i < |acc.ds| ensures ds'[i].subscriber == acc.ds[i].subscriber {
      RewriteKeepsSubscriber(acc.ds[i], k.1, c, acc.cand[k]);
    }
  }

  // ---- The physical view ----

  lemma PhysicalRouteIsService(t: Topology, d: Id, starts: seq<Id>, phys: Successors, p: Path)
    requires IsHopGraph(Physical, t, phys) && IsRoute(starts, phys, p) && forall x :: x in starts ==> x in PortsOf(t, d)
    ensures IsServiceRoute(t, d, p)
  {
    forall i | 0 <= i < |p| - 1 ensures ServiceHop(t, p, i) {
      assert p[i + 1] in Next(phys, p[i]);
      PhysicalHopIsService(t, p[i], p[i + 1]);
    }
  }

  /** At a port at most `n` interfaces away from the subscriber. */
  ghost predicate AnchoredWithin(t: Topology, e: Decision, n: nat) {
    e.at.Some? && exists q :: IsServiceRoute(t, e.subscriber, q) && q[|q| - 1] == e.at.value.1 && |q| <= n
  }

  /** A provisioned ONT that the physical tracer anchors is counted, at a port no farther away. */
  lemma PhysicallyAnchoredIsCounted(t: Topology, ds: seq<Decision>, i: nat, starts: seq<Id>, phys: Successors, p: Path)
    requires DecidesAll(t, ds) && i < |ds| && IsOntType(ds[i].kind)
    requires ds[i].subscriber in t.devices && t.devices[ds[i].subscriber].provisioned
    requires IsHopGraph(Physical, t, phys) && forall x :: x in starts ==> x in PortsOf(t, ds[i].subscriber)
    requires IsRoute(starts, phys, p) && p[|p| - 1] in PonPorts(t)
    ensures ds[i].verdict.Counted? && AnchoredWithin(t, ds[i], |p|)
  {
    var d := ds[i].subscriber;
    PhysicalRouteIsService(t, d, starts, phys, p);
    hide IsServiceRoute, PonPorts, IsHopGraph, IsLeaf, HasEntry, WellAnchored;
    assert HasPonRoute(t, d);
    assert Truthful(t, ds[i]);
    var q :| IsServiceRoute(t, d, q) && q[|q| - 1] == ds[i].at.value.1 && NoPonCloser(t, d, q);
  }
}
