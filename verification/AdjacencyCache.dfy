/**
 The adjacency cache of status recompute (`_ensure_graph_cache` in backend/services/status_recompute.py),
 keyed by a version and a count of administrative overrides.
 */
module AdjacencyCache {
  import opened Types
  import opened Order
  import opened Graphs
  import opened Topology
  import opened Propagation
  import opened Samples

  /** Overrides by kind: devices up, devices down, links up, links down. */
  datatype Fingerprint = Fingerprint(devicesUp: nat, devicesDown: nat, linksUp: nat, linksDown: nat)

  function DevicesForced(t: Topology, s: Status): set<Id> {
    set d | d in t.devices && t.devices[d].override == Some(s)
  }

  function LinksForced(t: Topology, s: Status): set<Id> {
    set l | l in t.links && t.links[l].override == Some(s)
  }

  function OverrideCounts(t: Topology): Fingerprint {
    Fingerprint(|DevicesForced(t, UP)|, |DevicesForced(t, DOWN)|, |LinksForced(t, UP)|, |LinksForced(t, DOWN)|)
  }

  /** Two snapshots have the same counts exactly when as many devices, and as many links, are forced each way. */
  lemma CountsAgreeIff(t: Topology, t': Topology)
    ensures OverrideCounts(t) == OverrideCounts(t') <==> forall s :: s in {UP, DOWN} ==>
      && |set d | d in t.devices && t.devices[d].override == Some(s)| ==
         |set d | d in t'.devices && t'.devices[d].override == Some(s)|
      && |set l | l in t.links && t.links[l].override == Some(s)| ==
         |set l | l in t'.links && t'.links[l].override == Some(s)|
  {
    forall x: Topology, s: Status
      ensures DevicesForced(x, s) == set d | d in x.devices && x.devices[d].override == Some(s)
      ensures LinksForced(x, s) == set l | l in x.links && x.links[l].override == Some(s)
    {
    }
    hide DevicesForced, LinksForced;
    assert UP in {UP, DOWN} && DOWN in {UP, DOWN};
  }

  datatype Cached = Empty | Filled(version: int, counts: Fingerprint, adj: Adj, ids: set<Id>)

  predicate Hits(c: Cached, t: Topology, v: int) {
    c.Filled? && c.version == v && c.counts == OverrideCounts(t)
  }

  /** One access: a hit returns what is stored, a miss rebuilds from the rows. */
  ghost predicate Accessed(c: Cached, t: Topology, v: int, c': Cached) {
    if Hits(c, t, v) then c' == c
    else
      && c'.Filled? && c'.version == v && c'.counts == OverrideCounts(t)
      && Represents(t, c'.adj) && c'.ids == t.devices.Keys
  }

  class GraphCache {
    var cached: Cached

    /** A stored adjacency lists only nodes. */
    ghost predicate Valid()
      reads this
    {
      cached.Filled? ==> Closed(cached.adj)
    }

    constructor ()
      ensures Valid() && cached == Empty
    {
      cached := Empty;
    }

    method Ensure(t: Topology, v: int) returns (adj: Adj, ids: set<Id>)
      requires Valid()
      modifies this
      ensures Valid() && Accessed(old(cached), t, v, cached) && cached.Filled? && adj == cached.adj && ids == cached.ids
    {
      if !Hits(cached, t, v) {
        var built := BuildAdjacency(t);
        cached := Filled(v, OverrideCounts(t), built, t.devices.Keys);
      }
      adj, ids := cached.adj, cached.ids;
    }
  }

  /** An access for `t` at `v` will see the edges of `t`. */
  ghost predicate Trusted(c: Cached, t: Topology, v: int) {
    Hits(c, t, v) ==> Represents(t, c.adj)
  }

  ghost predicate SameEdges(t: Topology, t': Topology) {
    forall u, v :: AdjEdge(t, u, v) <==> AdjEdge(t', u, v)
  }

  /** What a run of accesses stores was built from a topology seen earlier under the same version and counts. */
  ghost predicate BuiltEarlier(ts: seq<Topology>, vs: seq<int>, n: nat, c: Cached) {
    c.Filled? ==> exists i :: 0 <= i < n && i < |ts| && i < |vs| && BuiltAt(ts[i], vs[i], c)
  }

  ghost predicate BuiltAt(t: Topology, v: int, c: Cached) {
    c.Filled? && c.version == v && c.counts == OverrideCounts(t) && Represents(t, c.adj)
  }

  ghost predicate IsRun(ts: seq<Topology>, vs: seq<int>, cs: seq<Cached>) {
    && |vs| == |ts| && |cs| == |ts| + 1 && cs[0] == Empty
    && forall i :: 0 <= i < |ts| ==> Accessed(cs[i], ts[i], vs[i], cs[i + 1])
  }

  lemma {:induction false} RunBuiltEarlier(ts: seq<Topology>, vs: seq<int>, cs: seq<Cached>, n: nat)
    requires IsRun(ts, vs, cs) && n <= |ts|
    ensures BuiltEarlier(ts, vs, n, cs[n])
  {
    hide OverrideCounts, Represents;
    if n > 0 {
      RunBuiltEarlier(ts, vs, cs, n - 1);
      assert Accessed(cs[n - 1], ts[n - 1], vs[n - 1], cs[n - 1 + 1]);
      if !Hits(cs[n - 1], ts[n - 1], vs[n - 1]) {
        assert BuiltAt(ts[n - 1], vs[n - 1], cs[n]);
      }
    }
  }

  /** Equal keys mean equal edges: what the version bumps have to guarantee. */
  ghost predicate KeysDecide(ts: seq<Topology>, vs: seq<int>) {
    forall i, j :: 0 <= i < |ts| && i < |vs| && 0 <= j < |ts| && j < |vs| && SameKey(ts[i], vs[i], ts[j], vs[j]) ==>
      SameEdges(ts[i], ts[j])
  }

  predicate SameKey(t: Topology, v: int, t': Topology, v': int) {
    v == v' && OverrideCounts(t) == OverrideCounts(t')
  }

  /** In every run whose keys decide the edges, each access returns the adjacency of its own topology. */
  lemma RunIsFresh(ts: seq<Topology>, vs: seq<int>, cs: seq<Cached>, n: nat)
    requires IsRun(ts, vs, cs) && n < |ts| && KeysDecide(ts, vs)
    ensures cs[n + 1].Filled? && Represents(ts[n], cs[n + 1].adj)
  {
    hide OverrideCounts, AdjEdge;
    RunBuiltEarlier(ts, vs, cs, n);
    assert Accessed(cs[n], ts[n], vs[n], cs[n + 1]);
    if Hits(cs[n], ts[n], vs[n]) {
      var i :| 0 <= i < n && BuiltAt(ts[i], vs[i], cs[n]);
      assert SameEdges(ts[i], ts[n]);
    }
  }

  /** The same, before the next access: deciding keys make the stored adjacency one to trust. */
  lemma RunIsTrusted(ts: seq<Topology>, vs: seq<int>, cs: seq<Cached>, t: Topology, v: int)
    requires IsRun(ts, vs, cs) && KeysDecide(ts + [t], vs + [v])
    ensures Trusted(cs[|ts|], t, v)
  {
    hide OverrideCounts, AdjEdge;
    RunBuiltEarlier(ts, vs, cs, |ts|);
    var c, ts', vs' := cs[|ts|], ts + [t], vs + [v];
    if Hits(c, t, v) {
      var i :| 0 <= i < |ts| && BuiltAt(ts[i], vs[i], c);
      assert ts'[i] == ts[i] && vs'[i] == vs[i] && ts'[|ts|] == t && vs'[|ts|] == v;
      assert SameEdges(ts'[i], ts'[|ts|]);
    }
  }

  /**
   Two accesses in a row under one key: the second is right exactly when no edge and no device id changed in
   between.
   */
  lemma SecondAccessIsFreshIff(c: Cached, t: Topology, t': Topology, v: int, c1: Cached, c2: Cached)
    requires !Hits(c, t, v) && Accessed(c, t, v, c1) && Accessed(c1, t', v, c2)
    requires OverrideCounts(t) == OverrideCounts(t')
    ensures c2.Filled? && (Represents(t', c2.adj) <==> SameEdges(t, t'))
    ensures c2.ids == t'.devices.Keys <==> t.devices.Keys == t'.devices.Keys
  {
    hide AdjEdge;
    assert c2 == c1 && Represents(t, c1.adj);
    if Represents(t', c2.adj) {
      forall u, w ensures AdjEdge(t, u, w) <==> AdjEdge(t', u, w) {
        assert w in Nbrs(c1.adj, u) <==> AdjEdge(t, u, w);
      }
    }
  }

  /** Two links, one of them forced down. */
  function Forked(down: Id): Topology {
    Topology(map["B" := Row(BACKBONE_GATEWAY, None), "X" := Row(EDGE_ROUTER, None), "Y" := Row(EDGE_ROUTER, None)],
             map["b" := Port("B"), "x" := Port("X"), "y" := Port("Y")],
             map["L" := Wire("b", "x", ForcedIf(down == "L")), "M" := Wire("b", "y", ForcedIf(down == "M"))])
  }

  function ForcedIf(down: bool): Option<Status> {
    if down then Some(DOWN) else None
  }

  lemma ForkedCounts()
    ensures OverrideCounts(Forked("L")) == OverrideCounts(Forked("M"))
  {
    var t, t' := Forked("L"), Forked("M");
    assert LinksForced(t, DOWN) == {"L"} && LinksForced(t', DOWN) == {"M"};
    assert LinksForced(t, UP) == {} && LinksForced(t', UP) == {};
    assert t.devices == t'.devices;
    assert DevicesForced(t, UP) == DevicesForced(t', UP) && DevicesForced(t, DOWN) == DevicesForced(t', DOWN);
  }

  lemma ForkedEdge(down: Id)
    requires down == "L" || down == "M"
    ensures AdjEdge(Forked(down), "B", "Y") <==> down == "L"
  {
    var t := Forked(down);
    assert forall id :: Carries(t, id, "B", "Y") ==> id == "M";
    assert Carries(t, "M", "B", "Y") <==> down == "L";
    hide Carries;
  }

  /** Moving a DOWN override from one link to another changes the edges but not the counts. */
  lemma CountsMissMovedOverride()
    ensures OverrideCounts(Forked("L")) == OverrideCounts(Forked("M")) && !SameEdges(Forked("L"), Forked("M"))
  {
    hide OverrideCounts, Forked, AdjEdge;
    ForkedCounts();
    ForkedEdge("L");
    ForkedEdge("M");
  }
}
