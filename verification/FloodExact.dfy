/**
 Floods over two adjacencies: the devices outside a set keep their reachability, whatever the anchors and
 candidates are, exactly when every changed edge lies inside the set.
 */
module FloodExact {
  import opened Order
  import opened Graphs
  import opened Topology
  import opened Propagation
  import opened GraphIndex
  import opened Incremental

  ghost predicate FloodClosedIn(adj: Adj, seeds: set<Id>, conduits: set<Id>, s: set<Id>) {
    seeds <= s && forall u, v :: u in s && v in Nbrs(adj, u) && v in conduits ==> v in s
  }

  ghost predicate IsFlood(adj: Adj, seeds: set<Id>, conduits: set<Id>, r: set<Id>) {
    FloodClosedIn(adj, seeds, conduits, r) && forall s :: FloodClosedIn(adj, seeds, conduits, s) ==> r <= s
  }

  ghost predicate AgreeOutside(a: set<Id>, b: set<Id>, c: set<Id>) {
    forall x :: x !in c ==> (x in a <==> x in b)
  }

  /** Whatever the anchors and candidates are, as long as they differ only inside `c`. */
  ghost predicate SoundOutside(adj0: Adj, adj1: Adj, c: set<Id>) {
    forall seeds0, seeds1, cond0, cond1, r0, r1 ::
      AgreeOutside(seeds0, seeds1, c) && AgreeOutside(cond0, cond1, c) && IsFlood(adj0, seeds0, cond0, r0) &&
        IsFlood(adj1, seeds1, cond1, r1)
      ==> AgreeOutside(r0, r1, c)
  }

  /** An edge between two devices that is in one adjacency only has both ends in `c`. */
  ghost predicate EdgesInside(adj0: Adj, adj1: Adj, c: set<Id>) {
    forall u, v :: u != v && !(u in c && v in c) ==> SameEdge(adj0, adj1, u, v)
  }

  predicate SameEdge(adj0: Adj, adj1: Adj, u: Id, v: Id) {
    v in Nbrs(adj0, u) <==> v in Nbrs(adj1, u)
  }

  ghost predicate Sealed(adj: Adj, c: set<Id>) {
    forall u, v :: u in c && v in Nbrs(adj, u) ==> v in c
  }

  lemma FloodWithin(adj: Adj, adj': Adj, c: set<Id>, seeds: set<Id>, seeds': set<Id>, cond: set<Id>, cond': set<Id>,
                    r: set<Id>, r': set<Id>)
    requires EdgesInside(adj, adj', c) && Sealed(adj, c) && AgreeOutside(seeds, seeds', c)
    requires AgreeOutside(cond, cond', c)
    requires IsFlood(adj, seeds, cond, r) && IsFlood(adj', seeds', cond', r')
    ensures r <= r' + c
  {
    hide Nbrs;
    forall u, v | u in r' + c && v in Nbrs(adj, u) && v in cond ensures v in r' + c {
      assert u == v || (u in c && v in c) || SameEdge(adj, adj', u, v);
    }
    assert FloodClosedIn(adj, seeds, cond, r' + c);
  }

  lemma InsideIsSound(adj0: Adj, adj1: Adj, c: set<Id>)
    requires Symmetric(adj0) && Symmetric(adj1) && Sealed(adj1, c) && EdgesInside(adj0, adj1, c)
    ensures SoundOutside(adj0, adj1, c)
  {
    InsideBothWays(adj0, adj1, c);
    hide Nbrs, Symmetric, Sealed, EdgesInside, IsFlood, AgreeOutside;
    forall seeds0, seeds1, cond0, cond1, r0, r1 |
      AgreeOutside(seeds0, seeds1, c) && AgreeOutside(cond0, cond1, c) && IsFlood(adj0, seeds0, cond0, r0) &&
        IsFlood(adj1, seeds1, cond1, r1)
      ensures AgreeOutside(r0, r1, c)
    {
      Mirrored(seeds0, seeds1, c);
      Mirrored(cond0, cond1, c);
      FloodWithin(adj0, adj1, c, seeds0, seeds1, cond0, cond1, r0, r1);
      FloodWithin(adj1, adj0, c, seeds1, seeds0, cond1, cond0, r1, r0);
      WithinAgrees(r0, r1, c);
    }
  }

  lemma InsideBothWays(adj0: Adj, adj1: Adj, c: set<Id>)
    requires Sealed(adj1, c) && EdgesInside(adj0, adj1, c)
    ensures Sealed(adj0, c) && EdgesInside(adj1, adj0, c)
  {
    hide Nbrs;
    forall u, v | u in c && v in Nbrs(adj0, u) ensures v in c {
      assert u == v || (u in c && v in c) || SameEdge(adj0, adj1, u, v);
    }
    forall u, v | u != v && !(u in c && v in c) ensures SameEdge(adj1, adj0, u, v) {
      assert SameEdge(adj0, adj1, u, v);
    }
  }

  lemma Mirrored(a: set<Id>, b: set<Id>, c: set<Id>)
    requires AgreeOutside(a, b, c)
    ensures AgreeOutside(b, a, c)
  {
  }

  lemma WithinAgrees(a: set<Id>, b: set<Id>, c: set<Id>)
    requires a <= b + c && b <= a + c
    ensures AgreeOutside(a, b, c)
  {
  }

  /** One anchor and one candidate tell two adjacencies apart. */
  lemma FloodOfPair(adj: Adj, y: Id, x: Id)
    requires x != y
    ensures IsFlood(adj, {y}, {x}, if x in Nbrs(adj, y) then {y, x} else {y})
  {
    hide Nbrs;
  }

  lemma EdgeDecides(adj0: Adj, adj1: Adj, c: set<Id>, y: Id, x: Id)
    requires SoundOutside(adj0, adj1, c) && x != y && x !in c
    ensures x in Nbrs(adj0, y) <==> x in Nbrs(adj1, y)
  {
    hide Nbrs, IsFlood;
    var r0, r1 := if x in Nbrs(adj0, y) then {y, x} else {y}, if x in Nbrs(adj1, y) then {y, x} else {y};
    FloodOfPair(adj0, y, x);
    FloodOfPair(adj1, y, x);
    assert AgreeOutside({y}, {y}, c) && AgreeOutside({x}, {x}, c);
    assert AgreeOutside(r0, r1, c);
  }

  /** The exact condition, for a set that no edge of the new adjacency leaves. */
  lemma SoundIffEdgesInside(adj0: Adj, adj1: Adj, c: set<Id>)
    requires Symmetric(adj0) && Symmetric(adj1) && Sealed(adj1, c)
    ensures SoundOutside(adj0, adj1, c) <==> EdgesInside(adj0, adj1, c)
  {
    if EdgesInside(adj0, adj1, c) {
      InsideIsSound(adj0, adj1, c);
    }
    if SoundOutside(adj0, adj1, c) {
      forall u, v | u != v && !(u in c && v in c) ensures SameEdge(adj0, adj1, u, v) {
        if v !in c {
          EdgeDecides(adj0, adj1, c, u, v);
        } else {
          EdgeDecides(adj0, adj1, c, v, u);
          NbrsMutual(adj0, u, v);
          NbrsMutual(adj1, u, v);
        }
      }
    }
  }

  lemma NbrsMutual(adj: Adj, u: Id, v: Id)
    requires Symmetric(adj)
    ensures v in Nbrs(adj, u) <==> u in Nbrs(adj, v)
  {
  }

  /** A covering change record puts every changed edge inside the affected component. */
  lemma CoveredEdgesInside(t0: Topology, t1: Topology, ch: Change, c: set<Id>, adj0: Adj, adj1: Adj)
    requires Covers(t0, t1, ch) && IsAffected(t0, t1, ch, c) && Represents(t0, adj0) && Represents(t1, adj1)
    ensures EdgesInside(adj0, adj1, c) && Sealed(adj1, c)
  {
    hide Covers, IsAffected, AdjEdge;
    forall u, v | !(u in c && v in c) ensures SameEdge(adj0, adj1, u, v) {
      if u !in c {
        EdgeAgrees(t0, t1, ch, c, u, v);
      } else {
        EdgeAgrees(t0, t1, ch, c, v, u);
        AdjEdgeSymmetric(t0, u, v);
        AdjEdgeSymmetric(t1, u, v);
      }
    }
    forall u, v | u in c && v in Nbrs(adj1, u) ensures v in c {
      NothingLeaves(t0, t1, ch, c, u, v);
    }
  }

  lemma NothingLeaves(t0: Topology, t1: Topology, ch: Change, c: set<Id>, u: Id, v: Id)
    requires IsAffected(t0, t1, ch, c) && u in c && AdjEdge(t1, u, v)
    ensures v in c
  {
    hide AdjEdge, Dirty, EndOfDirty;
  }

  lemma RepresentsSymmetric(t: Topology, adj: Adj)
    requires Represents(t, adj)
    ensures Symmetric(adj)
  {
    hide AdjEdge;
    forall u, v | u in adj && v in adj[u] ensures v in adj && u in adj[v] {
      assert v in Nbrs(adj, u);
      AdjEdgeSymmetric(t, u, v);
      assert u in Nbrs(adj, v);
    }
  }

  /** Hence no choice of anchors and candidates can be evaluated wrongly outside the affected component. */
  lemma CoveredIsSound(t0: Topology, t1: Topology, ch: Change, c: set<Id>, adj0: Adj, adj1: Adj)
    requires Covers(t0, t1, ch) && IsAffected(t0, t1, ch, c) && Represents(t0, adj0) && Represents(t1, adj1)
    ensures SoundOutside(adj0, adj1, c)
  {
    hide Covers, IsAffected, Represents, SoundOutside, EdgesInside, Sealed, Symmetric;
    CoveredEdgesInside(t0, t1, ch, c, adj0, adj1);
    RepresentsSymmetric(t0, adj0);
    RepresentsSymmetric(t1, adj1);
    SoundIffEdgesInside(adj0, adj1, c);
  }
}
