/** Shortest walks to one node and to the nearest of several, under the contract of a shortest-path library. */
module Routes {
  import opened Types
  import opened Order
  import opened Graphs
  import opened Dijkstra
  import opened LogicalGraph

  /** No walk between the same ends is shorter. */
  ghost predicate IsShortest(adj: Adj, src: Id, dst: Id, p: Path) {
    IsWalkFrom(adj, src, dst, p) && forall q :: IsWalkFrom(adj, src, dst, q) ==> |p| <= |q|
  }

  /** `nx.shortest_path`, of which only the length is relied on; None stands for NetworkXNoPath. */
  method FindShortest(adj: Adj, src: Id, dst: Id) returns (r: Option<Path>)
    requires Closed(adj) && src in adj
    ensures r.Some? <==> Reachable(adj, src, dst)
    ensures r.Some? ==> IsShortest(adj, src, dst, r.value)
  {
    var done := Search(adj, src, Unit);
    r := if dst in done then Some(done[dst]) else None;
    if r.Some? {
      forall q | IsWalkFrom(adj, src, dst, q) ensures |r.value| <= |q| {
        UnitOrder(r.value, q);
      }
    }
  }

  /** `p` leads to one of `dsts`, and no walk to any of them is shorter. */
  ghost predicate IsNearestPath(adj: Adj, src: Id, dsts: seq<Id>, p: Path) {
    && IsWalk(adj, p) && p[0] == src && p[|p| - 1] in dsts
    && forall q, d :: d in dsts && IsWalkFrom(adj, src, d, q) ==> |p| <= |q|
  }

  ghost predicate ReachesOne(adj: Adj, src: Id, dsts: seq<Id>) {
    exists d :: d in dsts && Reachable(adj, src, d)
  }

  /** The best path is replaced only by a strictly shorter one. */
  method NearestPath(adj: Adj, src: Id, dsts: seq<Id>) returns (r: Option<Path>)
    requires Closed(adj) && src in adj
    ensures r.Some? <==> ReachesOne(adj, src, dsts)
    ensures r.Some? ==> IsNearestPath(adj, src, dsts, r.value)
  {
    r := None;
    for n := 0 to |dsts|
      invariant r.Some? <==> ReachesOne(adj, src, dsts[..n])
      invariant r.Some? ==> IsNearestPath(adj, src, dsts[..n], r.value)
    {
      assert dsts[..n + 1] == dsts[..n] + [dsts[n]];
      var path := FindShortest(adj, src, dsts[n]);
      ghost var r0 := r;
      if path.Some? && (r.None? || |path.value| < |r.value|) {
        r := path;
      }
      Nearer(adj, src, dsts[..n], dsts[n], r0, path, r);
    }
    assert dsts[..|dsts|] == dsts;
  }

  lemma Nearer(adj: Adj, src: Id, dsts: seq<Id>, d: Id, r0: Option<Path>, path: Option<Path>, r: Option<Path>)
    requires r0.Some? <==> ReachesOne(adj, src, dsts)
    requires r0.Some? ==> IsNearestPath(adj, src, dsts, r0.value)
    requires path.Some? <==> Reachable(adj, src, d)
    requires path.Some? ==> IsShortest(adj, src, d, path.value)
    requires r == if path.Some? && (r0.None? || |path.value| < |r0.value|) then path else r0
    ensures r.Some? <==> ReachesOne(adj, src, dsts + [d])
    ensures r.Some? ==> IsNearestPath(adj, src, dsts + [d], r.value)
  {
    var dsts' := dsts + [d];
    assert forall x :: x in dsts' <==> x in dsts || x == d;
    assert ReachesOne(adj, src, dsts') <==> ReachesOne(adj, src, dsts) || Reachable(adj, src, d);
    if r.Some? {
      forall q, x | x in dsts' && IsWalkFrom(adj, src, x, q) ensures |r.value| <= |q| {
        assert Reachable(adj, src, x);
      }
    }
  }

  /** A nearest path visits no node twice and meets no destination before its end. */
  lemma NearestPathShape(adj: Adj, src: Id, dsts: seq<Id>, p: Path)
    requires IsNearestPath(adj, src, dsts, p)
    ensures NoDuplicates(p)
    ensures forall i :: 0 <= i < |p| - 1 ==> p[i] !in dsts
  {
    forall i, j | 0 <= i < j < |p| ensures p[i] != p[j] {
      if p[i] == p[j] {
        var q := CutLoop(adj, p, i, j);
      }
    }
    forall i | 0 <= i < |p| - 1 ensures p[i] !in dsts {
      WalkPrefix(adj, p, i + 1);
    }
  }
}
