/** Device graphs as adjacency sets, walks in them, and what a set closed under edges means for walks. */
module Graphs {
  import opened Order

  type Adj = map<Id, set<Id>>

  function Nbrs(adj: Adj, u: Id): set<Id> {
    if u in adj then adj[u] else {}
  }

  /** Every neighbour is itself a node. */
  predicate Closed(adj: Adj) {
    forall u :: u in adj ==> adj[u] <= adj.Keys
  }

  predicate Symmetric(adj: Adj) {
    forall u, v :: u in adj && v in adj[u] ==> v in adj && u in adj[v]
  }

  predicate IsWalk(adj: Adj, p: Path) {
    |p| > 0 && forall i :: 0 <= i < |p| - 1 ==> p[i + 1] in Nbrs(adj, p[i])
  }

  predicate IsWalkFrom(adj: Adj, src: Id, dst: Id, p: Path) {
    IsWalk(adj, p) && p[0] == src && p[|p| - 1] == dst
  }

  ghost predicate Reachable(adj: Adj, src: Id, dst: Id) {
    exists p :: IsWalkFrom(adj, src, dst, p)
  }

  /** The first position of a walk that lies outside a set. */
  function FirstOutside(p: Path, s: set<Id>): (i: nat)
    requires exists k :: 0 <= k < |p| && p[k] !in s
    ensures i < |p| && p[i] !in s
    ensures forall j :: 0 <= j < i ==> p[j] in s
  {
    if p[0] !in s then 0 else
      assert exists k :: 0 <= k < |p[1..]| && p[1..][k] !in s by {
        var k :| 0 <= k < |p| && p[k] !in s;
        assert p[1..][k - 1] !in s;
      }
      1 + FirstOutside(p[1..], s)
  }

  lemma WalkPrefix(adj: Adj, q: Path, i: nat)
    requires IsWalk(adj, q) && 0 < i <= |q|
    ensures IsWalkFrom(adj, q[0], q[i - 1], q[..i])
  {
    forall k | 0 <= k < i - 1 ensures q[..i][k + 1] in Nbrs(adj, q[..i][k]) {
      assert q[k + 1] in Nbrs(adj, q[k]);
    }
  }

  lemma WalkSplice(adj: Adj, a: Id, b: Id, c: Id, p: Path, q: Path)
    requires IsWalkFrom(adj, a, b, p) && IsWalkFrom(adj, b, c, q)
    ensures IsWalkFrom(adj, a, c, p + q[1..])
  {
    var r := p + q[1..];
    forall i | 0 <= i < |r| - 1 ensures r[i + 1] in Nbrs(adj, r[i]) {
      if i >= |p| - 1 {
        assert r[i + 1] == q[i + 2 - |p|] && r[i] == q[i + 1 - |p|];
      }
    }
  }

  /** Dropping the loop between two visits of the same node leaves a shorter walk with the same ends. */
  lemma CutLoop(adj: Adj, p: Path, i: nat, j: nat) returns (q: Path)
    requires IsWalk(adj, p) && i < j < |p| && p[i] == p[j]
    ensures IsWalkFrom(adj, p[0], p[|p| - 1], q) && |q| < |p|
  {
    q := p[..i + 1] + p[j + 1..];
    forall k | 0 <= k < |q| - 1 ensures q[k + 1] in Nbrs(adj, q[k]) {
      if k < i {
        assert p[k + 1] in Nbrs(adj, p[k]);
      } else {
        assert p[k - i + j + 1] in Nbrs(adj, p[k - i + j]);
      }
    }
  }

  lemma ReachableTransitive(adj: Adj, a: Id, b: Id, c: Id)
    requires Reachable(adj, a, b) && Reachable(adj, b, c)
    ensures Reachable(adj, a, c)
  {
    var p :| IsWalkFrom(adj, a, b, p);
    var q :| IsWalkFrom(adj, b, c, q);
    WalkSplice(adj, a, b, c, p, q);
  }

  lemma FirstStep(adj: Adj, p: Path)
    requires IsWalk(adj, p) && |p| > 1
    ensures p[1] in Nbrs(adj, p[0])
  {
    assert p[0 + 1] in Nbrs(adj, p[0]);
  }

  lemma NoEdgesNoWalk(adj: Adj, u: Id, v: Id)
    requires Reachable(adj, u, v) && forall x, y :: y !in Nbrs(adj, x)
    ensures u == v
  {
    var p :| IsWalkFrom(adj, u, v, p);
    if |p| > 1 { FirstStep(adj, p); }
  }

  lemma ReachableStep(adj: Adj, a: Id, b: Id)
    requires b in Nbrs(adj, a)
    ensures Reachable(adj, a, b)
  {
    assert IsWalkFrom(adj, a, b, [a, b]);
  }

  function Reverse(p: Path): (r: Path)
    ensures |r| == |p| && forall i :: 0 <= i < |p| ==> r[i] == p[|p| - 1 - i]
  {
    if p == [] then [] else Reverse(p[1..]) + [p[0]]
  }

  lemma ReachableSymmetric(adj: Adj, a: Id, b: Id)
    requires Symmetric(adj) && Reachable(adj, a, b)
    ensures Reachable(adj, b, a)
  {
    var p :| IsWalkFrom(adj, a, b, p);
    var r := Reverse(p);
    forall i | 0 <= i < |r| - 1 ensures r[i + 1] in Nbrs(adj, r[i]) {
      assert p[|p| - 2 - i + 1] in Nbrs(adj, p[|p| - 2 - i]);
    }
    assert IsWalkFrom(adj, b, a, r);
  }

  /** A walk that starts in a set closed under edges never leaves it. */
  lemma {:induction false} WalkStaysInside(adj: Adj, s: set<Id>, p: Path)
    requires IsWalk(adj, p) && p[0] in s
    requires forall u, v :: u in s && v in Nbrs(adj, u) ==> v in s
    ensures forall i :: 0 <= i < |p| ==> p[i] in s
  {
    if |p| > 1 {
      var rest := p[1..];
      forall i | 0 <= i < |rest| - 1 ensures rest[i + 1] in Nbrs(adj, rest[i]) {
        assert p[i + 2] in Nbrs(adj, p[i + 1]);
      }
      assert p[0 + 1] in Nbrs(adj, p[0]);
      WalkStaysInside(adj, s, rest);
      assert p == [p[0]] + rest;
    }
  }

  lemma WalkMonotone(adj: Adj, adj': Adj, p: Path)
    requires IsWalk(adj, p)
    requires forall u :: u in adj ==> adj[u] <= Nbrs(adj', u)
    ensures IsWalk(adj', p)
  {
    forall i | 0 <= i < |p| - 1 ensures p[i + 1] in Nbrs(adj', p[i]) {
      assert p[i + 1] in Nbrs(adj, p[i]);
    }
  }

  /** Adding an undirected edge. */
  function AddBoth(adj: Adj, u: Id, v: Id): Adj {
    var adj' := adj[u := Nbrs(adj, u) + {v}];
    adj'[v := Nbrs(adj', v) + {u}]
  }

  lemma AddBothAdds(adj: Adj, u: Id, v: Id)
    ensures forall x, y :: y in Nbrs(AddBoth(adj, u, v), x) <==>
      y in Nbrs(adj, x) || (x == u && y == v) || (x == v && y == u)
    ensures Closed(adj) ==> Closed(AddBoth(adj, u, v))
    ensures Symmetric(adj) ==> Symmetric(AddBoth(adj, u, v))
    ensures AddBoth(adj, u, v).Keys == adj.Keys + {u, v}
  {
  }
}
