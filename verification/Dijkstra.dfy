/**
 Dijkstra over walks ordered by (cost, hops, lexicographic ids).

 The heap entries of the source are tuples (dist, path, node); dist and node are
 functions of the path, so an entry is modelled by its path.  With unit costs the
 order is the source's (hop count, tuple of ids).
 */
module Dijkstra {
  import opened Order
  import opened Graphs

  type Weight = (Id, Id) -> real

  ghost predicate NonNegative(w: Weight) {
    forall u, v :: w(u, v) >= 0.0
  }

  function Cost(w: Weight, p: Path): real {
    if |p| < 2 then 0.0 else Cost(w, p[..|p| - 1]) + w(p[|p| - 2], p[|p| - 1])
  }

  predicate Before(w: Weight, p: Path, q: Path) {
    Cost(w, p) < Cost(w, q)
    || (Cost(w, p) == Cost(w, q) && (|p| < |q| || (|p| == |q| && LexLt(p, q))))
  }

  predicate NotAfter(w: Weight, p: Path, q: Path) {
    p == q || Before(w, p, q)
  }

  /** `p` is a walk to `dst`, and no walk to `dst` precedes it. */
  ghost predicate IsBest(adj: Adj, w: Weight, src: Id, dst: Id, p: Path) {
    IsWalkFrom(adj, src, dst, p)
    && forall q :: IsWalkFrom(adj, src, dst, q) ==> NotAfter(w, p, q)
  }

  lemma BeforeTotal(w: Weight, p: Path, q: Path)
    ensures NotAfter(w, p, q) || Before(w, q, p)
    ensures !(NotAfter(w, p, q) && Before(w, q, p))
  {
    LexLtTotal(p, q);
  }

  lemma NotAfterTransitive(w: Weight, p: Path, q: Path, r: Path)
    requires NotAfter(w, p, q) && NotAfter(w, q, r)
    ensures NotAfter(w, p, r)
  {
    if LexLt(p, q) && LexLt(q, r) {
      LexLtTransitive(p, q, r);
    }
  }

  lemma AppendMonotone(w: Weight, p: Path, q: Path, x: Id)
    requires |p| > 0 && |q| > 0 && p[|p| - 1] == q[|q| - 1]
    requires NotAfter(w, p, q)
    ensures NotAfter(w, p + [x], q + [x])
  {
    assert (p + [x])[..|p|] == p && (q + [x])[..|q|] == q;
    if |p| == |q| && LexLt(p, q) {
      LexLtAppend(p, q, x);
    }
  }

  lemma {:induction false} PrefixNotAfter(w: Weight, p: Path, k: nat)
    requires NonNegative(w) && 0 < k <= |p|
    ensures NotAfter(w, p[..k], p)
    decreases |p|
  {
    if k == |p| {
      assert p[..k] == p;
    } else {
      var q := p[..|p| - 1];
      PrefixNotAfter(w, q, k);
      assert q[..k] == p[..k];
      assert NotAfter(w, q, p);
      NotAfterTransitive(w, p[..k], q, p);
    }
  }

  /** What the search knows between two heap pops. */
  ghost predicate Frontier(adj: Adj, w: Weight, src: Id, done: map<Id, Path>, tent: map<Id, Path>, heap: seq<Path>) {
    && done.Keys <= adj.Keys && tent.Keys <= adj.Keys
    && (forall v :: v in done ==> IsBest(adj, w, src, v, done[v]))
    && (forall v :: v in tent ==> IsWalkFrom(adj, src, v, tent[v]))
    && (forall p :: p in heap ==> |p| > 0 && p[|p| - 1] in adj && IsWalkFrom(adj, src, p[|p| - 1], p))
    && (forall v :: v in tent && v !in done ==> tent[v] in heap)
    && src in tent && (src !in done ==> tent[src] == [src])
  }

  /** Every edge out of a settled node, except those of `cur` still to be scanned, has been relaxed. */
  ghost predicate Relaxed(adj: Adj, w: Weight, done: map<Id, Path>, tent: map<Id, Path>, cur: Id, todo: set<Id>) {
    forall u, v :: u in done && v in Nbrs(adj, u) && v !in done && !(u == cur && v in todo)
      ==> v in tent && NotAfter(w, tent[v], done[u] + [v])
  }

  /** Replacing the first `i` nodes of a walk by the first walk to the same node moves it to the front. */
  lemma BestThenStep(adj: Adj, w: Weight, src: Id, u: Id, p: Path, q: Path, i: nat)
    requires NonNegative(w) && IsBest(adj, w, src, u, p)
    requires IsWalk(adj, q) && q[0] == src && 0 < i < |q| && q[i - 1] == u
    ensures NotAfter(w, p + [q[i]], q)
  {
    var pre := q[..i];
    WalkPrefix(adj, q, i);
    AppendMonotone(w, p, pre, q[i]);
    assert pre + [q[i]] == q[..i + 1];
    PrefixNotAfter(w, q, i + 1);
    NotAfterTransitive(w, p + [q[i]], q[..i + 1], q);
  }

  /** The first walk node that is not settled bounds the whole walk from below by a heap entry. */
  lemma FrontierBounds(adj: Adj, w: Weight, src: Id, done: map<Id, Path>, tent: map<Id, Path>, heap: seq<Path>, cur: Id,
                       q: Path)
    returns (x: Id)
    requires NonNegative(w)
    requires Frontier(adj, w, src, done, tent, heap) && Relaxed(adj, w, done, tent, cur, {})
    requires IsWalk(adj, q) && q[0] == src && q[|q| - 1] !in done
    ensures x in tent && x !in done && tent[x] in heap && NotAfter(w, tent[x], q)
  {
    var i := FirstOutside(q, done.Keys);
    x := q[i];
    if i == 0 {
      PrefixNotAfter(w, q, 1);
      assert q[..1] == [src];
    } else {
      var u := q[i - 1];
      assert q[i - 1 + 1] in Nbrs(adj, u);
      BestThenStep(adj, w, src, u, done[u], q, i);
      NotAfterTransitive(w, tent[x], done[u] + [x], q);
    }
  }

  method PopLeast(w: Weight, heap: seq<Path>) returns (p: Path, rest: seq<Path>)
    requires heap != []
    ensures p in heap && (forall q :: q in heap ==> NotAfter(w, p, q))
    ensures |rest| == |heap| - 1
    ensures forall q :: q in rest ==> q in heap
    ensures forall q :: q in heap ==> q == p || q in rest
  {
    var k := 0;
    for i := 1 to |heap|
      invariant k < i
      invariant forall j :: 0 <= j < i ==> NotAfter(w, heap[k], heap[j])
    {
      BeforeTotal(w, heap[k], heap[i]);
      if Before(w, heap[i], heap[k]) {
        forall j | 0 <= j < i ensures NotAfter(w, heap[i], heap[j]) {
          NotAfterTransitive(w, heap[i], heap[k], heap[j]);
        }
        k := i;
      }
    }
    p, rest := heap[k], heap[..k] + heap[k + 1..];
    assert heap == heap[..k] + [heap[k]] + heap[k + 1..];
  }

  /** Relaxation of the edges out of a node that has just been settled. */
  method Relax(adj: Adj, w: Weight, src: Id, done: map<Id, Path>, tent0: map<Id, Path>, heap0: seq<Path>, cur: Id)
    returns (tent: map<Id, Path>, heap: seq<Path>)
    requires NonNegative(w) && Closed(adj) && cur in done
    requires Frontier(adj, w, src, done, tent0, heap0)
    requires Relaxed(adj, w, done, tent0, cur, Nbrs(adj, cur))
    ensures Frontier(adj, w, src, done, tent, heap) && Relaxed(adj, w, done, tent, cur, {})
  {
    hide Frontier, Relaxed;
    tent, heap := tent0, heap0;
    var nbs := SortedOf(Nbrs(adj, cur));
    ghost var todo := Nbrs(adj, cur);
    for i := 0 to |nbs|
      invariant Frontier(adj, w, src, done, tent, heap)
      invariant Relaxed(adj, w, done, tent, cur, todo)
      invariant forall x :: x in todo ==> x in nbs[i..]
    {
      var nb := nbs[i];
      assert nbs[i..] == [nb] + nbs[i + 1..];
      assert nb in nbs;
      if nb !in done && (nb !in tent || Before(w, done[cur] + [nb], tent[nb])) {
        var cand := done[cur] + [nb];
        FrontierPush(adj, w, src, done, tent, heap, cur, nb);
        RelaxImproves(adj, w, done, tent, cur, nb, todo);
        tent, heap := tent[nb := cand], heap + [cand];
      } else {
        RelaxKeeps(adj, w, done, tent, cur, nb, todo);
      }
      todo := todo - {nb};
    }
    assert todo == {};
  }

  lemma FrontierPush(adj: Adj, w: Weight, src: Id, done: map<Id, Path>, tent: map<Id, Path>, heap: seq<Path>, cur: Id,
                     nb: Id)
    requires NonNegative(w) && Closed(adj) && Frontier(adj, w, src, done, tent, heap)
    requires cur in done && nb in Nbrs(adj, cur) && nb !in done
    requires nb !in tent || Before(w, done[cur] + [nb], tent[nb])
    ensures Frontier(adj, w, src, done, tent[nb := done[cur] + [nb]], heap + [done[cur] + [nb]])
  {
    var cand := done[cur] + [nb];
    assert IsBest(adj, w, src, cur, done[cur]);
    assert IsWalkFrom(adj, src, nb, cand);
    PrefixNotAfter(w, cand, 1);
    assert cand[..1] == [src];
    BeforeTotal(w, [src], cand);
  }

  /** A popped path to a settled node is stale; a popped path to an unsettled node is its first walk. */
  lemma PopSettles(adj: Adj, w: Weight, src: Id, done: map<Id, Path>, tent: map<Id, Path>, heap: seq<Path>, cur: Id,
                   p: Path, rest: seq<Path>)
    requires NonNegative(w)
    requires Frontier(adj, w, src, done, tent, heap) && Relaxed(adj, w, done, tent, cur, {})
    requires p in heap && forall q :: q in heap ==> NotAfter(w, p, q)
    requires forall q :: q in rest ==> q in heap
    requires forall q :: q in heap ==> q == p || q in rest
    ensures |p| > 0 && p[|p| - 1] in adj
    ensures var v := p[|p| - 1];
      if v in done then Frontier(adj, w, src, done, tent, rest)
      else Frontier(adj, w, src, done[v := p], tent, rest)
           && Relaxed(adj, w, done[v := p], tent, v, Nbrs(adj, v))
  {
    var v := p[|p| - 1];
    forall x | x in tent && x !in done[v := p] ensures tent[x] in rest {
      assert IsWalkFrom(adj, src, x, tent[x]);
    }
    if v !in done {
      forall q | IsWalkFrom(adj, src, v, q) ensures NotAfter(w, p, q) {
        var x := FrontierBounds(adj, w, src, done, tent, heap, cur, q);
        NotAfterTransitive(w, p, tent[x], q);
      }
      assert IsBest(adj, w, src, v, p);
    }
  }

  lemma NothingLeft(adj: Adj, w: Weight, src: Id, done: map<Id, Path>, tent: map<Id, Path>, cur: Id, v: Id)
    requires NonNegative(w)
    requires Frontier(adj, w, src, done, tent, []) && Relaxed(adj, w, done, tent, cur, {})
    ensures v in done <==> Reachable(adj, src, v)
    ensures v in done ==> v in adj && IsBest(adj, w, src, v, done[v])
  {
    if q :| v !in done && IsWalkFrom(adj, src, v, q) {
      var x := FrontierBounds(adj, w, src, done, tent, [], cur, q);
    }
  }

  lemma RelaxKeeps(adj: Adj, w: Weight, done: map<Id, Path>, tent: map<Id, Path>, cur: Id, nb: Id, todo: set<Id>)
    requires Relaxed(adj, w, done, tent, cur, todo)
    requires cur in done && nb in Nbrs(adj, cur)
    requires nb in done || (nb in tent && !Before(w, done[cur] + [nb], tent[nb]))
    ensures Relaxed(adj, w, done, tent, cur, todo - {nb})
  {
    if nb !in done {
      BeforeTotal(w, tent[nb], done[cur] + [nb]);
    }
  }

  lemma RelaxImproves(adj: Adj, w: Weight, done: map<Id, Path>, tent: map<Id, Path>, cur: Id, nb: Id, todo: set<Id>)
    requires Relaxed(adj, w, done, tent, cur, todo)
    requires cur in done && nb in Nbrs(adj, cur)
    requires nb !in tent || Before(w, done[cur] + [nb], tent[nb])
    ensures Relaxed(adj, w, done, tent[nb := done[cur] + [nb]], cur, todo - {nb})
  {
    var tent' := tent[nb := done[cur] + [nb]];
    forall u, v | u in done && v in Nbrs(adj, u) && v !in done && !(u == cur && v in todo - {nb})
      ensures v in tent' && NotAfter(w, tent'[v], done[u] + [v])
    {
      if v == nb && u != cur {
        NotAfterTransitive(w, tent'[v], tent[v], done[u] + [v]);
      }
    }
  }

  /**
   Settles every node reachable from `src`, each with its first walk.
   */
  method Search(adj: Adj, src: Id, w: Weight) returns (done: map<Id, Path>)
    requires NonNegative(w) && Closed(adj) && src in adj
    ensures forall v :: v in done ==> v in adj && IsBest(adj, w, src, v, done[v])
    ensures forall v :: v in done <==> Reachable(adj, src, v)
  {
    hide Frontier, Relaxed, IsBest, NonNegative;
    done := map[];
    var tent := map[src := [src]];
    var heap := [[src]];
    ghost var cur := src;
    SearchStart(adj, w, src);
    while heap != []
      invariant Frontier(adj, w, src, done, tent, heap)
      invariant Relaxed(adj, w, done, tent, cur, {})
      decreases adj.Keys - done.Keys, |heap|
    {
      var p, rest := PopLeast(w, heap);
      PopSettles(adj, w, src, done, tent, heap, cur, p, rest);
      var v := p[|p| - 1];
      if v in done {
        heap := rest;
      } else {
        cur, done := v, done[v := p];
        tent, heap := Relax(adj, w, src, done, tent, rest, v);
      }
    }
    forall v ensures v in done <==> Reachable(adj, src, v)
      ensures v in done ==> v in adj && IsBest(adj, w, src, v, done[v])
    {
      NothingLeft(adj, w, src, done, tent, cur, v);
    }
  }

  lemma SearchStart(adj: Adj, w: Weight, src: Id)
    requires src in adj
    ensures Frontier(adj, w, src, map[], map[src := [src]], [[src]])
    ensures Relaxed(adj, w, map[], map[src := [src]], src, {})
  {
  }
}
