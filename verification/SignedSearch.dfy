/**
 Dijkstra without the assumption of non-negative weights, as the graph library runs it: a shorter way to
 a node that is already settled ends the search with an error.
 */
module SignedSearch {
  import opened Types
  import opened Order
  import opened Graphs
  import opened Dijkstra

  /** No walk between the same ends costs less. */
  ghost predicate IsCheapest(adj: Adj, w: Weight, src: Id, dst: Id, p: Path) {
    IsWalkFrom(adj, src, dst, p) && forall q :: IsWalkFrom(adj, src, dst, q) ==> Cost(w, p) <= Cost(w, q)
  }

  /** What the search knows between two heap pops, except costs. */
  ghost predicate Walks(adj: Adj, src: Id, done: map<Id, Path>, tent: map<Id, Path>, heap: seq<Path>) {
    && done.Keys <= adj.Keys && tent.Keys <= adj.Keys
    && (forall v :: v in done ==> IsWalkFrom(adj, src, v, done[v]))
    && (forall v :: v in tent ==> IsWalkFrom(adj, src, v, tent[v]))
    && (forall p :: p in heap ==> |p| > 0 && p[|p| - 1] in adj && IsWalkFrom(adj, src, p[|p| - 1], p))
    && (forall v :: v in tent && v !in done ==> tent[v] in heap)
    && (if done == map[] then heap == [[src]] && tent == map[src := [src]] else src in done && done[src] == [src])
  }

  /** The least cost known for a node: settled or tentative. */
  ghost predicate Known(w: Weight, done: map<Id, Path>, tent: map<Id, Path>, v: Id, c: real) {
    if v in done then Cost(w, done[v]) <= c else v in tent && Cost(w, tent[v]) <= c
  }

  /** No scanned edge leads more cheaply to its end than what is known there. */
  ghost predicate Settled(adj: Adj, w: Weight, done: map<Id, Path>, tent: map<Id, Path>, cur: Id, todo: set<Id>) {
    forall u, v :: u in done && v in Nbrs(adj, u) && !(u == cur && v in todo) ==>
      Known(w, done, tent, v, Cost(w, done[u]) + w(u, v))
  }

  /** Nodes are settled in order of cost, as long as no weight is negative. */
  ghost predicate InOrder(w: Weight, done: map<Id, Path>, heap: seq<Path>, cur: Id) {
    NonNegative(w) && cur in done ==>
      && (forall x :: x in done ==> Cost(w, done[x]) <= Cost(w, done[cur]))
      && (forall p :: p in heap ==> Cost(w, done[cur]) <= Cost(w, p))
  }

  lemma StepCost(w: Weight, p: Path, x: Id)
    requires |p| > 0
    ensures Cost(w, p + [x]) == Cost(w, p) + w(p[|p| - 1], x)
  {
    assert (p + [x])[..|p|] == p;
  }

  lemma StartSearch(adj: Adj, w: Weight, src: Id)
    requires src in adj
    ensures Walks(adj, src, map[], map[src := [src]], [[src]])
    ensures Settled(adj, w, map[], map[src := [src]], src, {}) && InOrder(w, map[], [[src]], src)
  {
  }

  lemma PopStale(adj: Adj, w: Weight, src: Id, done: map<Id, Path>, tent: map<Id, Path>, heap: seq<Path>, cur: Id,
                 p: Path, rest: seq<Path>)
    requires Walks(adj, src, done, tent, heap) && InOrder(w, done, heap, cur)
    requires p in heap && p[|p| - 1] in done
    requires forall q :: q in rest ==> q in heap
    requires forall q :: q in heap ==> q == p || q in rest
    ensures Walks(adj, src, done, tent, rest) && InOrder(w, done, rest, cur)
  {
    hide IsWalk;
    forall v | v in tent && v !in done ensures tent[v] in rest {
      assert IsWalkFrom(adj, src, v, tent[v]);
    }
  }

  lemma PopSettles(adj: Adj, w: Weight, src: Id, done: map<Id, Path>, tent: map<Id, Path>, heap: seq<Path>, cur: Id,
                   p: Path, rest: seq<Path>)
    requires Walks(adj, src, done, tent, heap) && InOrder(w, done, heap, cur) && (done != map[] ==> cur in done)
    requires p in heap && p[|p| - 1] !in done && forall q :: q in heap ==> NotAfter(w, p, q)
    requires forall q :: q in rest ==> q in heap
    requires forall q :: q in heap ==> q == p || q in rest
    ensures var v := p[|p| - 1]; Walks(adj, src, done[v := p], tent, rest) && InOrder(w, done[v := p], rest, v)
  {
    hide IsWalk, Before, LexLt;
    var v := p[|p| - 1];
    forall x | x in tent && x !in done[v := p] ensures tent[x] in rest {
      assert IsWalkFrom(adj, src, x, tent[x]);
    }
    forall q | q in heap ensures Cost(w, p) <= Cost(w, q) {
      LeastCost(w, p, q);
    }
    assert done[v := p] != map[] by { assert v in done[v := p]; }
    if done == map[] {
      assert p == [src];
    }
  }

  lemma LeastCost(w: Weight, p: Path, q: Path)
    requires NotAfter(w, p, q)
    ensures Cost(w, p) <= Cost(w, q)
  {
  }

  lemma PopRelaxes(adj: Adj, w: Weight, src: Id, done: map<Id, Path>, tent: map<Id, Path>, heap: seq<Path>, cur: Id,
                   p: Path)
    requires Walks(adj, src, done, tent, heap) && Settled(adj, w, done, tent, cur, {})
    requires p in heap && p[|p| - 1] !in done && forall q :: q in heap ==> NotAfter(w, p, q)
    ensures var v := p[|p| - 1]; Settled(adj, w, done[v := p], tent, v, Nbrs(adj, v))
  {
    var x := p[|p| - 1];
    if x in tent {
      LeastCost(w, p, tent[x]);
    }
    hide Walks, NotAfter, Nbrs, Cost;
  }

  /** One scanned edge: a contradiction is found, or the edge is accounted for. */
  lemma ScanKeeps(adj: Adj, w: Weight, src: Id, done: map<Id, Path>, tent: map<Id, Path>, cur: Id, nb: Id,
                  todo: set<Id>)
    requires Settled(adj, w, done, tent, cur, todo) && cur in done
    requires Known(w, done, tent, nb, Cost(w, done[cur]) + w(cur, nb))
    ensures Settled(adj, w, done, tent, cur, todo - {nb})
  {
    hide Known, Nbrs, Cost;
  }

  lemma ScanPushes(adj: Adj, w: Weight, src: Id, done: map<Id, Path>, tent: map<Id, Path>, heap: seq<Path>, cur: Id,
                   nb: Id, todo: set<Id>)
    requires Closed(adj) && Walks(adj, src, done, tent, heap) && Settled(adj, w, done, tent, cur, todo)
    requires InOrder(w, done, heap, cur)
    requires cur in done && nb in Nbrs(adj, cur) && nb !in done
    requires nb in tent ==> Cost(w, done[cur] + [nb]) < Cost(w, tent[nb])
    ensures var cand := done[cur] + [nb];
      && Walks(adj, src, done, tent[nb := cand], heap + [cand])
      && Settled(adj, w, done, tent[nb := cand], cur, todo - {nb})
      && InOrder(w, done, heap + [cand], cur)
  {
    var cand := done[cur] + [nb];
    StepCost(w, done[cur], nb);
    assert IsWalkFrom(adj, src, cur, done[cur]);
    assert IsWalkFrom(adj, src, nb, cand);
    PushWalk(adj, src, done, tent, heap, nb, cand);
    hide Walks, IsWalk, Cost;
    PushSettles(adj, w, done, tent, cur, nb, todo, cand);
  }

  lemma PushWalk(adj: Adj, src: Id, done: map<Id, Path>, tent: map<Id, Path>, heap: seq<Path>, nb: Id, cand: Path)
    requires Walks(adj, src, done, tent, heap) && nb in adj && nb !in done && done != map[] && |cand| > 0
    requires IsWalkFrom(adj, src, nb, cand)
    ensures Walks(adj, src, done, tent[nb := cand], heap + [cand])
  {
    hide IsWalk;
  }

  lemma PushSettles(adj: Adj, w: Weight, done: map<Id, Path>, tent: map<Id, Path>, cur: Id, nb: Id, todo: set<Id>,
                    cand: Path)
    requires Settled(adj, w, done, tent, cur, todo) && cur in done && nb !in done
    requires Cost(w, cand) == Cost(w, done[cur]) + w(cur, nb) && (nb in tent ==> Cost(w, cand) < Cost(w, tent[nb]))
    ensures Settled(adj, w, done, tent[nb := cand], cur, todo - {nb})
  {
    hide Nbrs, Cost;
    forall u, v | u in done && v in Nbrs(adj, u) && !(u == cur && v in todo - {nb})
      ensures Known(w, done, tent[nb := cand], v, Cost(w, done[u]) + w(u, v))
    {
      if !(u == cur && v in todo) {
        assert Known(w, done, tent, v, Cost(w, done[u]) + w(u, v));
      }
    }
  }

  /** A contradiction needs a negative weight. */
  lemma ContradictionIsNegative(w: Weight, done: map<Id, Path>, heap: seq<Path>, cur: Id, nb: Id)
    requires InOrder(w, done, heap, cur) && cur in done && nb in done && |done[cur]| > 0
    requires Cost(w, done[cur] + [nb]) < Cost(w, done[nb])
    ensures !NonNegative(w)
  {
    StepCost(w, done[cur], nb);
  }

  /** The edges out of the node settled last; `ok` is false when a contradiction was found. */
  method Scan(adj: Adj, w: Weight, src: Id, done: map<Id, Path>, tent0: map<Id, Path>, heap0: seq<Path>, cur: Id)
    returns (ok: bool, tent: map<Id, Path>, heap: seq<Path>)
    requires Closed(adj) && cur in done && Walks(adj, src, done, tent0, heap0)
    requires Settled(adj, w, done, tent0, cur, Nbrs(adj, cur)) && InOrder(w, done, heap0, cur)
    ensures !ok ==> !NonNegative(w)
    ensures ok ==>
      Walks(adj, src, done, tent, heap) && Settled(adj, w, done, tent, cur, {}) && InOrder(w, done, heap, cur)
  {
    EndsAtNode(adj, src, done, tent0, heap0, cur);
    hide Walks, Settled, InOrder, NonNegative, Nbrs, Closed, Cost;
    ok, tent, heap := true, tent0, heap0;
    var nbs := SortedOf(Nbrs(adj, cur));
    ghost var todo := Nbrs(adj, cur);
    for i := 0 to |nbs|
      invariant Walks(adj, src, done, tent, heap) && Settled(adj, w, done, tent, cur, todo)
      invariant InOrder(w, done, heap, cur)
      invariant forall x :: x in todo ==> x in nbs[i..]
    {
      var nb := nbs[i];
      assert nbs[i..] == [nb] + nbs[i + 1..];
      assert nb in nbs;
      var cand := done[cur] + [nb];
      StepCost(w, done[cur], nb);
      if nb in done {
        if Cost(w, cand) < Cost(w, done[nb]) {
          ContradictionIsNegative(w, done, heap, cur, nb);
          return false, tent, heap;
        }
        ScanKeeps(adj, w, src, done, tent, cur, nb, todo);
      } else if nb !in tent || Cost(w, cand) < Cost(w, tent[nb]) {
        ScanPushes(adj, w, src, done, tent, heap, cur, nb, todo);
        tent, heap := tent[nb := cand], heap + [cand];
      } else {
        ScanKeeps(adj, w, src, done, tent, cur, nb, todo);
      }
      todo := todo - {nb};
    }
    assert todo == {};
  }

  lemma EndsAtNode(adj: Adj, src: Id, done: map<Id, Path>, tent: map<Id, Path>, heap: seq<Path>, cur: Id)
    requires Walks(adj, src, done, tent, heap) && cur in done
    ensures |done[cur]| > 0 && done[cur][|done[cur]| - 1] == cur
  {
    assert IsWalkFrom(adj, src, cur, done[cur]);
  }

  /** With nothing left to scan, settled costs bound the cost of every walk. */
  lemma {:induction false} WalkBounded(adj: Adj, w: Weight, src: Id, done: map<Id, Path>, tent: map<Id, Path>, cur: Id,
                                       q: Path)
    requires Walks(adj, src, done, tent, []) && Settled(adj, w, done, tent, cur, {}) && done != map[]
    requires IsWalk(adj, q) && q[0] == src
    ensures q[|q| - 1] in done && Cost(w, done[q[|q| - 1]]) <= Cost(w, q)
    decreases |q|
  {
    hide Walks, Settled;
    var n := |q| - 1;
    if n == 0 {
      SourceIsFree(adj, w, src, done, tent);
    } else {
      WalkPrefix(adj, q, n);
      WalkBounded(adj, w, src, done, tent, cur, q[..n]);
      assert q[n - 1 + 1] in Nbrs(adj, q[n - 1]);
      EdgeBounded(adj, w, src, done, tent, cur, q[n - 1], q[n]);
    }
  }

  lemma SourceIsFree(adj: Adj, w: Weight, src: Id, done: map<Id, Path>, tent: map<Id, Path>)
    requires Walks(adj, src, done, tent, []) && done != map[]
    ensures src in done && Cost(w, done[src]) == 0.0
  {
  }

  lemma EdgeBounded(adj: Adj, w: Weight, src: Id, done: map<Id, Path>, tent: map<Id, Path>, cur: Id, u: Id, v: Id)
    requires Walks(adj, src, done, tent, []) && Settled(adj, w, done, tent, cur, {}) && u in done && v in Nbrs(adj, u)
    ensures v in done && Cost(w, done[v]) <= Cost(w, done[u]) + w(u, v)
  {
    hide Nbrs, Cost;
    assert Known(w, done, tent, v, Cost(w, done[u]) + w(u, v));
  }

  lemma SearchDone(adj: Adj, w: Weight, src: Id, done: map<Id, Path>, tent: map<Id, Path>, cur: Id, v: Id)
    requires Walks(adj, src, done, tent, []) && Settled(adj, w, done, tent, cur, {}) && done != map[]
    ensures v in done <==> Reachable(adj, src, v)
    ensures v in done ==> IsCheapest(adj, w, src, v, done[v])
  {
    hide Settled;
    forall q | IsWalkFrom(adj, src, v, q) ensures v in done && Cost(w, done[v]) <= Cost(w, q) {
      WalkBounded(adj, w, src, done, tent, cur, q);
    }
    if v in done {
      assert IsWalkFrom(adj, src, v, done[v]);
    }
    hide Walks, IsWalkFrom, Cost;
  }

  /** Settles every reachable node with a cheapest walk, or fails, which takes a negative weight. */
  method Search(adj: Adj, src: Id, w: Weight) returns (r: Option<map<Id, Path>>)
    requires Closed(adj) && src in adj
    ensures r.None? ==> !NonNegative(w)
    ensures r.Some? ==> forall v :: v in r.value <==> Reachable(adj, src, v)
    ensures r.Some? ==> forall v :: v in r.value ==> IsCheapest(adj, w, src, v, r.value[v])
  {
    hide Walks, Settled, InOrder, NonNegative, IsCheapest, Closed;
    var done: map<Id, Path>, tent, heap := map[], map[src := [src]], [[src]];
    ghost var cur := src;
    StartSearch(adj, w, src);
    while heap != []
      invariant Walks(adj, src, done, tent, heap) && Settled(adj, w, done, tent, cur, {}) && InOrder(w, done, heap, cur)
      invariant done != map[] ==> cur in done
      invariant done == map[] ==> heap != []
      decreases adj.Keys - done.Keys, |heap|
    {
      var p, rest := PopLeast(w, heap);
      HeapEntry(adj, src, done, tent, heap, p);
      var v := p[|p| - 1];
      if v in done {
        PopStale(adj, w, src, done, tent, heap, cur, p, rest);
        heap := rest;
      } else {
        PopSettles(adj, w, src, done, tent, heap, cur, p, rest);
        PopRelaxes(adj, w, src, done, tent, heap, cur, p);
        cur, done := v, done[v := p];
        assert v in done;
        var ok;
        ok, tent, heap := Scan(adj, w, src, done, tent, rest, v);
        if !ok {
          return None;
        }
      }
    }
    r := Some(done);
    forall v ensures v in done <==> Reachable(adj, src, v)
      ensures v in done ==> IsCheapest(adj, w, src, v, done[v])
    {
      SearchDone(adj, w, src, done, tent, cur, v);
    }
  }

  lemma HeapEntry(adj: Adj, src: Id, done: map<Id, Path>, tent: map<Id, Path>, heap: seq<Path>, p: Path)
    requires Walks(adj, src, done, tent, heap) && p in heap
    ensures |p| > 0 && p[|p| - 1] in adj
  {
  }

  lemma {:induction false} CostSplice(w: Weight, p: Path, q: Path)
    requires |p| > 0 && |q| > 0 && p[|p| - 1] == q[0]
    ensures Cost(w, p + q[1..]) == Cost(w, p) + Cost(w, q)
    decreases |q|
  {
    if |q| == 1 {
      assert p + q[1..] == p;
    } else {
      var n := |q| - 1;
      CostSplice(w, p, q[..n]);
      assert p + q[1..] == p + q[..n][1..] + [q[n]];
      StepCost(w, p + q[..n][1..], q[n]);
      assert (p + q[..n][1..])[|p + q[..n][1..]| - 1] == q[n - 1];
    }
  }

  /** A search that succeeds shows that no reachable loop gains. */
  lemma CheapestMeansNoGain(adj: Adj, w: Weight, src: Id, v: Id, p: Path, loop: Path)
    requires IsCheapest(adj, w, src, v, p) && IsWalkFrom(adj, v, v, loop)
    ensures Cost(w, loop) >= 0.0
  {
    WalkSplice(adj, src, v, v, p, loop);
    CostSplice(w, p, loop);
  }
}
