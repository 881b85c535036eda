/** Breadth-first search for the first target, with the guarantee that it is a nearest one. */
module Bfs {
  import opened Types
  import opened Order
  import Graphs

  /** Successor lists in scan order; a node without an entry has no successors. */
  type Successors = map<Id, seq<Id>>

  function Next(next: Successors, u: Id): seq<Id> {
    if u in next then next[u] else []
  }

  ghost predicate IsRoute(starts: seq<Id>, next: Successors, p: Path) {
    |p| > 0 && p[0] in starts && forall i :: 0 <= i < |p| - 1 ==> p[i + 1] in Next(next, p[i])
  }

  ghost predicate IsRouteTo(starts: seq<Id>, next: Successors, p: Path, v: Id) {
    IsRoute(starts, next, p) && p[|p| - 1] == v
  }

  /** `v` is a target, and no target is fewer hops away. */
  ghost predicate IsNearest(starts: seq<Id>, next: Successors, targets: set<Id>, v: Id) {
    v in targets && exists p :: IsRouteTo(starts, next, p, v) && NoneShorter(starts, next, targets, p)
  }

  ghost predicate NoneShorter(starts: seq<Id>, next: Successors, targets: set<Id>, p: Path) {
    forall q, w :: w in targets && IsRouteTo(starts, next, q, w) ==> |p| <= |q|
  }

  ghost predicate Unreachable(starts: seq<Id>, next: Successors, targets: set<Id>) {
    forall q, w :: w in targets ==> !IsRouteTo(starts, next, q, w)
  }

  ghost predicate Closed(starts: seq<Id>, next: Successors, universe: set<Id>) {
    (forall x :: x in starts ==> x in universe) && forall u, v :: u in next && v in next[u] ==> v in universe
  }

  /** The search state: `path` has a route to every discovered node, `done` are the dequeued ones. */
  ghost predicate Searching(starts: seq<Id>, next: Successors, targets: set<Id>, universe: set<Id>,
                            path: map<Id, Path>, done: set<Id>, queue: seq<Id>, cur: Id, todo: set<Id>) {
    && path.Keys <= universe && done !! targets
    && (forall v :: v in path <==> v in done || v in queue)
    && (forall v :: v in path ==> IsRouteTo(starts, next, path[v], v))
    && (forall x :: x in starts ==> x in path && |path[x]| == 1)
    && (forall u, v :: u in done && v in Next(next, u) && !(u == cur && v in todo) ==>
      v in path && |path[v]| <= |path[u]| + 1)
  }

  /** The queue is ordered by distance, at most one apart, and never behind what was dequeued. */
  ghost predicate Levelled(path: map<Id, Path>, done: set<Id>, queue: seq<Id>, level: nat) {
    && (forall x :: x in queue ==> x in path && level <= |path[x]| <= level + 1)
    && (forall i, j :: 0 <= i < j < |queue| ==>
      queue[i] in path && queue[j] in path && |path[queue[i]]| <= |path[queue[j]]|)
    && (forall u :: u in done ==> u in path && |path[u]| <= level)
  }

  lemma {:induction false} RouteInside(starts: seq<Id>, next: Successors, targets: set<Id>, universe: set<Id>,
                                       path: map<Id, Path>, done: set<Id>, queue: seq<Id>, cur: Id, q: Path, k: nat)
    requires Searching(starts, next, targets, universe, path, done, queue, cur, {})
    requires IsRoute(starts, next, q) && k < |q| && forall i :: 0 <= i < k ==> q[i] in done
    ensures q[k] in path && |path[q[k]]| <= k + 1
  {
    hide Next, IsRouteTo;
    if k > 0 {
      RouteInside(starts, next, targets, universe, path, done, queue, cur, q, k - 1);
      assert q[k - 1 + 1] in Next(next, q[k - 1]);
    }
  }

  /** Any route to a target leaves the dequeued nodes through the queue. */
  lemma QueueBounds(starts: seq<Id>, next: Successors, targets: set<Id>, universe: set<Id>,
                    path: map<Id, Path>, done: set<Id>, queue: seq<Id>, cur: Id, q: Path, w: Id) returns (x: Id)
    requires Searching(starts, next, targets, universe, path, done, queue, cur, {})
    requires w in targets && IsRouteTo(starts, next, q, w)
    ensures x in queue && x in path && |path[x]| <= |q|
  {
    assert q[|q| - 1] !in done;
    var i := Graphs.FirstOutside(q, done);
    RouteInside(starts, next, targets, universe, path, done, queue, cur, q, i);
    x := q[i];
  }

  lemma PopNearest(starts: seq<Id>, next: Successors, targets: set<Id>, universe: set<Id>,
                   path: map<Id, Path>, done: set<Id>, queue: seq<Id>, cur: Id, level: nat)
    requires Searching(starts, next, targets, universe, path, done, queue, cur, {})
    requires Levelled(path, done, queue, level)
    requires queue != [] && queue[0] in targets
    ensures IsNearest(starts, next, targets, queue[0])
  {
    assert queue[0] in queue;
    var p := path[queue[0]];
    forall q, w | w in targets && IsRouteTo(starts, next, q, w) ensures |p| <= |q| {
      var x := QueueBounds(starts, next, targets, universe, path, done, queue, cur, q, w);
      var k :| 0 <= k < |queue| && queue[k] == x;
      assert k == 0 || |path[queue[0]]| <= |path[queue[k]]|;
    }
  }

  lemma NothingFound(starts: seq<Id>, next: Successors, targets: set<Id>, universe: set<Id>, path: map<Id, Path>,
                     done: set<Id>, cur: Id)
    requires Searching(starts, next, targets, universe, path, done, [], cur, {})
    ensures Unreachable(starts, next, targets)
  {
    forall q, w | w in targets ensures !IsRouteTo(starts, next, q, w) {
      if IsRouteTo(starts, next, q, w) {
        var x := QueueBounds(starts, next, targets, universe, path, done, [], cur, q, w);
      }
    }
  }

  lemma PopOther(starts: seq<Id>, next: Successors, targets: set<Id>, universe: set<Id>,
                 path: map<Id, Path>, done: set<Id>, queue: seq<Id>, cur: Id)
    requires Searching(starts, next, targets, universe, path, done, queue, cur, {})
    requires queue != [] && queue[0] !in targets
    ensures Searching(starts, next, targets, universe, path, done + {queue[0]}, queue[1..], queue[0],
      set v | v in Next(next, queue[0]))
  {
    hide IsRouteTo, Next;
    assert forall x :: x in queue <==> x == queue[0] || x in queue[1..];
  }

  lemma PopLevel(path: map<Id, Path>, done: set<Id>, queue: seq<Id>, level: nat)
    requires Levelled(path, done, queue, level) && queue != []
    ensures queue[0] in path && Levelled(path, done + {queue[0]}, queue[1..], |path[queue[0]]|)
  {
    assert queue[0] in queue;
    var level' := |path[queue[0]]|;
    forall x | x in queue[1..] ensures x in path && level' <= |path[x]| <= level' + 1 {
      var k :| 0 <= k < |queue[1..]| && queue[1..][k] == x;
      assert queue[k + 1] == x && x in queue;
    }
  }

  lemma PushNew(starts: seq<Id>, next: Successors, targets: set<Id>, universe: set<Id>,
                path: map<Id, Path>, done: set<Id>, queue: seq<Id>, cur: Id, todo: set<Id>, v: Id)
    requires Closed(starts, next, universe)
    requires Searching(starts, next, targets, universe, path, done, queue, cur, todo) && cur in done
    requires v in Next(next, cur) && v !in path
    ensures cur in path
    ensures Searching(starts, next, targets, universe, path[v := path[cur] + [v]], done, queue + [v], cur, todo - {v})
  {
    RouteExtends(starts, next, path[cur], cur, v);
    PushRoute(starts, next, targets, universe, path, done, queue, cur, todo, v, path[cur] + [v], queue + [v]);
  }

  lemma PushRoute(starts: seq<Id>, next: Successors, targets: set<Id>, universe: set<Id>,
                  path: map<Id, Path>, done: set<Id>, queue: seq<Id>, cur: Id, todo: set<Id>, v: Id, p: Path,
                    queue': seq<Id>)
    requires Searching(starts, next, targets, universe, path, done, queue, cur, todo) && cur in path
    requires v in universe && v !in path && IsRouteTo(starts, next, p, v) && |p| == |path[cur]| + 1
    requires forall x :: x in queue' <==> x in queue || x == v
    ensures Searching(starts, next, targets, universe, path[v := p], done, queue', cur, todo - {v})
  {
    hide IsRouteTo, Next;
  }

  lemma RouteExtends(starts: seq<Id>, next: Successors, p: Path, u: Id, v: Id)
    requires IsRouteTo(starts, next, p, u) && v in Next(next, u)
    ensures IsRouteTo(starts, next, p + [v], v)
  {
    forall i | 0 <= i < |p| ensures (p + [v])[i + 1] in Next(next, (p + [v])[i]) {
      if i < |p| - 1 { assert p[i + 1] in Next(next, p[i]); }
    }
  }

  lemma PushLevel(path: map<Id, Path>, done: set<Id>, queue: seq<Id>, cur: Id, v: Id)
    requires cur in path && Levelled(path, done, queue, |path[cur]|) && v !in path
    ensures Levelled(path[v := path[cur] + [v]], done, queue + [v], |path[cur]|)
  {
  }

  lemma SkipSeen(starts: seq<Id>, next: Successors, targets: set<Id>, universe: set<Id>,
                 path: map<Id, Path>, done: set<Id>, queue: seq<Id>, cur: Id, todo: set<Id>, v: Id)
    requires Searching(starts, next, targets, universe, path, done, queue, cur, todo) && cur in done
    requires cur in path && Levelled(path, done, queue, |path[cur]|)
    requires v in path
    ensures Searching(starts, next, targets, universe, path, done, queue, cur, todo - {v})
  {
    hide IsRouteTo, Next;
  }

  lemma SearchStarts(starts: seq<Id>, next: Successors, targets: set<Id>, universe: set<Id>)
    requires Closed(starts, next, universe)
    ensures var path := map x | x in starts :: [x];
      Searching(starts, next, targets, universe, path, {}, starts, "", {}) && Levelled(path, {}, starts, 1)
  {
  }

  lemma SearchBounded(starts: seq<Id>, next: Successors, targets: set<Id>, universe: set<Id>,
                      path: map<Id, Path>, done: set<Id>, queue: seq<Id>, cur: Id, todo: set<Id>)
    requires Searching(starts, next, targets, universe, path, done, queue, cur, todo)
    ensures path.Keys <= universe
  {
  }

  /** `visited` is marked when a node is enqueued, as in the tracers. */
  method FirstReached(starts: seq<Id>, next: Successors, targets: set<Id>, ghost universe: set<Id>)
    returns (r: Option<Id>)
    requires Closed(starts, next, universe)
    ensures r.Some? ==> IsNearest(starts, next, targets, r.value)
    ensures r.None? ==> Unreachable(starts, next, targets)
  {
    hide *;
    var queue := starts;
    ghost var path := map x | x in starts :: [x];
    var visited := set x | x in starts;
    ghost var done: set<Id>, cur: Id, level: nat := {}, "", 1;
    SearchStarts(starts, next, targets, universe);
    while queue != []
      invariant visited == path.Keys
      invariant Searching(starts, next, targets, universe, path, done, queue, cur, {})
      invariant Levelled(path, done, queue, level)
      decreases universe - visited, |queue|
    {
      var node := queue[0];
      if node in targets {
        PopNearest(starts, next, targets, universe, path, done, queue, cur, level);
        return Some(node);
      }
      PopOther(starts, next, targets, universe, path, done, queue, cur);
      PopLevel(path, done, queue, level);
      queue, done, cur, level := queue[1..], done + {node}, node, |path[node]|;
      var succ := Next(next, node);
      ghost var v0, n0 := visited, |queue|;
      ghost var todo := set v | v in succ;
      for i := 0 to |succ|
        invariant visited == path.Keys && cur in path && cur in done && level == |path[cur]|
        invariant Searching(starts, next, targets, universe, path, done, queue, cur, todo)
        invariant Levelled(path, done, queue, level)
        invariant forall x :: x in todo ==> x in succ[i..]
        invariant v0 <= visited && (visited == v0 ==> |queue| == n0)
      {
        var v := succ[i];
        assert succ[i..] == [v] + succ[i + 1..];
        if v !in visited {
          PushNew(starts, next, targets, universe, path, done, queue, cur, todo, v);
          PushLevel(path, done, queue, cur, v);
          path := path[v := path[cur] + [v]];
          visited, queue := visited + {v}, queue + [v];
        } else {
          SkipSeen(starts, next, targets, universe, path, done, queue, cur, todo, v);
        }
        todo := todo - {v};
      }
      assert todo == {};
      SearchBounded(starts, next, targets, universe, path, done, queue, cur, todo);
    }
    NothingFound(starts, next, targets, universe, path, done, cur);
    r := None;
  }
}
