/**
 Causal chain detection (`detect_causal_chain_python` in backend/services/status_service.py): which devices
 a change can affect, each with a path along which the change got there.
 */
module CausalChain {
  import opened Types
  import opened Order
  import opened Topology
  import opened Bfs

  // ---- The dependency graph ----

  function OwnerIn(t: Topology, i: Id): Option<Id> {
    if i in t.ifaces && t.ifaces[i].device in t.devices && t.ifaces[i].device != "" then Some(t.ifaces[i].device)
      else None
  }

  predicate LinkJoins(t: Topology, id: Id, u: Id, v: Id) {
    && id in t.links && Passable(t, t.links[id])
    && ((OwnerIn(t, t.links[id].a) == Some(u) && OwnerIn(t, t.links[id].b) == Some(v))
        || (OwnerIn(t, t.links[id].a) == Some(v) && OwnerIn(t, t.links[id].b) == Some(u)))
  }

  ghost predicate DepEdge(t: Topology, rows: seq<Id>, u: Id, v: Id) {
    exists id :: id in rows && LinkJoins(t, id, u, v)
  }

  ghost predicate IsDepGraph(t: Topology, rows: seq<Id>, next: Successors) {
    forall u, v :: v in Next(next, u) <==> DepEdge(t, rows, u, v)
  }

  function AddArc(next: Successors, u: Id, v: Id): Successors {
    next[u := Next(next, u) + [v]]
  }

  function AddRow(t: Topology, next: Successors, id: Id): Successors {
    if id !in t.links || !Passable(t, t.links[id]) then next
    else
      var a, b := OwnerIn(t, t.links[id].a), OwnerIn(t, t.links[id].b);
      if a.None? || b.None? then next else AddArc(AddArc(next, a.value, b.value), b.value, a.value)
  }

  lemma RowAdded(t: Topology, next: Successors, id: Id, u: Id, v: Id)
    ensures v in Next(AddRow(t, next, id), u) <==> v in Next(next, u) || LinkJoins(t, id, u, v)
  {
    hide Passable;
  }

  lemma EdgeLast(t: Topology, rows: seq<Id>, id: Id, u: Id, v: Id)
    ensures DepEdge(t, rows + [id], u, v) <==> DepEdge(t, rows, u, v) || LinkJoins(t, id, u, v)
  {
    hide LinkJoins;
    assert forall x :: x in rows + [id] <==> x in rows || x == id;
  }

  /** `_build_dependency_graph_python`: both directions of every passable link, in row order. */
  method BuildDepGraph(t: Topology, rows: seq<Id>) returns (next: Successors)
    ensures IsDepGraph(t, rows, next)
  {
    next := map[];
    assert IsDepGraph(t, rows[..0], next);
    for n := 0 to |rows|
      invariant IsDepGraph(t, rows[..n], next)
    {
      assert rows[..n + 1] == rows[..n] + [rows[n]];
      GraphNext(t, rows[..n], next, rows[n]);
      next := AddRow(t, next, rows[n]);
    }
    assert rows[..|rows|] == rows;
  }

  lemma GraphNext(t: Topology, rows: seq<Id>, next: Successors, id: Id)
    requires IsDepGraph(t, rows, next)
    ensures IsDepGraph(t, rows + [id], AddRow(t, next, id))
  {
    hide AddRow, DepEdge, LinkJoins, Next;
    forall u, v ensures v in Next(AddRow(t, next, id), u) <==> DepEdge(t, rows + [id], u, v) {
      RowAdded(t, next, id, u, v);
      EdgeLast(t, rows, id, u, v);
    }
  }

  // ---- What a change affects ----

  /** `_is_device_up_candidate_python`: any override stops propagation, unlike in the flood. */
  predicate Spreads(t: Topology, d: Id) {
    d in t.devices && t.devices[d].override.None? &&
      (DeriveRole(t.devices[d].kind) == ACTIVE ==> t.devices[d].provisioned)
  }

  predicate Arc(t: Topology, next: Successors, u: Id, v: Id) {
    Spreads(t, u) && v in Next(next, u)
  }

  /** Contains the changed devices and everything downstream of its spreading members. */
  ghost predicate ChainClosed(t: Topology, next: Successors, changed: seq<Id>, s: set<Id>) {
    (forall d :: d in changed ==> d in s) && forall u, v :: u in s && Arc(t, next, u, v) ==> v in s
  }

  ghost predicate IsAffected(t: Topology, next: Successors, changed: seq<Id>, s: set<Id>) {
    ChainClosed(t, next, changed, s) && forall r :: ChainClosed(t, next, changed, r) ==> s <= r
  }

  /** A way from a changed device to `d` on which every device but the last spreads, and none occurs twice. */
  ghost predicate IsCausalPath(t: Topology, next: Successors, changed: seq<Id>, d: Id, p: Path) {
    && |p| > 0 && p[0] in changed && p[|p| - 1] == d && NoDuplicates(p)
    && forall i :: 0 <= i < |p| - 1 ==> Arc(t, next, p[i], p[i + 1])
  }

  /** The interior of a path lies in `s`. */
  predicate Through(p: Path, s: set<Id>) {
    forall i :: 0 <= i < |p| - 1 ==> p[i] in s
  }

  /** The loop: `visited` is final, `queue` may repeat, and every seen device has a path through visited ones. */
  ghost predicate Chasing(t: Topology, next: Successors, changed: seq<Id>, visited: set<Id>, queue: seq<Id>,
                          paths: map<Id, Path>, cur: Id, todo: set<Id>) {
    && (forall d :: d in paths <==> d in visited || d in queue)
    && (forall d :: d in paths ==> IsCausalPath(t, next, changed, d, paths[d]) && Through(paths[d], visited))
    && (forall d :: d in changed ==> d in paths)
    && (forall r :: ChainClosed(t, next, changed, r) ==> paths.Keys <= r)
    && (forall u, v :: u in visited && Arc(t, next, u, v) && !(u == cur && v in todo) ==> v in paths)
  }

  lemma ChaseStart(t: Topology, next: Successors, changed: seq<Id>)
    ensures Chasing(t, next, changed, {}, changed, map d | d in changed :: [d], "", {})
  {
  }

  lemma PopStale(t: Topology, next: Successors, changed: seq<Id>, visited: set<Id>, queue: seq<Id>,
                 paths: map<Id, Path>, cur: Id)
    requires Chasing(t, next, changed, visited, queue, paths, cur, {}) && queue != [] && queue[0] in visited
    ensures Chasing(t, next, changed, visited, queue[1..], paths, cur, {})
  {
    hide IsCausalPath, Through, Arc, ChainClosed;
    assert forall x :: x in queue <==> x == queue[0] || x in queue[1..];
  }

  lemma PopNew(t: Topology, next: Successors, changed: seq<Id>, visited: set<Id>, queue: seq<Id>, paths: map<Id, Path>,
               cur: Id)
    requires Chasing(t, next, changed, visited, queue, paths, cur, {}) && queue != []
    ensures Chasing(t, next, changed, visited + {queue[0]}, queue[1..], paths, queue[0],
      set v | v in Next(next, queue[0]))
    ensures !Spreads(t, queue[0]) ==> Chasing(t, next, changed, visited + {queue[0]}, queue[1..], paths, queue[0], {})
  {
    hide IsCausalPath, ChainClosed, Next;
    assert forall x :: x in queue <==> x == queue[0] || x in queue[1..];
    assert forall v :: Arc(t, next, queue[0], v) ==> v in (set v | v in Next(next, queue[0]));
  }

  lemma PathExtends(t: Topology, next: Successors, changed: seq<Id>, visited: set<Id>, u: Id, p: Path, v: Id)
    requires IsCausalPath(t, next, changed, u, p) && Through(p, visited) && u in visited && v !in visited
    requires Arc(t, next, u, v)
    ensures IsCausalPath(t, next, changed, v, p + [v]) && Through(p + [v], visited)
  {
    hide Arc;
    forall i | 0 <= i < |p| ensures Arc(t, next, (p + [v])[i], (p + [v])[i + 1]) && p[i] in visited {
      if i < |p| - 1 { assert Arc(t, next, p[i], p[i + 1]); }
    }
  }

  /** A device that is not yet visited is enqueued again, and its path is overwritten. */
  lemma PushAgain(t: Topology, next: Successors, changed: seq<Id>, visited: set<Id>, queue: seq<Id>,
                  paths: map<Id, Path>, cur: Id, todo: set<Id>, v: Id)
    requires Chasing(t, next, changed, visited, queue, paths, cur, todo) && cur in visited && v !in visited
    requires Arc(t, next, cur, v)
    ensures cur in paths
    ensures Chasing(t, next, changed, visited, queue + [v], paths[v := paths[cur] + [v]], cur, todo - {v})
  {
    hide IsCausalPath, Through, Arc, ChainClosed;
    PathExtends(t, next, changed, visited, cur, paths[cur], v);
    forall r | ChainClosed(t, next, changed, r) ensures v in r {
      StaysClosed(t, next, changed, r, paths.Keys, cur, v);
    }
    var p, queue' := paths[cur] + [v], queue + [v];
    assert forall x :: x in queue' <==> x in queue || x == v;
    PushPath(t, next, changed, visited, queue, paths, cur, todo, v, p, queue');
  }

  lemma StaysClosed(t: Topology, next: Successors, changed: seq<Id>, r: set<Id>, seen: set<Id>, u: Id, v: Id)
    requires ChainClosed(t, next, changed, r) && seen <= r && u in seen && Arc(t, next, u, v)
    ensures v in r
  {
  }

  lemma PushPath(t: Topology, next: Successors, changed: seq<Id>, visited: set<Id>, queue: seq<Id>,
                 paths: map<Id, Path>, cur: Id, todo: set<Id>, v: Id, p: Path, queue': seq<Id>)
    requires Chasing(t, next, changed, visited, queue, paths, cur, todo)
    requires IsCausalPath(t, next, changed, v, p) && Through(p, visited)
    requires forall r :: ChainClosed(t, next, changed, r) ==> v in r
    requires forall x :: x in queue' <==> x in queue || x == v
    ensures Chasing(t, next, changed, visited, queue', paths[v := p], cur, todo - {v})
  {
    hide IsCausalPath, Through, Arc, ChainClosed;
  }

  lemma SkipVisited(t: Topology, next: Successors, changed: seq<Id>, visited: set<Id>, queue: seq<Id>,
                    paths: map<Id, Path>, cur: Id, todo: set<Id>, v: Id)
    requires Chasing(t, next, changed, visited, queue, paths, cur, todo) && v in visited
    ensures Chasing(t, next, changed, visited, queue, paths, cur, todo - {v})
  {
    hide IsCausalPath, Through, Arc, ChainClosed;
  }

  lemma ChaseDone(t: Topology, next: Successors, changed: seq<Id>, visited: set<Id>, paths: map<Id, Path>, cur: Id)
    requires Chasing(t, next, changed, visited, [], paths, cur, {})
    ensures IsAffected(t, next, changed, visited) && paths.Keys == visited
    ensures forall d :: d in paths ==> IsCausalPath(t, next, changed, d, paths[d])
  {
    hide IsCausalPath, Through, Arc;
    assert paths.Keys == visited;
  }

  lemma ChaseBound(t: Topology, next: Successors, changed: seq<Id>, visited: set<Id>, queue: seq<Id>,
                   paths: map<Id, Path>, cur: Id, todo: set<Id>, universe: set<Id>)
    requires Chasing(t, next, changed, visited, queue, paths, cur, todo) && Closed(changed, next, universe)
    ensures visited <= universe && forall x :: x in queue ==> x in universe
  {
    assert ChainClosed(t, next, changed, universe);
    hide IsCausalPath, Through, Arc, ChainClosed;
  }

  /** `detect_causal_chain_python` on its dependency graph. */
  method DetectChain(t: Topology, next: Successors, changed: seq<Id>) returns (affected: set<Id>, paths: map<Id, Path>)
    ensures IsAffected(t, next, changed, affected) && paths.Keys == affected
    ensures forall d :: d in paths ==> IsCausalPath(t, next, changed, d, paths[d])
  {
    ghost var universe := (set d | d in changed) + (set u, v | u in next && v in next[u] :: v);
    assert Closed(changed, next, universe);
    hide *;
    var visited: set<Id>, queue := {}, changed;
    paths := map d | d in changed :: [d];
    ghost var cur: Id := "";
    ChaseStart(t, next, changed);
    while queue != []
      invariant Chasing(t, next, changed, visited, queue, paths, cur, {})
      decreases universe - visited, |queue|
    {
      ChaseBound(t, next, changed, visited, queue, paths, cur, {}, universe);
      var d := queue[0];
      if d in visited {
        PopStale(t, next, changed, visited, queue, paths, cur);
        queue := queue[1..];
      } else {
        PopNew(t, next, changed, visited, queue, paths, cur);
        visited, queue, cur := visited + {d}, queue[1..], d;
        if Spreads(t, d) {
          queue, paths := Expand(t, next, changed, visited, queue, paths, d);
        }
      }
    }
    ChaseDone(t, next, changed, visited, paths, cur);
    affected := visited;
  }

  method Expand(t: Topology, next: Successors, changed: seq<Id>, visited: set<Id>, queue0: seq<Id>,
                paths0: map<Id, Path>, d: Id)
    returns (queue: seq<Id>, paths: map<Id, Path>)
    requires Chasing(t, next, changed, visited, queue0, paths0, d, set v | v in Next(next, d)) && d in visited
    requires Spreads(t, d)
    ensures Chasing(t, next, changed, visited, queue, paths, d, {})
  {
    hide Chasing, Spreads, Next;
    queue, paths := queue0, paths0;
    var succ := Next(next, d);
    ghost var todo := set v | v in succ;
    for i := 0 to |succ|
      invariant Chasing(t, next, changed, visited, queue, paths, d, todo)
      invariant forall x :: x in todo ==> x in succ[i..]
    {
      var v := succ[i];
      assert succ[i..] == [v] + succ[i + 1..];
      if v !in visited {
        PushAgain(t, next, changed, visited, queue, paths, d, todo, v);
        queue, paths := queue + [v], paths[v := paths[d] + [v]];
      } else {
        SkipVisited(t, next, changed, visited, queue, paths, d, todo, v);
      }
      todo := todo - {v};
    }
    assert todo == {};
  }

  // ---- The same, read off the rows ----

  /** Nothing is forced, and an active device is provisioned. */
  ghost predicate RowSpreads(t: Topology, d: Id) {
    && d in t.devices && t.devices[d].override == None
    && (t.devices[d].kind in {CORE_ROUTER, EDGE_ROUTER, AON_SWITCH, OLT, ONT, AON_CPE, BUSINESS_ONT} ==>
        t.devices[d].provisioned)
  }

  /** A change goes from a spreading device over a passing link row to another existing device. */
  lemma ArcOnRows(t: Topology, rows: seq<Id>, next: Successors, u: Id, v: Id)
    requires IsDepGraph(t, rows, next)
    ensures Arc(t, next, u, v) <==>
      RowSpreads(t, u) && v in t.devices && exists id :: id in rows && RowJoins(t, id, u, v) && RowPasses(t, id)
  {
    assert Spreads(t, u) <==> RowSpreads(t, u) by {
      if u in t.devices { KindIsOneOf(t.devices[u].kind); }
    }
    forall id ensures LinkJoins(t, id, u, v) <==>
      RowJoins(t, id, u, v) && RowPasses(t, id) && u in t.devices && v in t.devices
    {
      PassableOnRows(t, id);
      hide Passable, RowPasses;
    }
    hide LinkJoins, RowJoins, RowPasses, Spreads;
    assert v in Next(next, u) <==> DepEdge(t, rows, u, v);
    if id :| id in rows && LinkJoins(t, id, u, v) {
      assert RowJoins(t, id, u, v);
    }
    assert RowSpreads(t, u) ==> u in t.devices;
  }
}
