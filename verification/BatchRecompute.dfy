/**
 The recompute that a drained batch runs (`_run_consolidated_recompute` in
 backend/services/recompute_coalescer.py): what one batch does for the requests it stands for.
 */
module BatchRecompute {
  import opened Types
  import opened Order
  import opened Topology
  import opened GraphIndex
  import opened AdjacencyCache
  import opened Incremental
  import opened Samples

  /** A key names a device if it can, else a link, else nothing. */
  function Resolve(t: Topology, keys: set<string>): DirtySet {
    DirtySet((set k | k in keys && k in t.devices), (set k | k in keys && k in t.links && k !in t.devices), "")
  }

  /** Some key leads to a device to start from. */
  ghost predicate HasSeed(t: Topology, keys: set<string>) {
    exists d :: IsSeedOf(t, keys, d)
  }

  ghost predicate IsSeedOf(t: Topology, keys: set<string>, d: Id) {
    InFrontier(t, Resolve(t, keys), d)
  }

  /** A key starts at the device it names; a key that names no device starts at the ends of the link it names. */
  lemma SeedOnRows(t: Topology, keys: set<string>, d: Id)
    ensures IsSeedOf(t, keys, d) <==>
      (d in keys && d in t.devices) || exists k :: k in keys && k !in t.devices && RowEndsAt(t, k, d)
  {
    forall k { EndOnRows(t, k, d); }
    hide RowEndsAt, DeviceOf;
    if EndOfDirty(t, Resolve(t, keys).links, d) {
      var k :| k in Resolve(t, keys).links && k in t.links &&
        (DeviceOf(t, t.links[k].a) == Some(d) || DeviceOf(t, t.links[k].b) == Some(d));
      assert RowEndsAt(t, k, d);
    }
    if k :| k in keys && k !in t.devices && RowEndsAt(t, k, d) {
      assert k in Resolve(t, keys).links;
    }
  }

  /** The devices a batch re-evaluates: the component of its seeds, or all when it has none. */
  ghost predicate BatchReevaluates(t: Topology, keys: set<string>, s: set<Id>) {
    && (HasSeed(t, keys) ==> ClosedOver(t, Resolve(t, keys), s) && forall r :: ClosedOver(t, Resolve(t, keys), r) ==>
      s <= r)
    && (!HasSeed(t, keys) ==> s == t.devices.Keys)
  }

  method RunBatch(cache: GraphCache, t: Topology, v: int, keys: set<string>) returns (affected: set<Id>)
    requires cache.Valid()
    modifies cache
    ensures cache.Valid()
    ensures Trusted(old(cache.cached), t, v) ==> BatchReevaluates(t, keys, affected)
  {
    hide ClosedOver, InFrontier, Trusted, Accessed;
    var dirty := Resolve(t, keys);
    if dirty.devices != {} || dirty.links != {} {
      affected := RecomputeDirty(cache, t, v, dirty);
      SeedsAreFrontier(t, keys);
    } else {
      NothingDirty(t, dirty);
      affected := t.devices.Keys;
    }
  }

  lemma SeedsAreFrontier(t: Topology, keys: set<string>)
    ensures HasSeed(t, keys) <==> exists d :: InFrontier(t, Resolve(t, keys), d)
  {
    hide InFrontier;
    if d :| InFrontier(t, Resolve(t, keys), d) {
      assert IsSeedOf(t, keys, d);
    }
  }

  lemma NothingDirty(t: Topology, dirty: DirtySet)
    requires dirty.devices == {} && dirty.links == {}
    ensures forall d :: !InFrontier(t, dirty, d)
  {
  }

  // ---- What the component is ----

  ghost predicate IsTrail(t: Topology, p: Path) {
    |p| > 0 && forall i :: 0 <= i < |p| - 1 ==> AdjEdge(t, p[i], p[i + 1])
  }

  ghost predicate TrailFromTo(t: Topology, p: Path, u: Id, v: Id) {
    IsTrail(t, p) && p[0] == u && p[|p| - 1] == v
  }

  /** A trail of propagation edges leads from a seed of the batch to `d`. */
  ghost predicate Joined(t: Topology, keys: set<string>, d: Id) {
    exists x, p :: IsSeedOf(t, keys, x) && TrailFromTo(t, p, x, d)
  }

  lemma {:induction false} TrailStays(t: Topology, keys: set<string>, s: set<Id>, p: Path, n: nat)
    requires ClosedOver(t, Resolve(t, keys), s) && IsTrail(t, p) && p[0] in s && n < |p|
    ensures p[n] in s
  {
    hide AdjEdge, InFrontier;
    if n > 0 {
      TrailStays(t, keys, s, p, n - 1);
      assert AdjEdge(t, p[n - 1], p[n - 1 + 1]);
    }
  }

  lemma TrailGrows(t: Topology, keys: set<string>, u: Id, v: Id)
    requires Joined(t, keys, u) && AdjEdge(t, u, v)
    ensures Joined(t, keys, v)
  {
    hide AdjEdge, IsSeedOf;
    var x, p :| IsSeedOf(t, keys, x) && TrailFromTo(t, p, x, u);
    var q := p + [v];
    forall i | 0 <= i < |q| - 1 ensures AdjEdge(t, q[i], q[i + 1]) {
      if i < |p| - 1 { assert AdjEdge(t, p[i], p[i + 1]); }
    }
    assert TrailFromTo(t, q, x, v);
  }

  lemma SeedIsJoined(t: Topology, keys: set<string>, x: Id)
    requires IsSeedOf(t, keys, x)
    ensures Joined(t, keys, x)
  {
    assert TrailFromTo(t, [x], x, x);
  }

  /** A batch with a seed re-evaluates exactly the devices joined to one of its seeds. */
  lemma BatchIsJoined(t: Topology, keys: set<string>, s: set<Id>, d: Id)
    requires BatchReevaluates(t, keys, s) && HasSeed(t, keys)
    ensures d in s <==> Joined(t, keys, d)
  {
    hide AdjEdge;
    var r := set x | x in s && Joined(t, keys, x);
    forall x | IsSeedOf(t, keys, x) ensures x in r {
      SeedIsJoined(t, keys, x);
    }
    forall u, v | u in r && AdjEdge(t, u, v) ensures v in r {
      TrailGrows(t, keys, u, v);
    }
    assert ClosedOver(t, Resolve(t, keys), r);
    if Joined(t, keys, d) {
      var x, p :| IsSeedOf(t, keys, x) && TrailFromTo(t, p, x, d);
      TrailStays(t, keys, s, p, |p| - 1);
    }
  }

  // ---- What coalescing does to one request ----

  lemma SeedsGrow(t: Topology, mine: set<string>, all: set<string>, d: Id)
    requires mine <= all && IsSeedOf(t, mine, d)
    ensures IsSeedOf(t, all, d)
  {
    var a, b := Resolve(t, mine), Resolve(t, all);
    assert a.devices <= b.devices && a.links <= b.links;
  }

  /** A request with a seed of its own gets at least what it would have got alone. */
  lemma KeyedRequestIsCovered(t: Topology, mine: set<string>, all: set<string>, alone: set<Id>, together: set<Id>)
    requires mine <= all && HasSeed(t, mine) && BatchReevaluates(t, mine, alone) && BatchReevaluates(t, all, together)
    ensures alone <= together
  {
    hide BatchReevaluates, IsSeedOf;
    assert HasSeed(t, all) by {
      var d :| IsSeedOf(t, mine, d);
      SeedsGrow(t, mine, all, d);
    }
    forall d | d in alone ensures d in together {
      BatchIsJoined(t, mine, alone, d);
      var x, p :| IsSeedOf(t, mine, x) && TrailFromTo(t, p, x, d);
      SeedsGrow(t, mine, all, x);
      BatchIsJoined(t, all, together, d);
    }
  }

  /**
   A request without a seed asks for every device.  In a batch with other requests it still gets that
   exactly when none of them has a seed, or every device is joined to one.
   */
  lemma KeylessRequestIsCoveredIff(t: Topology, mine: set<string>, all: set<string>, alone: set<Id>, together: set<Id>)
    requires mine <= all && !HasSeed(t, mine) && BatchReevaluates(t, mine, alone) && BatchReevaluates(t, all, together)
    ensures alone <= together <==> !HasSeed(t, all) || forall d :: d in t.devices ==> Joined(t, all, d)
  {
    if HasSeed(t, all) {
      forall d ensures d in together <==> Joined(t, all, d) {
        BatchIsJoined(t, all, together, d);
      }
    }
  }

  /** Two isolated devices: a full request coalesced with one for `A` no longer re-evaluates `B`. */
  lemma FullRequestIsNarrowed(together: set<Id>)
    requires BatchReevaluates(ISOLATED, {"A"}, together)
    ensures "B" in ISOLATED.devices && "B" !in together && !HasSeed(ISOLATED, {})
  {
    var t := ISOLATED;
    assert forall u, v :: !AdjEdge(t, u, v);
    assert forall d :: IsSeedOf(t, {"A"}, d) <==> d == "A";
    assert IsSeedOf(t, {"A"}, "A");
    assert ClosedOver(t, Resolve(t, {"A"}), {"A"});
    NothingDirty(t, Resolve(t, {}));
  }

  const ISOLATED := Topology(map["A" := Row(POP, None), "B" := Row(POP, None)], map[], map[])
}
