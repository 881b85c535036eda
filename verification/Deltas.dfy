/**
 Diffing of metrics against the last snapshot (step 4 of `process_tick` in
 backend/services/metrics_service.py, backend/constants/metrics.py): what is stored, what is
 emitted, and what a client that only ever sees the deltas knows.
 */
module Deltas {
  import opened Order

  /** A utilization fraction; a device without capacity that carries traffic is infinitely utilized. */
  datatype Util = Fin(value: real) | Infinite

  const EPSILON: real := 0.01

  /** `utilization_bucket`: infinity is treated as 100 percent. */
  function Bucket(u: Util): nat {
    var pct := if u.Infinite? then 100.0 else u.value * 100.0;
    if pct <= 50.0 then 0 else if pct <= 70.0 then 1 else if pct <= 90.0 then 2 else if pct <= 100.0 then 3 else 4
  }

  /** The bucket is the number of thresholds 50, 70, 90 and 100 percent that are exceeded; infinity exceeds three. */
  lemma BucketCounts(u: Util)
    ensures Bucket(u) == match u
      case Infinite => 3
      case Fin(x) =>
        (if x > 0.5 then 1 else 0) + (if x > 0.7 then 1 else 0) + (if x > 0.9 then 1 else 0) + if x > 1.0 then 1 else 0
  {
  }

  /** More utilization never means a lower bucket ... */
  lemma BucketMonotone(u: Util, v: Util)
    requires u.Fin? && v.Fin? && u.value <= v.value
    ensures Bucket(u) <= Bucket(v)
  {
  }

  /** ... except that an infinite utilization ranks below any finite one over 100 percent. */
  lemma InfiniteRanksBelow(u: Util)
    requires u.Fin?
    ensures Bucket(Infinite) < Bucket(u) <==> u.value > 1.0
  {
  }

  function Abs(x: real): real {
    if x < 0.0 then -x else x
  }

  /** `abs(u - v) >= EPSILON`; the difference of two infinities is not a number and compares false. */
  predicate Far(u: Util, v: Util) {
    if u.Fin? && v.Fin? then Abs(u.value - v.value) >= EPSILON else u.Fin? || v.Fin?
  }

  datatype Reading = Reading(bps: real, util: Util)

  datatype Entry = Entry(bps: real, util: Util, bucket: nat)

  datatype Delta = Delta(id: Id, bps: real, util: Util)

  type Readings = map<Id, Reading>
  type Table = map<Id, Entry>

  const ZERO := Reading(0.0, Fin(0.0))

  function EntryOf(r: Reading): Entry {
    Entry(r.bps, r.util, Bucket(r.util))
  }

  /** Whether a reading is emitted. */
  predicate Significant(last: Table, d: Id, r: Reading) {
    if d in last then Bucket(r.util) != last[d].bucket || Far(r.util, last[d].util) else r.bps > 0.0
  }

  function Observe(last: Table, d: Id, r: Reading): Entry {
    if Significant(last, d, r) then EntryOf(r) else if d in last then last[d] else EntryOf(ZERO)
  }

  /** The two utilizations differ by a hundredth or more, or exactly one of them is infinite. */
  ghost predicate DifferByHundredth(u: Util, v: Util) {
    match (u, v)
    case (Fin(x), Fin(y)) => x - y >= 0.01 || y - x >= 0.01
    case (Infinite, Infinite) => false
    case _ => true
  }

  /**
   What one reading does: a first reading is emitted if it carries traffic, a later one if its bucket or its
   utilization moved; an emitted reading is stored, and otherwise the entry stays, or starts at zero.
   */
  lemma ObserveMeans(last: Table, d: Id, r: Reading)
    ensures Significant(last, d, r) <==>
      if d !in last then r.bps > 0.0 else Bucket(r.util) != last[d].bucket || DifferByHundredth(r.util, last[d].util)
    ensures var e := Observe(last, d, r);
      if Significant(last, d, r) then e.bps == r.bps && e.util == r.util && e.bucket == Bucket(r.util)
      else if d in last then e == last[d]
      else e == Entry(0.0, Fin(0.0), 0)
  {
  }

  /** The table after a tick: every reading observed, other entries kept. */
  ghost function Stored(last: Table, now: Readings): Table {
    map d | d in last.Keys + now.Keys :: if d in now then Observe(last, d, now[d]) else last[d]
  }

  function DeltaOf(d: Id, r: Reading): Delta {
    Delta(d, r.bps, r.util)
  }

  /** One delta per significant reading, in some order, and nothing else. */
  ghost predicate Emits(last: Table, now: Readings, out: seq<Delta>) {
    && (forall i, j :: 0 <= i < j < |out| ==> out[i].id != out[j].id)
    && (forall e :: e in out <==> EmittedFor(last, now, e))
  }

  predicate EmittedFor(last: Table, now: Readings, e: Delta) {
    e.id in now && Significant(last, e.id, now[e.id]) && e == DeltaOf(e.id, now[e.id])
  }

  ghost function Part(now: Readings, done: set<Id>): Readings {
    map d | d in now && d in done :: now[d]
  }

  lemma StoreOne(last: Table, now: Readings, done: set<Id>, d: Id)
    requires d in now && d !in done
    ensures Stored(last, Part(now, done + {d})) == Stored(last, Part(now, done))[d := Observe(last, d, now[d])]
  {
    hide Observe;
    assert Part(now, done + {d}) == Part(now, done)[d := now[d]];
    hide Part;
  }

  lemma EmitOne(last: Table, now: Readings, done: set<Id>, d: Id, out: seq<Delta>)
    requires d in now && d !in done && Emits(last, Part(now, done), out)
    ensures Emits(last, Part(now, done + {d}), if Significant(last, d, now[d]) then out + [DeltaOf(d, now[d])] else out)
  {
    hide Significant;
    var e := DeltaOf(d, now[d]);
    forall x
      ensures EmittedFor(last, Part(now, done + {d}), x) <==>
        EmittedFor(last, Part(now, done), x) || (Significant(last, d, now[d]) && x == e)
    {
    }
    forall x | x in out ensures x.id != d {
      assert EmittedFor(last, Part(now, done), x);
    }
    hide EmittedFor;
  }

  method Diff(last0: Table, now: Readings) returns (last: Table, out: seq<Delta>)
    ensures last == Stored(last0, now) && Emits(last0, now, out)
  {
    last, out := last0, [];
    var rest := now.Keys;
    ghost var done: set<Id> := {};
    assert last == Stored(last0, Part(now, done)) && Emits(last0, Part(now, done), out);
    hide *;
    while rest != {}
      invariant done + rest == now.Keys && done !! rest
      invariant last == Stored(last0, Part(now, done)) && Emits(last0, Part(now, done), out)
      decreases rest
    {
      var d :| d in rest;
      StoreOne(last0, now, done, d);
      EmitOne(last0, now, done, d, out);
      last := last[d := Observe(last0, d, now[d])];
      if Significant(last0, d, now[d]) {
        out := out + [DeltaOf(d, now[d])];
      }
      done, rest := done + {d}, rest - {d};
    }
    PartIsAll(now);
  }

  lemma PartIsAll(now: Readings)
    ensures Part(now, now.Keys) == now
  {
  }

  // ---- Accuracy of the stored snapshot ----

  /** The stored utilization is in the bucket of the true one and closer than epsilon, or both are infinite. */
  predicate Close(stored: Util, now: Util) {
    Bucket(stored) == Bucket(now) && !Far(now, stored)
  }

  /** Every entry knows its own bucket. */
  ghost predicate TableOk(last: Table) {
    forall d :: d in last ==> last[d].bucket == Bucket(last[d].util)
  }

  lemma StoredOk(last: Table, now: Readings)
    requires TableOk(last)
    ensures TableOk(Stored(last, now))
  {
    hide Bucket, Significant;
  }

  /** A reading without traffic is at most zero. */
  predicate Plausible(r: Reading) {
    r.bps <= 0.0 ==> r.util.Fin? && r.util.value <= 0.0
  }

  /** After a tick the stored value is close to the reading, unless a first reading is negative by epsilon or more. */
  lemma StoredIsClose(last: Table, now: Readings, d: Id)
    requires TableOk(last) && d in now && Plausible(now[d])
    ensures Close(Stored(last, now)[d].util, now[d].util) <==>
            d in last || now[d].bps > 0.0 || now[d].util.value > -EPSILON
  {
  }

  // ---- What the deltas tell ----

  /** The client's view: the last delta of each id wins. */
  function Folded(hist: seq<Delta>): Readings {
    if hist == [] then map[]
    else
      var e := hist[|hist| - 1];
      Folded(hist[..|hist| - 1])[e.id := Reading(e.bps, e.util)]
  }

  ghost predicate IsLastOf(hist: seq<Delta>, d: Id, n: nat) {
    n < |hist| && hist[n].id == d && forall k :: n < k < |hist| ==> hist[k].id != d
  }

  /** The client knows an item by the last delta about it, and not at all before the first. */
  lemma {:induction false} FoldedMeans(hist: seq<Delta>, d: Id)
    ensures d in Folded(hist) <==> exists n :: 0 <= n < |hist| && hist[n].id == d
    ensures forall n: nat :: IsLastOf(hist, d, n) ==> Folded(hist)[d] == Reading(hist[n].bps, hist[n].util)
  {
    if hist != [] {
      var m := |hist| - 1;
      FoldedMeans(hist[..m], d);
      assert forall n :: 0 <= n < m ==> hist[..m][n] == hist[n];
      forall n: nat | IsLastOf(hist, d, n) ensures Folded(hist)[d] == Reading(hist[n].bps, hist[n].util) {
        if n < m { assert IsLastOf(hist[..m], d, n); }
      }
    }
  }

  function View(m: Readings, d: Id): Reading {
    if d in m then m[d] else ZERO
  }

  function Snapshot(last: Table, d: Id): Reading {
    if d in last then Reading(last[d].bps, last[d].util) else ZERO
  }

  /** Starting from zero, the deltas published so far give the stored snapshot. */
  ghost predicate Mirrors(hist: seq<Delta>, last: Table) {
    forall d :: View(Folded(hist), d) == Snapshot(last, d)
  }

  lemma {:induction false} FoldedAppend(hist: seq<Delta>, out: seq<Delta>, d: Id)
    requires forall i, j :: 0 <= i < j < |out| ==> out[i].id != out[j].id
    ensures forall e :: e in out && e.id == d ==> View(Folded(hist + out), d) == Reading(e.bps, e.util)
    ensures (forall e :: e in out ==> e.id != d) ==> View(Folded(hist + out), d) == View(Folded(hist), d)
  {
    if out == [] {
      assert hist + out == hist;
    } else {
      var n := |out| - 1;
      FoldedAppend(hist, out[..n], d);
      assert (hist + out)[..|hist| + n] == hist + out[..n];
      assert out == out[..n] + [out[n]];
    }
  }

  lemma StepMirrors(hist: seq<Delta>, last: Table, now: Readings, out: seq<Delta>)
    requires Mirrors(hist, last) && Emits(last, now, out)
    ensures Mirrors(hist + out, Stored(last, now))
  {
    hide Significant, Folded;
    forall d ensures View(Folded(hist + out), d) == Snapshot(Stored(last, now), d) {
      FoldedAppend(hist, out, d);
      assert View(Folded(hist), d) == Snapshot(last, d);
      if d in now && Significant(last, d, now[d]) {
        assert EmittedFor(last, now, DeltaOf(d, now[d]));
      } else {
        assert forall e :: e in out ==> EmittedFor(last, now, e);
      }
    }
  }

  // ---- Whole runs ----

  datatype Tick = Tick(now: Readings, out: seq<Delta>)

  ghost function TableAfter(ticks: seq<Tick>): Table {
    if ticks == [] then map[] else Stored(TableAfter(ticks[..|ticks| - 1]), ticks[|ticks| - 1].now)
  }

  /** Each tick emits exactly the significant readings against the table its predecessors left. */
  ghost predicate IsRun(ticks: seq<Tick>) {
    forall n :: 0 <= n < |ticks| ==> Emits(TableAfter(ticks[..n]), ticks[n].now, ticks[n].out)
  }

  function Published(ticks: seq<Tick>): seq<Delta> {
    if ticks == [] then [] else Published(ticks[..|ticks| - 1]) + ticks[|ticks| - 1].out
  }

  /** Over any run from the empty table, folding all deltas gives the stored snapshot, whose buckets are right. */
  lemma {:induction false} RunMirrors(ticks: seq<Tick>)
    requires IsRun(ticks)
    ensures Mirrors(Published(ticks), TableAfter(ticks)) && TableOk(TableAfter(ticks))
  {
    if ticks != [] {
      var n := |ticks| - 1;
      var before := ticks[..n];
      assert forall k :: 0 <= k < n ==> before[..k] == ticks[..k];
      RunMirrors(before);
      StepMirrors(Published(before), TableAfter(before), ticks[n].now, ticks[n].out);
      StoredOk(TableAfter(before), ticks[n].now);
    }
  }

  /** After any run, the client's view of each item read in the last tick is close to the reading. */
  lemma ClientIsClose(ticks: seq<Tick>, d: Id)
    requires IsRun(ticks) && ticks != [] && d in ticks[|ticks| - 1].now
    requires ticks[|ticks| - 1].now[d].bps >= 0.0 && Plausible(ticks[|ticks| - 1].now[d])
    requires ticks[|ticks| - 1].now[d].util.Fin? ==> ticks[|ticks| - 1].now[d].util.value >= 0.0
    ensures Close(View(Folded(Published(ticks)), d).util, ticks[|ticks| - 1].now[d].util)
  {
    var n := |ticks| - 1;
    RunMirrors(ticks);
    assert forall k :: 0 <= k < n ==> ticks[..n][..k] == ticks[..k];
    RunMirrors(ticks[..n]);
    StoredIsClose(TableAfter(ticks[..n]), ticks[n].now, d);
  }
}
