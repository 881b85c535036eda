/**
 The debounce coalescer (backend/services/recompute_coalescer.py) as a protocol of atomic steps:
 each locked section is one step, and the gaps between them are where other threads run.
 Every `schedule` call has a number, so that a request can be followed to its end.
 */
module Coalescer {
  import opened Types

  /** The fields of the shared state that only change under the lock. */
  datatype Core = Core(timer: Option<nat>, scopes: set<string>, keys: set<string>, executing: bool, coalesced: nat)

  const INITIAL := Core(None, {}, {}, false, 0)

  function WithText(s: set<string>, x: string): set<string> {
    if x == "" then s else s + {x}
  }

  /** The locked section of `schedule`; `newTimer` names the timer object that would be created. */
  function CoreSchedule(c: Core, scope: string, key: string, newTimer: nat): Core {
    var c' := c.(scopes := WithText(c.scopes, scope), keys := WithText(c.keys, key));
    if c.timer.None? then c'.(timer := Some(newTimer)) else c'.(coalesced := c.coalesced + 1)
  }

  /** What the first locked section of `_execute_now` and `stop` leave; a run takes the cleared sets as its batch. */
  function Cleared(c: Core): Core {
    c.(timer := None, scopes := {}, keys := {})
  }

  predicate IsIdle(c: Core) {
    c.timer.None? && c.scopes == {} && c.keys == {} && !c.executing
  }

  /** The module-level `_STATE`; every method body is one locked section. */
  class SharedState {
    var timer: Option<nat>
    var pendingScopes: set<string>
    var pendingKeys: set<string>
    var executing: bool
    var coalescedRuns: nat

    constructor ()
      ensures Abs() == INITIAL
    {
      timer, pendingScopes, pendingKeys, executing, coalescedRuns := None, {}, {}, false, 0;
    }

    function Abs(): Core
      reads this
    {
      Core(timer, pendingScopes, pendingKeys, executing, coalescedRuns)
    }

    method Schedule(scope: string, key: string, newTimer: nat) returns (start: bool)
      modifies this
      ensures Abs() == CoreSchedule(old(Abs()), scope, key, newTimer)
      ensures start == old(timer).None?
    {
      if scope != "" { pendingScopes := pendingScopes + {scope}; }
      if key != "" { pendingKeys := pendingKeys + {key}; }
      start := timer.None?;
      if start {
        timer := Some(newTimer);
      } else {
        coalescedRuns := coalescedRuns + 1;
      }
    }

    method Drain() returns (scopes: set<string>, keys: set<string>)
      modifies this
      ensures Abs() == Cleared(old(Abs()))
      ensures scopes == old(pendingScopes) && keys == old(pendingKeys)
    {
      timer := None;
      scopes, keys := pendingScopes, pendingKeys;
      pendingScopes, pendingKeys := {}, {};
    }

    /** The locked section of `flush_now`: the timer to cancel, when one is pending. */
    method TakeTimer() returns (cancel: Option<nat>)
      modifies this
      ensures Abs() == old(Abs()).(timer := None)
      ensures cancel == old(timer)
    {
      cancel := timer;
      timer := None;
    }

    method Stop() returns (cancel: Option<nat>)
      modifies this
      ensures Abs() == Cleared(old(Abs()))
      ensures cancel == old(timer)
    {
      cancel := timer;
      timer := None;
      pendingScopes, pendingKeys := {}, {};
    }
  }

  // ---- The protocol ----

  datatype Call = Call(scope: string, key: string)

  datatype Batch = Batch(scopes: set<string>, keys: set<string>)

  /** Where a `schedule` call stands with its unlocked increment of `metrics_scheduled`. */
  datatype Counting = Read(seen: nat) | Counted

  /**
   `armed`: started timers that may still fire.  `inflight`: runs of `_execute_now` that have not
   drained yet.  `running`: runs between their drain and their end.  `next` numbers timers and runs.
   The last fields record what happened to every schedule call that entered its locked section.
   */
  datatype State = State(
    core: Core, metric: nat, next: nat,
    armed: set<nat>, inflight: set<nat>, running: set<nat>,
    calls: seq<Call>, counting: map<nat, Counting>, started: nat,
    pending: set<nat>, drained: map<nat, nat>, discarded: set<nat>, batches: map<nat, Batch>)

  const START := State(INITIAL, 0, 0, {}, {}, {}, [], map[], 0, {}, map[], {}, map[])

  datatype Action =
    | Enter(call: Call)      // reads metrics_scheduled
    | Count(token: nat)      // writes it back incremented
    | Schedule(token: nat)   // locked section of schedule
    | Fire(id: nat)          // a timer passes its cancellation check
    | Flush                  // locked section of flush_now
    | Drain(id: nat)         // first locked section of _execute_now
    | Begin(id: nat)         // second locked section: executing = True
    | Finish(id: nat)        // last locked section: executing = False
    | Stop

  predicate Issued(s: State, t: nat) {
    t in s.pending || t in s.drained || t in s.discarded
  }

  predicate Enabled(s: State, a: Action) {
    match a
    case Enter(_) => true
    case Count(t) => t in s.counting && s.counting[t].Read?
    case Schedule(t) => t < |s.calls| && t in s.counting && s.counting[t].Counted? && !Issued(s, t)
    case Fire(x) => x in s.armed
    case Flush => true
    case Drain(r) => r in s.inflight
    case Begin(r) => r in s.running
    case Finish(r) => r in s.running
    case Stop => true
  }

  function Cancelled(s: State): set<nat> {
    if s.core.timer.Some? then s.armed - {s.core.timer.value} else s.armed
  }

  function HandedTo(s: State, r: nat): map<nat, nat> {
    s.drained + map t | t in s.pending :: r
  }

  function Apply(s: State, a: Action): State
    requires Enabled(s, a)
  {
    match a
    case Enter(c) => s.(calls := s.calls + [c], counting := s.counting[|s.calls| := Read(s.metric)])
    case Count(t) => s.(metric := s.counting[t].seen + 1, counting := s.counting[t := Counted])
    case Schedule(t) =>
      var c := s.calls[t];
      var s' := s.(core := CoreSchedule(s.core, c.scope, c.key, s.next), pending := s.pending + {t});
      if s.core.timer.None? then s'.(armed := s.armed + {s.next}, next := s.next + 1, started := s.started + 1) else s'
    case Fire(x) => s.(armed := s.armed - {x}, inflight := s.inflight + {x})
    case Flush =>
      if s.core.timer.None? then s
      else s.(core := s.core.(timer := None), armed := Cancelled(s), inflight := s.inflight + {s.next},
        next := s.next + 1)
    case Drain(r) =>
      s.(core := Cleared(s.core), inflight := s.inflight - {r}, running := s.running + {r},
         pending := {}, drained := HandedTo(s, r), batches := s.batches[r := Batch(s.core.scopes, s.core.keys)])
    case Begin(r) => s.(core := s.core.(executing := true))
    case Finish(r) => s.(core := s.core.(executing := false), running := s.running - {r})
    case Stop =>
      s.(core := Cleared(s.core), armed := Cancelled(s), pending := {}, discarded := s.discarded + s.pending)
  }

  /** The states along a run from `s`. */
  predicate IsRun(s: State, run: seq<Action>)
    decreases |run|
  {
    run == [] || (Enabled(s, run[0]) && IsRun(Apply(s, run[0]), run[1..]))
  }

  function After(s: State, run: seq<Action>): State
    requires IsRun(s, run)
    decreases |run|
  {
    if run == [] then s else After(Apply(s, run[0]), run[1..])
  }

  // ---- Invariant ----

  /** Pending, handed to a drain, discarded: never two of them. */
  ghost predicate Fates(s: State) {
    && s.pending !! s.discarded
    && (forall t :: t in s.drained ==> t !in s.pending && t !in s.discarded)
    && (forall t :: t in s.pending ==> t < |s.calls|)
    && (forall t :: t in s.drained ==> t < |s.calls|)
    && (forall t :: t in s.discarded ==> t < |s.calls|)
  }

  ghost predicate Live(s: State) {
    && (s.core.timer.Some? ==> s.core.timer.value in s.armed + s.inflight)
    && (s.pending != {} ==> s.core.timer.Some? || s.inflight != {})
  }

  ghost predicate Numbered(s: State) {
    && s.armed !! s.inflight
    && (forall x :: x in s.armed + s.inflight ==> x < s.next && x !in s.batches)
    && (forall r :: r in s.batches ==> r < s.next)
    && (forall t :: t in s.drained ==> s.drained[t] in s.batches)
  }

  function ScopesOf(calls: seq<Call>, tokens: set<nat>): set<string> {
    set t | t in tokens && t < |calls| && calls[t].scope != "" :: calls[t].scope
  }

  function KeysOf(calls: seq<Call>, tokens: set<nat>): set<string> {
    set t | t in tokens && t < |calls| && calls[t].key != "" :: calls[t].key
  }

  function BatchOf(calls: seq<Call>, tokens: set<nat>): Batch {
    Batch(ScopesOf(calls, tokens), KeysOf(calls, tokens))
  }

  /** The calls handed to one run. */
  function HandedRun(s: State, r: nat): set<nat> {
    set t | t in s.drained && s.drained[t] == r
  }

  /** The pending sets name exactly what the pending calls asked for, and each batch what its calls asked for. */
  ghost predicate Covered(s: State) {
    && Batch(s.core.scopes, s.core.keys) == BatchOf(s.calls, s.pending)
    && forall r :: r in s.batches ==> s.batches[r] == BatchOf(s.calls, HandedRun(s, r))
  }

  ghost predicate Balanced(s: State) {
    |s.pending| + |s.drained.Keys| + |s.discarded| == s.started + s.core.coalesced
  }

  ghost predicate Inv(s: State) {
    Fates(s) && Live(s) && Numbered(s) && Covered(s) && Balanced(s)
  }

  lemma StepKeepsFates(s: State, a: Action)
    requires Fates(s) && Enabled(s, a)
    ensures Fates(Apply(s, a))
  {
  }

  lemma StepKeepsLive(s: State, a: Action)
    requires Live(s) && Numbered(s) && Enabled(s, a)
    ensures Live(Apply(s, a))
  {
  }

  lemma StepKeepsNumbered(s: State, a: Action)
    requires Fates(s) && Live(s) && Numbered(s) && Enabled(s, a)
    ensures Numbered(Apply(s, a))
  {
    hide CoreSchedule, Cleared, Fates;
    assert Cancelled(s) <= s.armed;
    forall x | x in s.armed ensures x < s.next && x !in s.batches && x !in s.inflight {
      assert x in s.armed + s.inflight;
    }
    forall x | x in s.inflight ensures x < s.next && x !in s.batches {
      assert x in s.armed + s.inflight;
    }
  }

  lemma BatchStable(calls: seq<Call>, c: Call, tokens: set<nat>)
    requires forall t :: t in tokens ==> t < |calls|
    ensures BatchOf(calls + [c], tokens) == BatchOf(calls, tokens)
  {
    assert forall t :: t in tokens ==> (calls + [c])[t] == calls[t];
    assert ScopesOf(calls + [c], tokens) == ScopesOf(calls, tokens);
    assert KeysOf(calls + [c], tokens) == KeysOf(calls, tokens);
  }

  lemma BatchGrows(calls: seq<Call>, tokens: set<nat>, t: nat)
    requires t < |calls|
    ensures BatchOf(calls, tokens + {t}) ==
      Batch(WithText(ScopesOf(calls, tokens), calls[t].scope), WithText(KeysOf(calls, tokens), calls[t].key))
  {
    assert ScopesOf(calls, tokens + {t}) == WithText(ScopesOf(calls, tokens), calls[t].scope);
    assert KeysOf(calls, tokens + {t}) == WithText(KeysOf(calls, tokens), calls[t].key);
  }

  lemma StepKeepsCovered(s: State, a: Action)
    requires Fates(s) && Numbered(s) && Covered(s) && Enabled(s, a)
    ensures Covered(Apply(s, a))
  {
    hide BatchOf;
    var s' := Apply(s, a);
    match a
    case Enter(c) =>
      BatchStable(s.calls, c, s.pending);
      forall r | r in s.batches ensures s'.batches[r] == BatchOf(s'.calls, HandedRun(s', r)) {
        assert HandedRun(s', r) == HandedRun(s, r);
        BatchStable(s.calls, c, HandedRun(s, r));
      }
    case Schedule(t) =>
      BatchGrows(s.calls, s.pending, t);
      assert Batch(s.core.scopes, s.core.keys) == BatchOf(s.calls, s.pending);
      BatchFields(s.calls, s.pending);
      assert forall r :: HandedRun(s', r) == HandedRun(s, r);
    case Drain(r) =>
      assert HandedRun(s', r) == s.pending;
      forall q | q in s.batches && q != r ensures HandedRun(s', q) == HandedRun(s, q) {
      }
      EmptyBatch(s.calls);
    case Stop =>
      EmptyBatch(s.calls);
      assert forall r :: HandedRun(s', r) == HandedRun(s, r);
    case _ =>
      assert forall r :: HandedRun(s', r) == HandedRun(s, r);
  }

  lemma BatchFields(calls: seq<Call>, tokens: set<nat>)
    ensures BatchOf(calls, tokens) == Batch(ScopesOf(calls, tokens), KeysOf(calls, tokens))
  {
  }

  lemma EmptyBatch(calls: seq<Call>)
    ensures BatchOf(calls, {}) == Batch({}, {})
  {
  }

  /** What a step does to the three fates and to the two counts. */
  lemma StepTallies(s: State, a: Action)
    requires Enabled(s, a)
    ensures var s' := Apply(s, a);
      match a
      case Schedule(t) =>
        && s'.pending == s.pending + {t} && s'.drained == s.drained && s'.discarded == s.discarded
        && s'.started + s'.core.coalesced == s.started + s.core.coalesced + 1
      case Drain(r) =>
        && s'.pending == {} && s'.drained == HandedTo(s, r) && s'.discarded == s.discarded
        && s'.started == s.started && s'.core.coalesced == s.core.coalesced
      case Stop =>
        && s'.pending == {} && s'.drained == s.drained && s'.discarded == s.discarded + s.pending
        && s'.started == s.started && s'.core.coalesced == s.core.coalesced
      case _ =>
        && s'.pending == s.pending && s'.drained == s.drained && s'.discarded == s.discarded
        && s'.started == s.started && s'.core.coalesced == s.core.coalesced
  {
    hide WithText, Cancelled, HandedTo;
  }

  lemma StepKeepsBalance(s: State, a: Action)
    requires Fates(s) && Balanced(s) && Enabled(s, a)
    ensures Balanced(Apply(s, a))
  {
    StepTallies(s, a);
    hide Apply;
    match a
    case Drain(r) =>
      DrainSize(s, r);
      hide HandedTo;
    case Stop =>
      DisjointSizes(s.discarded, s.pending);
    case Schedule(t) =>
      DisjointSizes(s.pending, {t});
    case _ =>
  }

  lemma DrainSize(s: State, r: nat)
    requires Fates(s)
    ensures |HandedTo(s, r).Keys| == |s.drained.Keys| + |s.pending|
  {
    assert HandedTo(s, r).Keys == s.drained.Keys + s.pending;
    DisjointSizes(s.drained.Keys, s.pending);
  }

  lemma DisjointSizes(a: set<nat>, b: set<nat>)
    requires a !! b
    ensures |a + b| == |a| + |b|
  {
  }

  lemma StepKeepsInv(s: State, a: Action)
    requires Inv(s) && Enabled(s, a)
    ensures Inv(Apply(s, a))
  {
    hide Fates, Live, Numbered, Covered, Balanced;
    StepKeepsFates(s, a);
    StepKeepsLive(s, a);
    StepKeepsNumbered(s, a);
    StepKeepsCovered(s, a);
    StepKeepsBalance(s, a);
  }

  lemma {:induction false} RunKeepsInv(s: State, run: seq<Action>)
    requires Inv(s) && IsRun(s, run)
    ensures Inv(After(s, run))
    decreases |run|
  {
    hide Inv, Apply;
    if run != [] {
      StepKeepsInv(s, run[0]);
      RunKeepsInv(Apply(s, run[0]), run[1..]);
    }
  }

  /**
   No lost request.  In every interleaving a call that went through its locked section is in exactly
   one place: waiting, handed to one drain whose batch names its scope and key, or discarded by stop.
   Nothing waits unless a timer can still fire or a run is about to drain.
   */
  lemma NoLostRequest(run: seq<Action>)
    requires IsRun(START, run)
    ensures var s := After(START, run);
      && (forall t: nat :: Issued(s, t) ==> ExactlyOneFate(s, t))
      && (forall t :: t in s.drained && t < |s.calls| ==>
            s.drained[t] in s.batches && Names(s.batches[s.drained[t]], s.calls[t]))
      && (s.armed == {} && s.inflight == {} ==> s.pending == {})
      && |s.pending| + |s.drained.Keys| + |s.discarded| == s.started + s.core.coalesced
  {
    var s := After(START, run);
    assert Inv(START) by {
      EmptyBatch([]);
    }
    RunKeepsInv(START, run);
    forall t | t in s.drained && t < |s.calls|
      ensures s.drained[t] in s.batches && Names(s.batches[s.drained[t]], s.calls[t])
    {
      assert t in HandedRun(s, s.drained[t]);
    }
  }

  ghost predicate ExactlyOneFate(s: State, t: nat) {
    || (t in s.pending && t !in s.drained && t !in s.discarded)
    || (t !in s.pending && t in s.drained && t !in s.discarded)
    || (t !in s.pending && t !in s.drained && t in s.discarded)
  }

  predicate Names(b: Batch, c: Call) {
    (c.scope != "" ==> c.scope in b.scopes) && (c.key != "" ==> c.key in b.keys)
  }

  lemma StepKeepsFate(s: State, a: Action, t: nat)
    requires Fates(s) && Enabled(s, a)
    ensures t in s.drained ==> t in Apply(s, a).drained && Apply(s, a).drained[t] == s.drained[t]
    ensures t in s.discarded ==> t in Apply(s, a).discarded
  {
  }

  /** Once handed to a run or discarded, always so: a request is executed at most once. */
  lemma {:induction false} FateIsFinal(s: State, run: seq<Action>, t: nat)
    requires Inv(s) && IsRun(s, run)
    ensures t in s.drained ==> t in After(s, run).drained && After(s, run).drained[t] == s.drained[t]
    ensures t in s.discarded ==> t in After(s, run).discarded
    decreases |run|
  {
    if run != [] {
      StepKeepsInv(s, run[0]);
      StepKeepsFate(s, run[0], t);
      hide Apply, Inv, Enabled;
      FateIsFinal(Apply(s, run[0]), run[1..], t);
    }
  }

  // ---- Progress ----

  predicate IsSystemStep(a: Action) {
    a.Fire? || a.Drain?
  }

  /** How many timer and drain steps are still owed. */
  function Work(s: State): nat {
    2 * |s.armed| + |s.inflight|
  }

  lemma SystemStepWorks(s: State, a: Action)
    requires Inv(s) && Enabled(s, a) && IsSystemStep(a)
    ensures Work(Apply(s, a)) == Work(s) - 1
    ensures forall t :: t in s.pending ==> t in Apply(s, a).pending || t in Apply(s, a).drained
  {
    if a.Fire? {
      assert |s.inflight + {a.id}| == |s.inflight| + 1;
    }
  }

  /**
   Left to itself the system settles: timer and drain steps cannot go on for longer than the work
   owed, one is possible as long as work is owed, and when none is owed every request that was
   waiting has been handed to a run.
   */
  lemma {:induction false} SystemSettles(s: State, run: seq<Action>)
    requires Inv(s) && IsRun(s, run) && forall i :: 0 <= i < |run| ==> IsSystemStep(run[i])
    ensures |run| <= Work(s)
    ensures var e := After(s, run);
      && Work(e) == Work(s) - |run|
      && (Work(e) > 0 ==> exists a :: IsSystemStep(a) && Enabled(e, a))
      && (Work(e) == 0 ==> e.pending == {} && forall t :: t in s.pending ==> t in e.drained)
    decreases |run|
  {
    hide Apply, Inv, Enabled, Work, IsSystemStep;
    if run == [] {
      WorkOwed(s);
    } else {
      var s' := Apply(s, run[0]);
      StepKeepsInv(s, run[0]);
      SystemStepWorks(s, run[0]);
      SystemSettles(s', run[1..]);
      forall t | t in s'.drained ensures t in After(s', run[1..]).drained {
        FateIsFinal(s', run[1..], t);
      }
    }
  }

  lemma WorkOwed(s: State)
    requires Inv(s)
    ensures Work(s) > 0 ==> exists a :: IsSystemStep(a) && Enabled(s, a)
    ensures Work(s) == 0 ==> s.pending == {}
  {
    if s.armed != {} {
      var x :| x in s.armed;
      assert IsSystemStep(Fire(x)) && Enabled(s, Fire(x));
    } else if s.inflight != {} {
      var x :| x in s.inflight;
      assert IsSystemStep(Drain(x)) && Enabled(s, Drain(x));
    }
  }

  // ---- What the counters and is_idle say ----

  function CountedCalls(m: map<nat, Counting>): set<nat> {
    set t | t in m && m[t].Counted?
  }

  /** Only the two unlocked halves of the increment touch the counter. */
  lemma CountingStep(s: State, a: Action)
    requires Enabled(s, a)
    ensures var s' := Apply(s, a);
      match a
      case Enter(c) => s'.metric == s.metric && |s'.calls| == |s.calls| + 1 &&
        s'.counting == s.counting[|s.calls| := Read(s.metric)]
      case Count(t) => s'.metric == s.counting[t].seen + 1 && s'.calls == s.calls &&
        s'.counting == s.counting[t := Counted]
      case _ => s'.metric == s.metric && s'.calls == s.calls && s'.counting == s.counting
  {
  }

  lemma CountedAfter(m: map<nat, Counting>, t: nat, v: nat)
    ensures t !in m ==> CountedCalls(m[t := Read(v)]) == CountedCalls(m)
    ensures t in m && m[t].Read? ==> |CountedCalls(m[t := Counted])| == |CountedCalls(m)| + 1
  {
    if t !in m {
      assert CountedCalls(m[t := Read(v)]) == CountedCalls(m);
    } else if m[t].Read? {
      assert CountedCalls(m[t := Counted]) == CountedCalls(m) + {t};
    }
  }

  ghost predicate MetricInv(metric: nat, calls: nat, m: map<nat, Counting>) {
    && metric <= |CountedCalls(m)|
    && (forall t :: t in m ==> t < calls)
    && (forall t :: t in m && m[t].Read? ==> m[t].seen <= |CountedCalls(m)|)
  }

  /** The unlocked counter never overstates the calls that have incremented it. */
  lemma {:induction false} ScheduledMetricBound(s: State, run: seq<Action>)
    requires MetricInv(s.metric, |s.calls|, s.counting) && IsRun(s, run)
    ensures var e := After(s, run); e.metric <= |CountedCalls(e.counting)|
    decreases |run|
  {
    if run != [] {
      CountingStep(s, run[0]);
      if run[0].Enter? { CountedAfter(s.counting, |s.calls|, s.metric); }
      if run[0].Count? { CountedAfter(s.counting, run[0].token, 0); }
      hide Apply, CountedCalls;
      ScheduledMetricBound(Apply(s, run[0]), run[1..]);
    }
  }

  /** No call enters while another has read the counter and not yet written it. */
  predicate Serial(s: State, run: seq<Action>)
    requires IsRun(s, run)
    decreases |run|
  {
    run == [] ||
    ((run[0].Enter? ==> forall t :: t in s.counting ==> s.counting[t].Counted?) && Serial(Apply(s, run[0]), run[1..]))
  }

  ghost predicate MetricExact(metric: nat, calls: nat, m: map<nat, Counting>) {
    && metric == |CountedCalls(m)|
    && (forall t :: t in m ==> t < calls)
    && (forall t :: t in m && m[t].Read? ==> m[t].seen == metric)
    && (forall t, u :: t in m && u in m && m[t].Read? && m[u].Read? ==> t == u)
  }

  /** Calls that do not overlap in their unlocked increment are all counted. */
  lemma {:induction false} SerialMetricIsExact(s: State, run: seq<Action>)
    requires MetricExact(s.metric, |s.calls|, s.counting) && IsRun(s, run) && Serial(s, run)
    ensures var e := After(s, run); MetricExact(e.metric, |e.calls|, e.counting)
    decreases |run|
  {
    if run != [] {
      CountingStep(s, run[0]);
      if run[0].Enter? { CountedAfter(s.counting, |s.calls|, s.metric); }
      if run[0].Count? { CountedAfter(s.counting, run[0].token, 0); }
      hide Apply, CountedCalls;
      SerialMetricIsExact(Apply(s, run[0]), run[1..]);
    }
  }

  /** An increment is already lost, or is bound to be. */
  ghost predicate Lossy(metric: nat, m: map<nat, Counting>) {
    || (exists t, u :: t in m && u in m && t != u && m[t].Read? && m[u].Read?)
    || (exists t :: t in m && m[t].Read? && m[t].seen < |CountedCalls(m)|)
    || (AllWritten(m) && metric < |CountedCalls(m)|)
  }

  /** No call is between its read and its write. */
  predicate AllWritten(m: map<nat, Counting>) {
    forall t :: t in m ==> m[t].Counted?
  }

  lemma EnterLoses(metric: nat, calls: nat, m: map<nat, Counting>)
    requires MetricInv(metric, calls, m) && (Lossy(metric, m) || !AllWritten(m))
    ensures Lossy(metric, m[calls := Read(metric)])
  {
    CountedAfter(m, calls, metric);
    hide CountedCalls;
    var m' := m[calls := Read(metric)];
    if !AllWritten(m) {
      var t :| t in m && !m[t].Counted?;
      assert t in m' && calls in m' && t != calls && m'[t].Read? && m'[calls].Read?;
    } else {
      assert calls in m' && m'[calls].Read? && m'[calls].seen < |CountedCalls(m')|;
    }
  }

  lemma CountLoses(metric: nat, calls: nat, m: map<nat, Counting>, t: nat)
    requires MetricInv(metric, calls, m) && Lossy(metric, m) && t in m && m[t].Read?
    ensures Lossy(m[t].seen + 1, m[t := Counted])
  {
    CountedAfter(m, t, 0);
    hide CountedCalls;
    var m' := m[t := Counted];
    if u :| u in m && u != t && m[u].Read? {
      assert u in m' && m'[u].Read? && m'[u].seen < |CountedCalls(m')|;
    } else {
      assert AllWritten(m');
    }
  }

  lemma StepLoses(s: State, a: Action)
    requires Enabled(s, a) && MetricInv(s.metric, |s.calls|, s.counting)
    requires Lossy(s.metric, s.counting) || (a.Enter? && !AllWritten(s.counting))
    ensures Lossy(Apply(s, a).metric, Apply(s, a).counting)
  {
    CountingStep(s, a);
    hide Apply, Lossy, MetricInv;
    if a.Enter? { EnterLoses(s.metric, |s.calls|, s.counting); }
    if a.Count? { CountLoses(s.metric, |s.calls|, s.counting, a.token); }
  }

  lemma StepKeepsMetric(s: State, a: Action)
    requires Enabled(s, a) && MetricInv(s.metric, |s.calls|, s.counting)
    ensures var s' := Apply(s, a); MetricInv(s'.metric, |s'.calls|, s'.counting)
  {
    CountingStep(s, a);
    if a.Enter? { CountedAfter(s.counting, |s.calls|, s.metric); }
    if a.Count? { CountedAfter(s.counting, a.token, 0); }
    hide Apply, CountedCalls;
  }

  lemma {:induction false} RunLoses(s: State, run: seq<Action>)
    requires MetricInv(s.metric, |s.calls|, s.counting) && IsRun(s, run)
    requires Lossy(s.metric, s.counting) || !Serial(s, run)
    ensures var e := After(s, run); Lossy(e.metric, e.counting)
    decreases |run|
  {
    hide Apply, Enabled, Lossy, MetricInv;
    if run != [] {
      StepKeepsMetric(s, run[0]);
      if Lossy(s.metric, s.counting) || (run[0].Enter? && !AllWritten(s.counting)) {
        StepLoses(s, run[0]);
      }
      RunLoses(Apply(s, run[0]), run[1..]);
    }
  }

  /** Once no call is between read and write, the counter is exact if and only if no two increments overlapped. */
  lemma MetricExactIffSerial(run: seq<Action>)
    requires IsRun(START, run) && AllWritten(After(START, run).counting)
    ensures var e := After(START, run); e.metric == |CountedCalls(e.counting)| <==> Serial(START, run)
  {
    assert CountedCalls(START.counting) == {};
    hide Apply, Enabled, CountedCalls;
    if Serial(START, run) {
      SerialMetricIsExact(START, run);
    } else {
      RunLoses(START, run);
    }
  }

  /** A numbered timer that is not armed: it has fired, or was cancelled. */
  ghost predicate Disarmed(s: State, x: nat) {
    x < s.next && x !in s.armed
  }

  lemma StepKeepsDisarmed(s: State, a: Action, x: nat)
    requires Disarmed(s, x) && Enabled(s, a)
    ensures Disarmed(Apply(s, a), x) && a != Fire(x)
  {
  }

  lemma {:induction false} DisarmedNeverFires(s: State, run: seq<Action>, x: nat)
    requires Disarmed(s, x) && IsRun(s, run)
    ensures forall i :: 0 <= i < |run| ==> run[i] != Fire(x)
    decreases |run|
  {
    hide Disarmed, Apply, Enabled;
    if run != [] {
      StepKeepsDisarmed(s, run[0], x);
      DisarmedNeverFires(Apply(s, run[0]), run[1..], x);
      assert run == [run[0]] + run[1..];
    }
  }

  /** Whatever happens later, the timer that a stop or a flush took never fires; the others are left alone. */
  lemma CancelledNeverFires(s: State, a: Action, run: seq<Action>)
    requires Inv(s) && (a == Stop || a == Flush) && s.core.timer.Some? && IsRun(Apply(s, a), run)
    ensures Apply(s, a).armed == s.armed - {s.core.timer.value} && Apply(s, a).core.timer == None
    ensures forall i :: 0 <= i < |run| ==> run[i] != Fire(s.core.timer.value)
  {
    hide Covered, Balanced, Fates;
    DisarmedNeverFires(Apply(s, a), run, s.core.timer.value);
  }

  lemma {:induction false} RunSnoc(s: State, run: seq<Action>, a: Action)
    requires IsRun(s, run) && Enabled(After(s, run), a)
    ensures IsRun(s, run + [a]) && After(s, run + [a]) == Apply(After(s, run), a)
    decreases |run|
  {
    if run == [] {
      assert run + [a] == [a];
    } else {
      assert (run + [a])[1..] == run[1..] + [a];
      hide Apply, Enabled;
      RunSnoc(Apply(s, run[0]), run[1..], a);
    }
  }

  /** Two overlapping calls can leave `metrics_scheduled` at one. */
  lemma ScheduledMetricCanLoseCalls(c: Call)
    ensures exists run ::
      IsRun(START, run) && After(START, run).metric == 1 && |CountedCalls(After(START, run).counting)| == 2
  {
    var run: seq<Action> := [];
    RunSnoc(START, run, Enter(c));
    run := run + [Enter(c)];
    RunSnoc(START, run, Enter(c));
    run := run + [Enter(c)];
    RunSnoc(START, run, Count(0));
    run := run + [Count(0)];
    RunSnoc(START, run, Count(1));
    run := run + [Count(1)];
    assert CountedCalls(After(START, run).counting) == {0, 1};
  }

  /** `is_idle` means that nothing which asked for a scope or a key is still waiting ... */
  lemma IdleMeansNothingAsked(s: State, t: nat)
    requires Inv(s) && IsIdle(s.core) && t in s.pending
    ensures s.calls[t].scope == "" && s.calls[t].key == ""
  {
    var c := s.calls[t];
    assert ScopesOf(s.calls, s.pending) == {} && KeysOf(s.calls, s.pending) == {};
    if c.scope != "" {
      ScopeListed(s.calls, s.pending, t);
    }
    if c.key != "" {
      ScopeListed(s.calls, s.pending, t);
    }
  }

  lemma ScopeListed(calls: seq<Call>, tokens: set<nat>, t: nat)
    requires t in tokens && t < |calls|
    ensures calls[t].scope != "" ==> calls[t].scope in ScopesOf(calls, tokens)
    ensures calls[t].key != "" ==> calls[t].key in KeysOf(calls, tokens)
  {
  }

  // ---- When is_idle hides a run ----

  lemma {:induction false} RunInit(s: State, run: seq<Action>)
    requires IsRun(s, run) && run != []
    ensures var n := |run| - 1;
      IsRun(s, run[..n]) && Enabled(After(s, run[..n]), run[n]) && After(s, run) == Apply(After(s, run[..n]), run[n])
    decreases |run|
  {
    hide Apply, Enabled;
    var n := |run| - 1;
    if n > 0 {
      assert run[1..][..n - 1] == run[..n][1..];
      RunInit(Apply(s, run[0]), run[1..]);
    }
  }

  /** Some run has set the flag since a run last cleared it. */
  ghost predicate BeginSinceFinish(run: seq<Action>) {
    exists i :: 0 <= i < |run| && run[i].Begin? && forall j :: i < j < |run| ==> !run[j].Finish?
  }

  /** Run `r` has drained and has not finished. */
  ghost predicate Unfinished(run: seq<Action>, r: nat) {
    exists i :: 0 <= i < |run| && run[i] == Drain(r) && forall j :: i < j < |run| ==> run[j] != Finish(r)
  }

  lemma BeginSnoc(run: seq<Action>, a: Action)
    ensures BeginSinceFinish(run + [a]) <==> a.Begin? || (BeginSinceFinish(run) && !a.Finish?)
  {
    var run', n := run + [a], |run|;
    assert run'[n] == a;
    if BeginSinceFinish(run) && !a.Finish? {
      var i :| 0 <= i < n && run[i].Begin? && forall j :: i < j < n ==> !run[j].Finish?;
      assert run'[i].Begin?;
    }
    if BeginSinceFinish(run') && !a.Begin? {
      var i :| 0 <= i <= n && run'[i].Begin? && forall j :: i < j <= n ==> !run'[j].Finish?;
      assert run[i].Begin? && forall j :: i < j < n ==> run'[j] == run[j];
    }
  }

  lemma UnfinishedSnoc(run: seq<Action>, a: Action, r: nat)
    ensures Unfinished(run + [a], r) <==> a == Drain(r) || (Unfinished(run, r) && a != Finish(r))
  {
    var run', n := run + [a], |run|;
    assert run'[n] == a;
    if Unfinished(run, r) && a != Finish(r) {
      var i :| 0 <= i < n && run[i] == Drain(r) && forall j :: i < j < n ==> run[j] != Finish(r);
      assert run'[i] == Drain(r);
    }
    if Unfinished(run', r) && a != Drain(r) {
      var i :| 0 <= i <= n && run'[i] == Drain(r) && forall j :: i < j <= n ==> run'[j] != Finish(r);
      assert run[i] == Drain(r) && forall j :: i < j < n ==> run'[j] == run[j];
    }
  }

  lemma FlagStep(s: State, a: Action, r: nat)
    requires Enabled(s, a)
    ensures Apply(s, a).core.executing <==> a.Begin? || (s.core.executing && !a.Finish?)
    ensures r in Apply(s, a).running <==> a == Drain(r) || (r in s.running && a != Finish(r))
  {
  }

  /** The flag and the running runs, read off the history alone. */
  lemma {:induction false} HistoryOfRuns(run: seq<Action>, r: nat)
    requires IsRun(START, run)
    ensures After(START, run).core.executing <==> BeginSinceFinish(run)
    ensures r in After(START, run).running <==> Unfinished(run, r)
    decreases |run|
  {
    hide Apply, Enabled;
    if run != [] {
      var n := |run| - 1;
      RunInit(START, run);
      HistoryOfRuns(run[..n], r);
      FlagStep(After(START, run[..n]), run[n], r);
      assert run == run[..n] + [run[n]];
      BeginSnoc(run[..n], run[n]);
      UnfinishedSnoc(run[..n], run[n], r);
      hide BeginSinceFinish, Unfinished;
    }
  }

  /** No timer is set and no pending call asked for anything. */
  ghost predicate NothingAsked(s: State) {
    s.core.timer.None? && forall t :: t in s.pending && t < |s.calls| ==> s.calls[t].scope == "" && s.calls[t].key == ""
  }

  lemma IdleIffFlagDown(s: State)
    requires Inv(s)
    ensures IsIdle(s.core) <==> NothingAsked(s) && !s.core.executing
  {
    if IsIdle(s.core) {
      forall t | t in s.pending ensures s.calls[t].scope == "" && s.calls[t].key == "" {
        IdleMeansNothingAsked(s, t);
      }
    }
    if NothingAsked(s) {
      assert ScopesOf(s.calls, s.pending) == {} && KeysOf(s.calls, s.pending) == {};
    }
  }

  /**
   `is_idle` reports true while a run has drained and not finished if and only if nothing is asked for
   and no run has begun since one last finished: the gap before the flag is set, and the flag that
   another run has cleared, are the only two ways.
   */
  lemma IdleHidesRunIff(run: seq<Action>)
    requires IsRun(START, run)
    ensures var s := After(START, run);
      IsIdle(s.core) && s.running != {} <==>
        NothingAsked(s) && (exists r :: Unfinished(run, r)) && !BeginSinceFinish(run)
  {
    var s := After(START, run);
    assert Inv(START) by { EmptyBatch([]); }
    RunKeepsInv(START, run);
    IdleIffFlagDown(s);
    forall r: nat ensures r in s.running <==> Unfinished(run, r) {
      HistoryOfRuns(run, r);
    }
    HistoryOfRuns(run, 0);
    hide IsIdle, NothingAsked, Inv, Unfinished, BeginSinceFinish, IsRun, After;
    if s.running != {} {
      var r :| r in s.running;
      assert Unfinished(run, r);
    }
  }

  /** First way: a drained run has not set the flag yet. */
  lemma IdleWhileBatchUnfinished(c: Call)
    ensures exists run :: IsRun(START, run) && IsIdle(After(START, run).core) && After(START, run).running != {}
  {
    hide IsRun, After;
    StartCalm();
    var run := CallDrains(c, 0, []);
    assert 0 in After(START, run).running;
    CalmIsIdle(After(START, run), 1);
  }

  lemma CalmIsIdle(s: State, t: nat)
    requires Calm(s, t) && !s.core.executing
    ensures IsIdle(s.core)
  {
    assert Cleared(s.core).timer == s.core.timer && Cleared(s.core).scopes == s.core.scopes &&
      Cleared(s.core).keys == s.core.keys;
  }

  /** Nothing is armed, in flight or pending, and all numbers used so far are below `t`. */
  ghost predicate Calm(s: State, t: nat) {
    && |s.calls| == t && s.next == t && s.core == Cleared(s.core) && s.armed == {} && s.inflight == {} &&
      s.pending == {}
    && (forall x :: x in s.drained || x in s.discarded || x in s.counting ==> x < t)
  }

  /** Call `t` is pending, and timer `t` is set for it. */
  ghost predicate Waiting(s: State, t: nat) {
    && |s.calls| == t + 1 && s.next == t + 1 && s.core.timer == Some(t) && s.armed == {t} && s.inflight == {} &&
      s.pending == {t}
    && (forall x :: x in s.drained || x in s.discarded || x in s.counting ==> x <= t)
  }

  lemma CallWaits(c: Call, t: nat, past: seq<Action>) returns (run: seq<Action>)
    requires IsRun(START, past) && Calm(After(START, past), t)
    ensures IsRun(START, run) && run == past + [Enter(c), Count(t), Schedule(t)]
    ensures var s, e := After(START, past), After(START, run);
      Waiting(e, t) && e.running == s.running && e.core.executing == s.core.executing
  {
    hide IsRun, After;
    RunSnoc(START, past, Enter(c));
    var r1 := past + [Enter(c)];
    RunSnoc(START, r1, Count(t));
    var r2 := r1 + [Count(t)];
    RunSnoc(START, r2, Schedule(t));
    run := r2 + [Schedule(t)];
    assert run == past + [Enter(c), Count(t), Schedule(t)];
  }

  lemma TimerDrains(t: nat, past: seq<Action>) returns (run: seq<Action>)
    requires IsRun(START, past) && Waiting(After(START, past), t)
    ensures IsRun(START, run) && run == past + [Fire(t), Drain(t)]
    ensures var s, e := After(START, past), After(START, run);
      Calm(e, t + 1) && e.running == s.running + {t} && e.core.executing == s.core.executing
  {
    hide IsRun, After;
    RunSnoc(START, past, Fire(t));
    var r1 := past + [Fire(t)];
    RunSnoc(START, r1, Drain(t));
    run := r1 + [Drain(t)];
    assert run == past + [Fire(t), Drain(t)];
  }

  /** A call is scheduled, its timer fires and its run drains, after a history that left nothing pending. */
  lemma CallDrains(c: Call, t: nat, past: seq<Action>) returns (run: seq<Action>)
    requires IsRun(START, past) && Calm(After(START, past), t)
    ensures IsRun(START, run) && run == past + [Enter(c), Count(t), Schedule(t), Fire(t), Drain(t)]
    ensures var s, e := After(START, past), After(START, run);
      Calm(e, t + 1) && e.running == s.running + {t} && e.core.executing == s.core.executing
  {
    hide IsRun, After, Calm, Waiting;
    var r := CallWaits(c, t, past);
    run := TimerDrains(t, r);
  }

  /** Second way: run 0 finishes and clears the flag that run 1 has set. */
  lemma IdleWhileOtherRunExecutes(c: Call)
    ensures exists run ::
      IsRun(START, run) && IsIdle(After(START, run).core) && HasBegun(run, 1) && 1 in After(START, run).running
  {
    hide IsRun, After, Calm, IsIdle;
    StartCalm();
    var r1 := CallDrains(c, 0, []);
    RunSnoc(START, r1, Begin(0));
    var r2 := r1 + [Begin(0)];
    CalmStays(After(START, r1), Begin(0), 1);
    var r3 := CallDrains(c, 1, r2);
    RunSnoc(START, r3, Begin(1));
    var r4 := r3 + [Begin(1)];
    CalmStays(After(START, r3), Begin(1), 2);
    RunSnoc(START, r4, Finish(0));
    var r5 := r4 + [Finish(0)];
    CalmStays(After(START, r4), Finish(0), 2);
    CalmIsIdle(After(START, r5), 2);
    assert r5[|r3|] == Begin(1);
  }

  predicate HasBegun(run: seq<Action>, r: nat) {
    Begin(r) in run
  }

  lemma CalmStays(s: State, a: Action, t: nat)
    requires Calm(s, t) && (a.Begin? || a.Finish?) && Enabled(s, a)
    ensures Calm(Apply(s, a), t)
  {
  }

  lemma StartCalm()
    ensures IsRun(START, []) && After(START, []) == START && Calm(START, 0)
  {
  }
}
