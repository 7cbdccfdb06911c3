/**
 Whole runs of the browser client's worker pool: what holds at every await of every run, and that runs end.
 */
module ClientRuns {
  import opened Base
  import opened ClientPool

  // ---- How a run starts --------------------------------------------------------------------------------

  function Members(xs: seq<nat>): set<nat> { set x | x in xs }

  /** The chunks from `i` on that the server does not have yet, in ascending order. */
  function MissingFrom(i: nat, total: nat, received: set<nat>): seq<Item>
    requires i <= total
    decreases total - i
  {
    if i == total then []
    else if i in received then MissingFrom(i + 1, total, received)
    else [Item(i, 0)] + MissingFrom(i + 1, total, received)
  }

  /** The state when runUpload first awaits. */
  function Start(total: nat, alreadyReceived: seq<nat>, adaptive: nat): Pool {
    Pump(BeforePump(total, Members(alreadyReceived), adaptive))
  }

  function BeforePump(total: nat, received: set<nat>, adaptive: nat): Pool {
    Pool(total, received, |received|, MissingFrom(0, total, received), [], 0, adaptive, false, false, false, map[], None)
  }

  lemma {:induction false} MissingItems(i: nat, total: nat, received: set<nat>, k: nat)
    requires i <= total && k < |MissingFrom(i, total, received)|
    ensures i <= MissingFrom(i, total, received)[k].index < total
    ensures MissingFrom(i, total, received)[k].retries == 0
    decreases total - i
  {
    if i in received {
      MissingItems(i + 1, total, received, k);
    } else if k > 0 {
      MissingItems(i + 1, total, received, k - 1);
    }
  }

  lemma {:induction false} MissingCounts(i: nat, total: nat, received: set<nat>, j: nat)
    requires i <= total
    ensures Queued(MissingFrom(i, total, received), j) == if i <= j < total && j !in received then 1 else 0
    decreases total - i
  {
    if i < total {
      MissingCounts(i + 1, total, received, j);
      var rest := MissingFrom(i + 1, total, received);
      assert ([Item(i, 0)] + rest)[1..] == rest;
    }
  }

  lemma {:induction false} MissingRank(i: nat, total: nat, received: set<nat>)
    requires i <= total
    ensures QueueRank(MissingFrom(i, total, received)) <= 43 * (total - i)
    decreases total - i
  {
    if i < total {
      MissingRank(i + 1, total, received);
      var rest := MissingFrom(i + 1, total, received);
      assert ([Item(i, 0)] + rest)[1..] == rest;
    }
  }

  lemma StartIsGood(total: nat, alreadyReceived: seq<nat>, adaptive: nat)
    requires MIN_WORKERS <= adaptive <= MAX_WORKERS_CAP
    ensures Inv(Start(total, alreadyReceived, adaptive))
    ensures Measure(Start(total, alreadyReceived, adaptive)) <= 43 * total
  {
    var received := Members(alreadyReceived);
    var p := BeforePump(total, received, adaptive);
    forall i: nat
      ensures Places(p, i) == if i < total || i in received then 1 else 0
    {
      MissingCounts(0, total, received, i);
    }
    forall k | 0 <= k < |p.queue|
      ensures p.queue[k].index < total && p.queue[k].retries == 0
    {
      MissingItems(0, total, received, k);
    }
    PumpKeeps(p);
    PumpMeasure(p);
    MissingRank(0, total, received);
  }

  // ---- Finite runs: what holds at every await ----------------------------------------------------------

  datatype Trace = Trace(states: seq<Pool>, steps: seq<Step>)

  ghost predicate IsTrace(t: Trace) {
    && |t.states| == |t.steps| + 1
    && forall k :: 0 <= k < |t.steps| ==> Enabled(t.states[k], t.steps[k]) && t.states[k + 1] == Apply(t.states[k], t.steps[k])
  }

  ghost predicate StartsFrom(t: Trace, total: nat, alreadyReceived: seq<nat>) {
    && IsTrace(t)
    && exists adaptive: nat :: MIN_WORKERS <= adaptive <= MAX_WORKERS_CAP && t.states[0] == Start(total, alreadyReceived, adaptive)
  }

  /** The chunk whose request step `k` acknowledges, if any. */
  function AckedAt(p: Pool, step: Step): set<nat>
    requires Enabled(p, step)
  {
    if step.RequestSucceeds? then {p.workers[step.w].item.index} else {}
  }

  function WorkerSteps(steps: seq<Step>): nat {
    if steps == [] then 0 else WorkerSteps(steps[..|steps| - 1]) + (if WorkerStep(steps[|steps| - 1]) then 1 else 0)
  }

  lemma {:induction false} PumpKeepsTheRest(p: Pool)
    ensures var q := Pump(p); q.total == p.total && q.received == p.received && q.outcome == p.outcome
    decreases |p.queue|
  {
    if MayPump(p) {
      PumpKeepsTheRest(Launch(p));
    }
  }

  /** A chunk is received exactly when its request is acknowledged; nothing forgets a received chunk. */
  lemma StepReceives(p: Pool, step: Step)
    requires Enabled(p, step)
    ensures Apply(p, step).received == p.received + AckedAt(p, step)
    ensures Apply(p, step).total == p.total
    ensures p.outcome.Some? || !step.Poll? ==> Apply(p, step).outcome == p.outcome
  {
    match step
    case WorkerLeaves(w) =>
      PumpKeepsTheRest(p.(activeWorkers := p.activeWorkers - 1, workers := p.workers[..w] + p.workers[w + 1..]));
    case Poll => PumpKeepsTheRest(p);
    case RequestSucceeds(w, adapted) =>
    case RequestFails(w) =>
    case TimerFires(w) =>
    case PressPause =>
    case PressCancel =>
  }

  lemma {:induction false} TraceUpTo(t: Trace, total: nat, alreadyReceived: seq<nat>, k: nat)
    requires StartsFrom(t, total, alreadyReceived) && k <= |t.steps|
    ensures Inv(t.states[k]) && t.states[k].total == total
    ensures WorkerSteps(t.steps[..k]) + Measure(t.states[k]) <= 43 * total
    ensures forall i :: i in t.states[k].received ==>
      i in alreadyReceived || exists j :: 0 <= j < k && i in AckedAt(t.states[j], t.steps[j])
  {
    hide Inv, Measure, Apply, Enabled;
    if k == 0 {
      var adaptive: nat :| MIN_WORKERS <= adaptive <= MAX_WORKERS_CAP && t.states[0] == Start(total, alreadyReceived, adaptive);
      StartIsGood(total, alreadyReceived, adaptive);
      PumpKeepsTheRest(BeforePump(total, Members(alreadyReceived), adaptive));
    } else {
      TraceUpTo(t, total, alreadyReceived, k - 1);
      var p, step := t.states[k - 1], t.steps[k - 1];
      assert t.states[k - 1 + 1] == Apply(p, step);
      StepKeeps(p, step);
      StepMeasure(p, step);
      StepReceives(p, step);
      assert t.steps[..k][..k - 1] == t.steps[..k - 1];
      forall i | i in t.states[k].received
        ensures i in alreadyReceived || exists j :: 0 <= j < k && i in AckedAt(t.states[j], t.steps[j])
      {
        if i in AckedAt(p, step) {
          assert i in AckedAt(t.states[k - 1], t.steps[k - 1]);
        }
      }
    }
  }

  /**
   At every await of every run: no chunk is in two of received, queue and in flight, and before a cancel or a fatal
   error each is in exactly one; the counters are exact; at most twelve workers live; no chunk is tried five times.
   */
  lemma PoolConservation(t: Trace, total: nat, alreadyReceived: seq<nat>, k: nat)
    requires StartsFrom(t, total, alreadyReceived) && k < |t.states|
    ensures var p := t.states[k];
      && (forall i: nat :: Places(p, i) <= 1)
      && (!p.cancelRequested && !p.fatalError ==> forall i: nat :: i < total ==> Places(p, i) == 1)
      && p.uploadedCount == |p.received|
      && p.activeWorkers == |p.workers| <= 12
      && (forall i :: i in p.attempts ==> p.attempts[i] <= 4)
  {
    TraceUpTo(t, total, alreadyReceived, k);
  }

  /** Complete is called only after the server has acknowledged every chunk, in this run or before it. */
  lemma CompleteMeansAcknowledged(t: Trace, total: nat, alreadyReceived: seq<nat>, k: nat, i: nat)
    requires StartsFrom(t, total, alreadyReceived) && k < |t.states|
    requires t.states[k].outcome == Some(CallsComplete) && i < total
    ensures i in alreadyReceived || exists j :: 0 <= j < k && i in AckedAt(t.states[j], t.steps[j])
  {
    TraceUpTo(t, total, alreadyReceived, k);
    assert i in t.states[k].received;
  }

  /** However requests fail and the worker count adapts, a run has at most 43 worker callbacks per chunk. */
  lemma BoundedWork(t: Trace, total: nat, alreadyReceived: seq<nat>)
    requires StartsFrom(t, total, alreadyReceived)
    ensures WorkerSteps(t.steps) <= 43 * total
  {
    hide Inv, Measure;
    TraceUpTo(t, total, alreadyReceived, |t.steps|);
    assert t.steps[..|t.steps|] == t.steps;
  }

  // ---- Infinite runs: every fair run ends --------------------------------------------------------------

  ghost predicate IsInfiniteRun(states: nat -> Pool, steps: nat -> Step) {
    forall t: nat :: Enabled(states(t), steps(t)) && states(t + 1) == Apply(states(t), steps(t))
  }

  /** While workers live, one of their requests, timers or `finally` callbacks comes sooner or later. */
  ghost predicate RequestsSettle(states: nat -> Pool, steps: nat -> Step) {
    forall t: nat :: states(t).workers != [] ==> exists u: nat :: t <= u && WorkerStep(steps(u))
  }

  /** Until the run ends, the polling timer keeps firing. */
  ghost predicate PollsRecur(states: nat -> Pool, steps: nat -> Step) {
    forall t: nat :: states(t).outcome.None? ==> exists u: nat :: t <= u && (steps(u).Poll? || states(u).outcome.Some?)
  }

  lemma {:induction false} Onward(states: nat -> Pool, steps: nat -> Step, t: nat, u: nat)
    requires IsInfiniteRun(states, steps) && Inv(states(t)) && t <= u
    ensures Inv(states(u)) && Measure(states(u)) <= Measure(states(t))
    ensures states(t).outcome.Some? ==> states(u).outcome == states(t).outcome
    decreases u - t
  {
    hide Inv, Measure, Apply, Enabled;
    if t < u {
      Onward(states, steps, t, u - 1);
      assert states(u - 1 + 1) == Apply(states(u - 1), steps(u - 1));
      StepKeeps(states(u - 1), steps(u - 1));
      StepMeasure(states(u - 1), steps(u - 1));
      StepReceives(states(u - 1), steps(u - 1));
    }
  }

  /** Without live workers, only a poll or a click can come next; a click leaves the pool's workers alone. */
  lemma {:induction false} QuietUntilPoll(states: nat -> Pool, steps: nat -> Step, t: nat, u: nat)
    requires IsInfiniteRun(states, steps) && states(t).workers == [] && t <= u
    requires forall v: nat :: t <= v < u ==> !steps(v).Poll?
    ensures states(u).workers == []
    decreases u - t
  {
    if t < u {
      QuietUntilPoll(states, steps, t, u - 1);
      assert states(u - 1 + 1) == Apply(states(u - 1), steps(u - 1));
    }
  }

  lemma {:induction false} FirstPoll(steps: nat -> Step, t: nat, u: nat) returns (first: nat)
    requires t <= u && steps(u).Poll?
    ensures t <= first <= u && steps(first).Poll?
    ensures forall v: nat :: t <= v < first ==> !steps(v).Poll?
    decreases u - t
  {
    first := t;
    if !steps(t).Poll? {
      first := FirstPoll(steps, t + 1, u);
    }
  }

  /** From every state of a fair run, some later state has ended or has less left to do. */
  lemma Progress(states: nat -> Pool, steps: nat -> Step, t: nat) returns (u: nat)
    requires IsInfiniteRun(states, steps) && RequestsSettle(states, steps) && PollsRecur(states, steps)
    requires Inv(states(t))
    ensures t <= u && Inv(states(u))
    ensures states(u).outcome.Some? || Measure(states(u)) < Measure(states(t))
  {
    hide Inv, Measure, Apply, Enabled, Polled;
    if states(t).outcome.Some? {
      u := t;
    } else if states(t).workers != [] {
      var v: nat :| t <= v && WorkerStep(steps(v));
      Onward(states, steps, t, v);
      Onward(states, steps, v, v + 1);
      StepMeasure(states(v), steps(v));
      u := v + 1;
    } else {
      var v: nat :| t <= v && (steps(v).Poll? || states(v).outcome.Some?);
      Onward(states, steps, t, v);
      if states(v).outcome.Some? {
        u := v;
      } else {
        var f := FirstPoll(steps, t, v);
        Onward(states, steps, t, f);
        QuietUntilPoll(states, steps, t, f);
        u := PollActs(states, steps, f);
        Onward(states, steps, f, u);
      }
    }
  }

  lemma PollActs(states: nat -> Pool, steps: nat -> Step, f: nat) returns (u: nat)
    requires IsInfiniteRun(states, steps) && Inv(states(f)) && states(f).workers == [] && steps(f).Poll?
    ensures f <= u
    ensures states(u).outcome.Some? || Measure(states(u)) < Measure(states(f))
  {
    hide Inv, Measure, Polled;
    u := f + 1;
    NeverStuck(states(f));
    assert states(f + 1) == Apply(states(f), steps(f));
  }

  /** Every fair run ends in complete, pause, cancel or a fatal error, and stays ended. */
  lemma {:induction false} EveryFairRunEnds(states: nat -> Pool, steps: nat -> Step, t: nat) returns (end: nat)
    requires IsInfiniteRun(states, steps) && RequestsSettle(states, steps) && PollsRecur(states, steps)
    requires Inv(states(t))
    ensures forall u: nat :: end <= u ==> states(u).outcome.Some? && states(u).outcome == states(end).outcome
    decreases Measure(states(t))
  {
    hide Inv, Measure, Apply, Enabled;
    var u := Progress(states, steps, t);
    if states(u).outcome.Some? {
      end := u;
      forall v: nat | end <= v
        ensures states(v).outcome.Some? && states(v).outcome == states(end).outcome
      {
        Onward(states, steps, end, v);
      }
    } else {
      end := EveryFairRunEnds(states, steps, u);
    }
  }

  ghost predicate EndedFrom(states: nat -> Pool, end: nat, o: Outcome) {
    forall u: nat :: end <= u ==> states(u).outcome == Some(o)
  }

  /** A fair run of the client from its start ends. */
  lemma UploadEnds(states: nat -> Pool, steps: nat -> Step, total: nat, alreadyReceived: seq<nat>, adaptive: nat)
    requires MIN_WORKERS <= adaptive <= MAX_WORKERS_CAP && states(0) == Start(total, alreadyReceived, adaptive)
    requires IsInfiniteRun(states, steps) && RequestsSettle(states, steps) && PollsRecur(states, steps)
    ensures exists end: nat, o :: EndedFrom(states, end, o)
  {
    hide Inv, Measure, Apply, Enabled;
    StartIsGood(total, alreadyReceived, adaptive);
    var end := EveryFairRunEnds(states, steps, 0);
    assert states(end).outcome.Some?;
    assert EndedFrom(states, end, states(end).outcome.value);
  }
}
