/**
 Which end a run of the browser client comes to: by its clicks and by the failures of its requests, exactly; and that a
 fair run without clicks, in which no chunk fails four times, calls complete.
 */
module ClientOutcomes {
  import opened Base
  import opened ClientPool
  import opened ClientRuns

  // ---- What happened in a run --------------------------------------------------------------------------

  /** How often requests for chunk `i` failed in the first `k` steps. */
  function Fails(t: Trace, i: nat, k: nat): nat
    requires k <= |t.steps| && |t.states| == |t.steps| + 1
  {
    if k == 0 then 0 else Fails(t, i, k - 1) + (if FailsNow(t.states[k - 1], t.steps[k - 1], i) then 1 else 0)
  }

  predicate FailsNow(p: Pool, step: Step, i: nat) {
    step.RequestFails? && step.w < |p.workers| && p.workers[step.w].InFlight? && p.workers[step.w].item.index == i
  }

  /** One of the first `k` steps is this click. */
  ghost predicate Clicked(t: Trace, k: nat, click: Step) { exists j :: 0 <= j < k && j < |t.steps| && t.steps[j] == click }

  /** Step `j` is a chunk's fourth failure, with no cancel before it. */
  ghost predicate FourthFailure(t: Trace, j: nat)
    requires |t.states| == |t.steps| + 1
  {
    && j < |t.steps| && t.steps[j].RequestFails? && t.steps[j].w < |t.states[j].workers| && t.states[j].workers[t.steps[j].w].InFlight?
    && Fails(t, t.states[j].workers[t.steps[j].w].item.index, j + 1) == 4
    && !Clicked(t, j, PressCancel)
  }

  ghost predicate GaveUp(t: Trace, k: nat)
    requires |t.states| == |t.steps| + 1
  {
    exists j: nat :: j < k && FourthFailure(t, j)
  }

  // ---- What a step does to the flags -------------------------------------------------------------------

  ghost predicate SameFlags(p: Pool, q: Pool) {
    q.cancelRequested == p.cancelRequested && q.pauseRequested == p.pauseRequested && q.fatalError == p.fatalError
  }

  lemma {:induction false} PumpFlags(p: Pool)
    ensures SameFlags(p, Pump(p))
    decreases |p.queue|
  {
    if MayPump(p) {
      PumpFlags(Launch(p));
    }
  }

  /** The step is a failure that is not retried. */
  predicate LastFailure(p: Pool, step: Step) {
    && step.RequestFails? && step.w < |p.workers| && p.workers[step.w].InFlight?
    && p.workers[step.w].item.retries >= 3 && !p.cancelRequested
  }

  lemma StepFlags(p: Pool, step: Step)
    requires Enabled(p, step)
    ensures var q := Apply(p, step);
            && q.cancelRequested == (p.cancelRequested || step.PressCancel?)
            && q.pauseRequested == (!step.PressCancel? && (p.pauseRequested || step.PressPause?))
            && q.fatalError == (p.fatalError || LastFailure(p, step))
  {
    match step
    case WorkerLeaves(w) => PumpFlags(p.(activeWorkers := p.activeWorkers - 1, workers := p.workers[..w] + p.workers[w + 1..]));
    case Poll => PumpFlags(p);
    case RequestSucceeds(w, adapted) =>
    case RequestFails(w) =>
    case TimerFires(w) =>
    case PressPause =>
    case PressCancel =>
  }

  /** The exits of the polling loop, each by its flag. */
  lemma PollDecides(p: Pool)
    requires p.outcome.None? && Polled(p).outcome.Some?
    ensures Polled(p).outcome == Some(
      if p.fatalError then Throws else if p.cancelRequested then Cancelled else if p.pauseRequested then Paused else CallsComplete)
  {
    PumpKeepsTheRest(p);
  }

  // ---- Retries are failures ----------------------------------------------------------------------------

  /** The items that wait or fly. */
  ghost predicate Pends(p: Pool, item: Item) {
    item in p.queue || exists w :: 0 <= w < |p.workers| && p.workers[w] == InFlight(item)
  }

  /** Nothing pends after that did not pend before. */
  ghost predicate NoNew(p: Pool, q: Pool) { forall item :: Pends(q, item) ==> Pends(p, item) }

  lemma ShiftPends(p: Pool, w: nat)
    requires w < |p.workers| && p.queue != []
    ensures NoNew(p, Shift(p, w))
  {
    var q := Shift(p, w);
    forall item | Pends(q, item)
      ensures Pends(p, item)
    {
      if item in q.queue {
        assert item in p.queue;
      } else {
        var v :| 0 <= v < |q.workers| && q.workers[v] == InFlight(item);
        if v == w {
          assert p.queue[0] in p.queue;
        } else {
          assert p.workers[v] == InFlight(item);
        }
      }
    }
  }

  lemma LoopTopPends(p: Pool, w: nat)
    requires w < |p.workers|
    ensures NoNew(p, LoopTop(p, w))
  {
    if p.queue != [] {
      ShiftPends(p, w);
    }
    var q := p.(workers := p.workers[w := Leaving]);
    forall item | Pends(q, item)
      ensures Pends(p, item)
    {
      if item !in q.queue {
        var v :| 0 <= v < |q.workers| && q.workers[v] == InFlight(item);
        assert p.workers[v] == InFlight(item);
      }
    }
  }

  lemma {:induction false} PumpPends(p: Pool)
    ensures NoNew(p, Pump(p))
    decreases |p.queue|
  {
    hide LoopTop;
    if MayPump(p) {
      var q := p.(activeWorkers := p.activeWorkers + 1, workers := p.workers + [Leaving]);
      assert NoNew(p, q) by { AddedWorker(p, q); }
      LoopTopPends(q, |p.workers|);
      LaunchShrinks(p);
      PumpPends(Launch(p));
    }
  }

  lemma AddedWorker(p: Pool, q: Pool)
    requires q.queue == p.queue && q.workers == p.workers + [Leaving]
    ensures NoNew(p, q)
  {
    forall item | Pends(q, item)
      ensures Pends(p, item)
    {
      if item !in q.queue {
        var v :| 0 <= v < |q.workers| && q.workers[v] == InFlight(item);
        assert p.workers[v] == InFlight(item);
      }
    }
  }

  lemma RemovedWorker(p: Pool, q: Pool, w: nat)
    requires w < |p.workers| && q.queue == p.queue && q.workers == p.workers[..w] + p.workers[w + 1..]
    ensures NoNew(p, q)
  {
    forall item | Pends(q, item)
      ensures Pends(p, item)
    {
      if item !in q.queue {
        var v :| 0 <= v < |q.workers| && q.workers[v] == InFlight(item);
        assert p.workers[if v < w then v else v + 1] == InFlight(item);
      }
    }
  }

  /** Only a failed request puts a new item in the queue. */
  lemma StepPends(p: Pool, step: Step)
    requires Enabled(p, step) && !step.RequestFails?
    ensures NoNew(p, Apply(p, step))
  {
    hide LoopTop, Pump;
    match step
    case RequestSucceeds(w, adapted) =>
      var q := p.(received := p.received + {p.workers[w].item.index}, uploadedCount := p.uploadedCount + 1, adaptiveWorkers := adapted);
      assert NoNew(p, q);
      LoopTopPends(q, w);
    case TimerFires(w) => LoopTopPends(p, w);
    case WorkerLeaves(w) =>
      var q := p.(activeWorkers := p.activeWorkers - 1, workers := p.workers[..w] + p.workers[w + 1..]);
      RemovedWorker(p, q, w);
      PumpPends(q);
    case Poll => PumpPends(p);
    case PressPause =>
    case PressCancel =>
  }

  /** No other item has the index of one in flight. */
  lemma FlightIsAlone(p: Pool, w: nat, item: Item)
    requires AtMostOnePlace(p) && w < |p.workers| && p.workers[w].InFlight? && item.index == p.workers[w].item.index
    ensures item !in p.queue
    ensures forall v :: 0 <= v < |p.workers| && v != w ==> p.workers[v] != InFlight(item)
  {
    var i := item.index;
    assert Places(p, i) <= 1;
    FlyingPositive(p.workers, w);
    if item in p.queue {
      var k :| 0 <= k < |p.queue| && p.queue[k] == item;
      QueuedPositive(p.queue, k);
    }
    FlyingUpdate(p.workers, w, Leaving, i);
    forall v | 0 <= v < |p.workers| && v != w
      ensures p.workers[v] != InFlight(item)
    {
      if p.workers[v] == InFlight(item) {
        FlyingPositive(p.workers[w := Leaving], v);
      }
    }
  }

  /** After a failed request, what pends with its index is the item with one more retry; the rest pended before. */
  lemma FailurePends(p: Pool, w: nat, item: Item)
    requires Inv(p) && w < |p.workers| && p.workers[w].InFlight? && Pends(Failed(p, w), item)
    ensures var it := p.workers[w].item;
            if item.index == it.index then item == it.(retries := it.retries + 1) else Pends(p, item)
  {
    var q, it := Failed(p, w), p.workers[w].item;
    assert AtMostOnePlace(p);
    hide Inv;
    if item.index == it.index {
      FlightIsAlone(p, w, item);
    }
    if item !in q.queue {
      var v :| 0 <= v < |q.workers| && q.workers[v] == InFlight(item);
      assert v != w;
      assert p.workers[v] == InFlight(item);
    }
  }

  /** Every pending item has been retried as often as its chunk failed. */
  ghost predicate RetriesAreFails(t: Trace, k: nat)
    requires k <= |t.steps| && |t.states| == |t.steps| + 1
  {
    forall item :: Pends(t.states[k], item) ==> item.retries == Fails(t, item.index, k)
  }

  lemma StartPends(total: nat, alreadyReceived: seq<nat>, adaptive: nat, item: Item)
    requires Pends(Start(total, alreadyReceived, adaptive), item)
    ensures item.retries == 0
  {
    hide Pump;
    var p := BeforePump(total, Members(alreadyReceived), adaptive);
    PumpPends(p);
    assert Pends(p, item);
    var k :| 0 <= k < |p.queue| && p.queue[k] == item;
    MissingItems(0, total, Members(alreadyReceived), k);
  }

  lemma {:induction false} RetriesCount(t: Trace, total: nat, alreadyReceived: seq<nat>, k: nat)
    requires StartsFrom(t, total, alreadyReceived) && k <= |t.steps|
    ensures RetriesAreFails(t, k)
  {
    hide Apply, Enabled, Inv, Pends;
    if k == 0 {
      var adaptive: nat :| MIN_WORKERS <= adaptive <= MAX_WORKERS_CAP && t.states[0] == Start(total, alreadyReceived, adaptive);
      forall item | Pends(t.states[0], item)
        ensures item.retries == Fails(t, item.index, 0)
      {
        StartPends(total, alreadyReceived, adaptive, item);
      }
    } else {
      RetriesCount(t, total, alreadyReceived, k - 1);
      TraceUpTo(t, total, alreadyReceived, k - 1);
      var p, step := t.states[k - 1], t.steps[k - 1];
      assert Enabled(p, step) && t.states[k - 1 + 1] == Apply(p, step);
      forall item | Pends(t.states[k], item)
        ensures item.retries == Fails(t, item.index, k)
      {
        OneStepRetries(p, step, item);
        if FailsNow(p, step, item.index) {
          assert Pends(p, p.workers[step.w].item) by { FlyingPends(p, step.w); }
        }
      }
    }
  }

  lemma FlyingPends(p: Pool, w: nat)
    requires w < |p.workers| && p.workers[w].InFlight?
    ensures Pends(p, p.workers[w].item)
  {
    assert p.workers[w] == InFlight(p.workers[w].item);
  }

  lemma OneStepRetries(p: Pool, step: Step, item: Item)
    requires Inv(p) && Enabled(p, step) && Pends(Apply(p, step), item)
    ensures if FailsNow(p, step, item.index) then item.retries == p.workers[step.w].item.retries + 1 else Pends(p, item)
  {
    hide Inv;
    if step.RequestFails? {
      FailurePends(p, step.w, item);
    } else {
      StepPends(p, step);
    }
  }

  // ---- Flags are history -------------------------------------------------------------------------------

  lemma ClickedGrows(t: Trace, k: nat, click: Step)
    requires 0 < k <= |t.steps|
    ensures Clicked(t, k, click) <==> Clicked(t, k - 1, click) || t.steps[k - 1] == click
  {
    if Clicked(t, k, click) {
      var j :| 0 <= j < k && j < |t.steps| && t.steps[j] == click;
      assert j == k - 1 || j < k - 1;
    }
    if t.steps[k - 1] == click {
      assert Clicked(t, k, click);
    }
  }

  lemma GaveUpGrows(t: Trace, k: nat)
    requires |t.states| == |t.steps| + 1 && 0 < k <= |t.steps|
    ensures GaveUp(t, k) <==> GaveUp(t, k - 1) || FourthFailure(t, k - 1)
  {
    hide FourthFailure;
    if GaveUp(t, k) {
      var j: nat :| j < k && FourthFailure(t, j);
      assert j == k - 1 || j < k - 1;
    }
  }

  /** The flags of every state tell what happened before it. */
  lemma {:induction false} FlagsAreHistory(t: Trace, total: nat, alreadyReceived: seq<nat>, k: nat)
    requires StartsFrom(t, total, alreadyReceived) && k <= |t.steps|
    ensures var p := t.states[k];
            && (p.cancelRequested <==> Clicked(t, k, PressCancel))
            && (!p.cancelRequested ==> (p.pauseRequested <==> Clicked(t, k, PressPause)))
            && (p.fatalError <==> GaveUp(t, k))
  {
    hide Apply, Enabled, Inv, FourthFailure, GaveUp, Clicked;
    if k == 0 {
      var adaptive: nat :| MIN_WORKERS <= adaptive <= MAX_WORKERS_CAP && t.states[0] == Start(total, alreadyReceived, adaptive);
      PumpFlags(BeforePump(total, Members(alreadyReceived), adaptive));
      NothingYet(t);
    } else {
      FlagsAreHistory(t, total, alreadyReceived, k - 1);
      TraceUpTo(t, total, alreadyReceived, k - 1);
      RetriesCount(t, total, alreadyReceived, k - 1);
      var p, step := t.states[k - 1], t.steps[k - 1];
      assert Enabled(p, step) && t.states[k - 1 + 1] == Apply(p, step);
      StepFlags(p, step);
      ClickedGrows(t, k, PressCancel);
      ClickedGrows(t, k, PressPause);
      GaveUpGrows(t, k);
      FourthIsLast(t, k - 1);
    }
  }

  lemma NothingYet(t: Trace)
    requires |t.states| == |t.steps| + 1
    ensures !Clicked(t, 0, PressCancel) && !Clicked(t, 0, PressPause) && !GaveUp(t, 0)
  {
  }

  lemma FourthIsLast(t: Trace, j: nat)
    requires |t.states| == |t.steps| + 1 && j < |t.steps| && RetriesAreFails(t, j) && Inv(t.states[j])
    requires t.states[j].cancelRequested <==> Clicked(t, j, PressCancel)
    ensures FourthFailure(t, j) <==> LastFailure(t.states[j], t.steps[j])
  {
    hide Clicked, Pends;
    var p, step := t.states[j], t.steps[j];
    if step.RequestFails? && step.w < |p.workers| && p.workers[step.w].InFlight? {
      FlyingPends(p, step.w);
      var item := p.workers[step.w].item;
      assert item.retries == Fails(t, item.index, j) && item.retries <= 3;
      assert FailsNow(p, step, item.index);
    }
  }

  /**
   The poll that ends a run decides by what happened before it, exactly: it throws when some chunk had failed four times
   before any cancel; else it stops cancelled when cancel was pressed; else paused when pause was pressed; else it calls
   complete.
   */
  lemma OutcomeTells(t: Trace, total: nat, alreadyReceived: seq<nat>, k: nat)
    requires StartsFrom(t, total, alreadyReceived) && k < |t.steps|
    requires t.states[k].outcome.None? && t.states[k + 1].outcome.Some?
    ensures t.steps[k].Poll?
    ensures var o := t.states[k + 1].outcome.value;
            && (o == Throws <==> GaveUp(t, k))
            && (o == Cancelled <==> !GaveUp(t, k) && Clicked(t, k, PressCancel))
            && (o == Paused <==> !GaveUp(t, k) && !Clicked(t, k, PressCancel) && Clicked(t, k, PressPause))
            && (o == CallsComplete <==> !GaveUp(t, k) && !Clicked(t, k, PressCancel) && !Clicked(t, k, PressPause))
  {
    hide GaveUp, Clicked, Inv;
    assert Enabled(t.states[k], t.steps[k]) && t.states[k + 1] == Apply(t.states[k], t.steps[k]);
    StepReceives(t.states[k], t.steps[k]);
    FlagsAreHistory(t, total, alreadyReceived, k);
    PollDecides(t.states[k]);
  }

  // ---- A run without clicks or lost chunks -------------------------------------------------------------

  /** The first `n` steps of an infinite run. */
  function Prefix(states: nat -> Pool, steps: nat -> Step, n: nat): Trace {
    Trace(seq(n + 1, i requires 0 <= i < n + 1 => states(i)), seq(n, i requires 0 <= i < n => steps(i)))
  }

  lemma PrefixStarts(states: nat -> Pool, steps: nat -> Step, n: nat, total: nat, alreadyReceived: seq<nat>, adaptive: nat)
    requires MIN_WORKERS <= adaptive <= MAX_WORKERS_CAP && states(0) == Start(total, alreadyReceived, adaptive)
    requires IsInfiniteRun(states, steps)
    ensures StartsFrom(Prefix(states, steps, n), total, alreadyReceived)
  {
    hide Apply, Enabled, Start;
    var t := Prefix(states, steps, n);
    forall k | 0 <= k < |t.steps|
      ensures Enabled(t.states[k], t.steps[k]) && t.states[k + 1] == Apply(t.states[k], t.steps[k])
    {
      assert Enabled(states(k), steps(k)) && states(k + 1) == Apply(states(k), steps(k));
    }
  }

  ghost predicate NoClicks(steps: nat -> Step) { forall n: nat :: !steps(n).PressPause? && !steps(n).PressCancel? }

  /** No chunk ever fails four times. */
  ghost predicate NoChunkIsLost(states: nat -> Pool, steps: nat -> Step) {
    forall n: nat, i: nat :: Fails(Prefix(states, steps, n), i, n) < 4
  }

  lemma {:induction false} FailsOfPrefix(states: nat -> Pool, steps: nat -> Step, n: nat, i: nat, k: nat)
    requires k <= n
    ensures Fails(Prefix(states, steps, n), i, k) == Fails(Prefix(states, steps, k), i, k)
    decreases k
  {
    if k > 0 {
      FailsOfPrefix(states, steps, n, i, k - 1);
      FailsOfPrefix(states, steps, k, i, k - 1);
    }
  }

  lemma CleanFlags(states: nat -> Pool, steps: nat -> Step, n: nat, total: nat, alreadyReceived: seq<nat>, adaptive: nat)
    requires MIN_WORKERS <= adaptive <= MAX_WORKERS_CAP && states(0) == Start(total, alreadyReceived, adaptive)
    requires IsInfiniteRun(states, steps) && NoClicks(steps) && NoChunkIsLost(states, steps)
    ensures !states(n).cancelRequested && !states(n).pauseRequested && !states(n).fatalError
  {
    hide Start, IsInfiniteRun;
    var t := Prefix(states, steps, n);
    PrefixStarts(states, steps, n, total, alreadyReceived, adaptive);
    FlagsAreHistory(t, total, alreadyReceived, n);
    if GaveUp(t, n) {
      var j: nat :| j < n && FourthFailure(t, j);
      var i := t.states[j].workers[t.steps[j].w].item.index;
      FailsOfPrefix(states, steps, n, i, j + 1);
    }
  }

  lemma {:induction false} CleanOutcome(states: nat -> Pool, steps: nat -> Step, n: nat, total: nat, alreadyReceived: seq<nat>, adaptive: nat)
    requires MIN_WORKERS <= adaptive <= MAX_WORKERS_CAP && states(0) == Start(total, alreadyReceived, adaptive)
    requires IsInfiniteRun(states, steps) && NoClicks(steps) && NoChunkIsLost(states, steps)
    ensures states(n).outcome.None? || states(n).outcome == Some(CallsComplete)
    decreases n
  {
    hide NoClicks, NoChunkIsLost;
    if n == 0 {
      PumpKeepsTheRest(BeforePump(total, Members(alreadyReceived), adaptive));
    } else {
      CleanOutcome(states, steps, n - 1, total, alreadyReceived, adaptive);
      CleanFlags(states, steps, n - 1, total, alreadyReceived, adaptive);
      var p, step := states(n - 1), steps(n - 1);
      assert Enabled(p, step) && states(n - 1 + 1) == Apply(p, step);
      StepReceives(p, step);
      if step.Poll? && p.outcome.None? && Polled(p).outcome.Some? {
        PollDecides(p);
      }
    }
  }

  /** Every fair run without clicks, in which no chunk fails four times, ends by calling complete. */
  lemma CleanRunCompletes(states: nat -> Pool, steps: nat -> Step, total: nat, alreadyReceived: seq<nat>, adaptive: nat)
    requires MIN_WORKERS <= adaptive <= MAX_WORKERS_CAP && states(0) == Start(total, alreadyReceived, adaptive)
    requires IsInfiniteRun(states, steps) && RequestsSettle(states, steps) && PollsRecur(states, steps)
    requires NoClicks(steps) && NoChunkIsLost(states, steps)
    ensures exists end: nat :: EndedFrom(states, end, CallsComplete)
  {
    hide IsInfiniteRun, RequestsSettle, PollsRecur, NoClicks, NoChunkIsLost, Start;
    UploadEnds(states, steps, total, alreadyReceived, adaptive);
    var end: nat, o :| EndedFrom(states, end, o);
    CleanOutcome(states, steps, end, total, alreadyReceived, adaptive);
    assert EndedFrom(states, end, CallsComplete);
  }
}
