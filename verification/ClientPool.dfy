/**
 The browser client's worker pool (WebApp/wwwroot/js/upload.js, runUpload): one run, as steps between awaits.

 JavaScript runs each callback to its next await without interruption, so a step is: a chunk request that succeeds or
 fails, a back-off timer that fires, a finished worker's `finally` callback, one turn of the polling loop, or a click.
 Which of the waiting callbacks comes next is arbitrary, and so is every change of the adaptive worker count that
 adaptWorkers allows.
 */
module ClientPool {
  import opened Base

  const MIN_WORKERS: nat := 2
  const MAX_WORKERS_CAP: nat := 12

  datatype Item = Item(index: nat, retries: nat)

  /** A worker waits for its request, waits for its back-off timer, or has returned and awaits its `finally`. */
  datatype Worker = InFlight(item: Item) | Sleeping | Leaving

  /** How a run ends: it calls complete, stops paused, stops cancelled, or throws. */
  datatype Outcome = CallsComplete | Paused | Cancelled | Throws

  datatype Pool = Pool(
    total: nat, received: set<nat>, uploadedCount: nat, queue: seq<Item>,
    workers: seq<Worker>, activeWorkers: nat, adaptiveWorkers: nat,
    cancelRequested: bool, pauseRequested: bool, fatalError: bool,
    attempts: map<nat, nat>, outcome: Option<Outcome>)
  {
    predicate Open() { !cancelRequested && !pauseRequested && !fatalError }
  }

  // ---- What the callbacks do ---------------------------------------------------------------------------

  function Tries(p: Pool, i: nat): nat { if i in p.attempts then p.attempts[i] else 0 }

  /** queue.shift() and the start of its request. */
  function Shift(p: Pool, w: nat): Pool
    requires w < |p.workers| && p.queue != []
  {
    var item := p.queue[0];
    p.(queue := p.queue[1..], workers := p.workers[w := InFlight(item)],
       attempts := p.attempts[item.index := Tries(p, item.index) + 1])
  }

  /** The top of a worker's loop: return, or take the next item. */
  function LoopTop(p: Pool, w: nat): Pool
    requires w < |p.workers|
  {
    if !p.Open() || p.activeWorkers > p.adaptiveWorkers || p.queue == [] then p.(workers := p.workers[w := Leaving])
    else Shift(p, w)
  }

  predicate MayPump(p: Pool) { p.activeWorkers < p.adaptiveWorkers && p.queue != [] && p.Open() }

  /** One turn of pump's loop: a new worker runs to its first await. */
  function Launch(p: Pool): Pool {
    var q := p.(activeWorkers := p.activeWorkers + 1, workers := p.workers + [Leaving]);
    LoopTop(q, |p.workers|)
  }

  function Pump(p: Pool): Pool
    decreases |p.queue|
  {
    if MayPump(p) then Pump(Launch(p)) else p
  }

  /** How many workers pump launches: none when the run is stopping, else as many as are allowed and have a chunk. */
  function Launches(p: Pool): nat {
    if !p.Open() || p.activeWorkers >= p.adaptiveWorkers then 0
    else if |p.queue| < p.adaptiveWorkers - p.activeWorkers then |p.queue| else p.adaptiveWorkers - p.activeWorkers
  }

  /** Pump puts the first chunks of the queue in flight, in order, one new worker each, and changes nothing else. */
  lemma {:induction false} PumpLaunches(p: Pool)
    ensures var n, q := Launches(p), Pump(p);
            && n <= |p.queue| && q.queue == p.queue[n..] && q.activeWorkers == p.activeWorkers + n
            && q.workers == p.workers + seq(n, k requires 0 <= k < n => InFlight(p.queue[k]))
            && q.(queue := p.queue, activeWorkers := p.activeWorkers, workers := p.workers, attempts := p.attempts) == p
    decreases |p.queue|
  {
    if MayPump(p) {
      var next, n := Launch(p), Launches(p);
      assert next == p.(queue := p.queue[1..], activeWorkers := p.activeWorkers + 1, workers := p.workers + [InFlight(p.queue[0])],
                        attempts := next.attempts);
      PumpLaunches(next);
      assert p.queue[1..][n - 1..] == p.queue[n..];
      assert seq(n, k requires 0 <= k < n => InFlight(p.queue[k])) ==
             [InFlight(p.queue[0])] + seq(n - 1, k requires 0 <= k < n - 1 => InFlight(next.queue[k]));
    }
  }

  /** What adaptWorkers may do to the worker count. */
  predicate MayAdapt(now: nat, next: nat) {
    next == now || (next == now + 1 && now < MAX_WORKERS_CAP) || (next + 1 == now && now > MIN_WORKERS)
  }

  function Succeeded(p: Pool, w: nat, adapted: nat): Pool
    requires w < |p.workers| && p.workers[w].InFlight?
  {
    var item := p.workers[w].item;
    LoopTop(p.(received := p.received + {item.index}, uploadedCount := p.uploadedCount + 1, adaptiveWorkers := adapted), w)
  }

  /** After a success the worker goes on with the head of the queue exactly while the run is open and needs it. */
  lemma SuccessTakesNext(p: Pool, w: nat, adapted: nat)
    requires w < |p.workers| && p.workers[w].InFlight?
    ensures var q, goesOn := Succeeded(p, w, adapted), p.Open() && p.activeWorkers <= adapted && p.queue != [];
            && q.received == p.received + {p.workers[w].item.index}
            && q.workers == p.workers[w := if goesOn then InFlight(p.queue[0]) else Leaving]
            && q.queue == if goesOn then p.queue[1..] else p.queue
  {
  }

  function Failed(p: Pool, w: nat): Pool
    requires w < |p.workers| && p.workers[w].InFlight?
  {
    var item := p.workers[w].item.(retries := p.workers[w].item.retries + 1);
    if item.retries <= 3 && !p.cancelRequested then p.(queue := p.queue + [item], workers := p.workers[w := Sleeping])
    else if !p.cancelRequested then p.(fatalError := true, workers := p.workers[w := Leaving])
    else LoopTop(p, w)
  }

  function Left(p: Pool, w: nat): Pool
    requires w < |p.workers| && p.activeWorkers > 0
  {
    var q := p.(activeWorkers := p.activeWorkers - 1, workers := p.workers[..w] + p.workers[w + 1..]);
    if q.Open() then Pump(q) else q
  }

  /** One turn of the polling loop, or its exit. */
  function Polled(p: Pool): Pool {
    if p.activeWorkers > 0 || (p.queue != [] && p.Open()) then
      if p.fatalError then p.(outcome := Some(Throws))
      else if p.Open() then Pump(p)
      else p
    else if p.fatalError then p.(outcome := Some(Throws))
    else if p.cancelRequested then p.(outcome := Some(Cancelled))
    else if p.pauseRequested then p.(outcome := Some(Paused))
    else p.(outcome := Some(CallsComplete))
  }

  datatype Step =
    | RequestSucceeds(w: nat, adapted: nat)
    | RequestFails(w: nat)
    | TimerFires(w: nat)
    | WorkerLeaves(w: nat)
    | Poll
    | PressPause
    | PressCancel

  predicate Enabled(p: Pool, step: Step) {
    match step
    case RequestSucceeds(w, adapted) => w < |p.workers| && p.workers[w].InFlight? && MayAdapt(p.adaptiveWorkers, adapted)
    case RequestFails(w) => w < |p.workers| && p.workers[w].InFlight?
    case TimerFires(w) => w < |p.workers| && p.workers[w].Sleeping?
    case WorkerLeaves(w) => w < |p.workers| && p.workers[w].Leaving? && p.activeWorkers > 0
    case Poll => p.outcome.None?
    case PressPause => p.outcome.None?
    case PressCancel => true
  }

  function Apply(p: Pool, step: Step): Pool
    requires Enabled(p, step)
  {
    match step
    case RequestSucceeds(w, adapted) => Succeeded(p, w, adapted)
    case RequestFails(w) => Failed(p, w)
    case TimerFires(w) => LoopTop(p, w)
    case WorkerLeaves(w) => Left(p, w)
    case Poll => Polled(p)
    case PressPause => p.(pauseRequested := true)
    case PressCancel => p.(cancelRequested := true, pauseRequested := false)
  }

  // ---- Conservation ------------------------------------------------------------------------------------

  /** How often index `i` waits in the queue. */
  function Queued(q: seq<Item>, i: nat): nat {
    if q == [] then 0 else Queued(q[1..], i) + (if q[0].index == i then 1 else 0)
  }

  /** How often index `i` is in flight. */
  function Flying(ws: seq<Worker>, i: nat): nat {
    if ws == [] then 0 else Flying(ws[1..], i) + (if ws[0].InFlight? && ws[0].item.index == i then 1 else 0)
  }

  function Got(received: set<nat>, i: nat): nat { if i in received then 1 else 0 }

  /** In how many places chunk `i` is: received, queue, in flight. */
  function Places(p: Pool, i: nat): nat { Got(p.received, i) + Queued(p.queue, i) + Flying(p.workers, i) }

  lemma {:induction false} QueuedAppend(q: seq<Item>, item: Item, i: nat)
    ensures Queued(q + [item], i) == Queued(q, i) + (if item.index == i then 1 else 0)
  {
    if q != [] {
      assert (q + [item])[1..] == q[1..] + [item];
      QueuedAppend(q[1..], item, i);
    } else {
      assert [item][1..] == [];
    }
  }

  function Flies(w: Worker, i: nat): nat { if w.InFlight? && w.item.index == i then 1 else 0 }

  lemma {:induction false} FlyingUpdate(ws: seq<Worker>, k: nat, w: Worker, i: nat)
    requires k < |ws|
    ensures Flying(ws[k := w], i) + Flies(ws[k], i) == Flying(ws, i) + Flies(w, i)
  {
    if k == 0 {
      assert ws[0 := w][1..] == ws[1..];
    } else {
      assert ws[k := w][1..] == ws[1..][k - 1 := w];
      FlyingUpdate(ws[1..], k - 1, w, i);
    }
  }

  lemma {:induction false} FlyingRemove(ws: seq<Worker>, k: nat, i: nat)
    requires k < |ws|
    ensures Flying(ws[..k] + ws[k + 1..], i) + Flies(ws[k], i) == Flying(ws, i)
  {
    if k == 0 {
      assert ws[..0] + ws[1..] == ws[1..];
    } else {
      assert (ws[..k] + ws[k + 1..])[1..] == ws[1..][..k - 1] + ws[1..][k..];
      FlyingRemove(ws[1..], k - 1, i);
    }
  }

  lemma {:induction false} FlyingAppend(ws: seq<Worker>, w: Worker, i: nat)
    ensures Flying(ws + [w], i) == Flying(ws, i) + Flies(w, i)
  {
    if ws != [] {
      assert (ws + [w])[1..] == ws[1..] + [w];
      FlyingAppend(ws[1..], w, i);
    } else {
      assert [w][1..] == [];
    }
  }

  // ---- The invariant -----------------------------------------------------------------------------------

  ghost predicate AtMostOnePlace(p: Pool) { forall i: nat :: Places(p, i) <= 1 }

  /** Until a cancel or a fatal error, every chunk is in exactly one place. */
  ghost predicate Conserved(p: Pool) {
    !p.cancelRequested && !p.fatalError ==> forall i: nat :: i < p.total ==> Places(p, i) == 1
  }

  ghost predicate QueueOk(p: Pool) {
    forall k :: 0 <= k < |p.queue| ==>
      p.queue[k].index < p.total && p.queue[k].retries <= 3 && Tries(p, p.queue[k].index) == p.queue[k].retries
  }

  ghost predicate FlightsOk(p: Pool) {
    forall w :: 0 <= w < |p.workers| && p.workers[w].InFlight? ==>
      var item := p.workers[w].item;
      item.index < p.total && item.retries <= 3 && Tries(p, item.index) == item.retries + 1
  }

  ghost predicate TriesOk(p: Pool) { forall i :: i in p.attempts ==> p.attempts[i] <= 4 }

  ghost predicate CountersOk(p: Pool) {
    && p.activeWorkers == |p.workers| <= MAX_WORKERS_CAP
    && MIN_WORKERS <= p.adaptiveWorkers <= MAX_WORKERS_CAP
    && p.uploadedCount == |p.received|
  }

  ghost predicate OutcomeOk(p: Pool) {
    p.outcome == Some(CallsComplete) ==> forall i: nat :: i < p.total ==> i in p.received
  }

  ghost predicate Inv(p: Pool) {
    AtMostOnePlace(p) && Conserved(p) && QueueOk(p) && FlightsOk(p) && TriesOk(p) && CountersOk(p) && OutcomeOk(p)
  }

  lemma {:induction false} QueuedPositive(q: seq<Item>, k: nat)
    requires k < |q|
    ensures Queued(q, q[k].index) >= 1
  {
    if k > 0 {
      QueuedPositive(q[1..], k - 1);
    }
  }

  lemma {:induction false} FlyingPositive(ws: seq<Worker>, k: nat)
    requires k < |ws| && ws[k].InFlight?
    ensures Flying(ws, ws[k].item.index) >= 1
  {
    if k > 0 {
      FlyingPositive(ws[1..], k - 1);
    }
  }

  /** Taking the head of the queue moves one chunk from the queue into flight and spends one attempt. */
  lemma ShiftKeeps(p: Pool, w: nat)
    requires Inv(p) && w < |p.workers| && !p.workers[w].InFlight? && p.queue != []
    ensures Inv(Shift(p, w))
  {
    var p', item := Shift(p, w), p.queue[0];
    forall i: nat
      ensures Places(p', i) == Places(p, i)
    {
      FlyingUpdate(p.workers, w, InFlight(item), i);
    }
    assert Places(p, item.index) <= 1;
    forall k | 0 <= k < |p'.queue|
      ensures p'.queue[k].index != item.index
    {
      QueuedPositive(p'.queue, k);
    }
    forall v | 0 <= v < |p.workers| && p.workers[v].InFlight?
      ensures p.workers[v].item.index != item.index
    {
      FlyingPositive(p.workers, v);
    }
    assert p.queue[0] == item;
  }

  lemma ParkKeeps(p: Pool, w: nat)
    requires Inv(p) && w < |p.workers| && !p.workers[w].InFlight?
    ensures Inv(p.(workers := p.workers[w := Leaving]))
  {
    var p' := p.(workers := p.workers[w := Leaving]);
    forall i: nat
      ensures Places(p', i) == Places(p, i)
    {
      FlyingUpdate(p.workers, w, Leaving, i);
    }
  }

  lemma LoopTopKeeps(p: Pool, w: nat)
    requires Inv(p) && w < |p.workers| && !p.workers[w].InFlight?
    ensures Inv(LoopTop(p, w))
  {
    hide Inv, Shift;
    if p.queue != [] {
      ShiftKeeps(p, w);
    }
    ParkKeeps(p, w);
  }

  lemma LaunchKeeps(p: Pool)
    requires Inv(p) && MayPump(p)
    ensures Inv(Launch(p))
  {
    var q := p.(activeWorkers := p.activeWorkers + 1, workers := p.workers + [Leaving]);
    forall i: nat
      ensures Places(q, i) == Places(p, i)
    {
      FlyingAppend(p.workers, Leaving, i);
    }
    LoopTopKeeps(q, |p.workers|);
  }

  lemma {:induction false} PumpKeeps(p: Pool)
    requires Inv(p)
    ensures Inv(Pump(p))
    decreases |p.queue|
  {
    hide Inv;
    if MayPump(p) {
      LaunchKeeps(p);
      PumpKeeps(Launch(p));
    }
  }

  lemma SucceededKeeps(p: Pool, w: nat, adapted: nat)
    requires Inv(p) && Enabled(p, RequestSucceeds(w, adapted))
    ensures Inv(Succeeded(p, w, adapted))
  {
    hide Shift;
    var item := p.workers[w].item;
    var q := p.(received := p.received + {item.index}, uploadedCount := p.uploadedCount + 1, adaptiveWorkers := adapted);
    var parked := q.(workers := p.workers[w := Leaving]);
    FlyingPositive(p.workers, w);
    assert Places(p, item.index) <= 1;
    forall i: nat
      ensures Places(parked, i) == Places(p, i)
    {
      FlyingUpdate(p.workers, w, Leaving, i);
    }
    assert Inv(parked);
    ParkedLoopTop(q, w);
    LoopTopKeeps(parked, w);
  }

  lemma ParkedLoopTop(p: Pool, w: nat)
    requires w < |p.workers|
    ensures LoopTop(p, w) == LoopTop(p.(workers := p.workers[w := Leaving]), w)
  {
    assert p.workers[w := Leaving][w := Leaving] == p.workers[w := Leaving];
    if p.queue != [] {
      assert p.workers[w := Leaving][w := InFlight(p.queue[0])] == p.workers[w := InFlight(p.queue[0])];
    }
  }

  lemma FailedKeeps(p: Pool, w: nat)
    requires Inv(p) && w < |p.workers| && p.workers[w].InFlight?
    ensures Inv(Failed(p, w))
  {
    var p' := Failed(p, w);
    var again := p.workers[w].item.(retries := p.workers[w].item.retries + 1);
    FlyingPositive(p.workers, w);
    forall i: nat
      ensures Places(p', i) <= Places(p, i)
      ensures !p'.cancelRequested && !p'.fatalError ==> Places(p', i) == Places(p, i)
    {
      FlyingUpdate(p.workers, w, p'.workers[w], i);
      QueuedAppend(p.queue, again, i);
    }
  }

  lemma LeftKeeps(p: Pool, w: nat)
    requires Inv(p) && w < |p.workers| && p.workers[w].Leaving?
    ensures p.activeWorkers > 0 && Inv(Left(p, w))
  {
    var q := p.(activeWorkers := p.activeWorkers - 1, workers := p.workers[..w] + p.workers[w + 1..]);
    forall i: nat
      ensures Places(q, i) == Places(p, i)
    {
      FlyingRemove(p.workers, w, i);
    }
    assert Inv(q);
    PumpKeeps(q);
  }

  lemma PolledKeeps(p: Pool)
    requires Inv(p) && p.outcome.None?
    ensures Inv(Polled(p))
  {
    PumpKeeps(p);
    if p.workers == [] && p.queue == [] && p.Open() {
      forall i: nat | i < p.total
        ensures i in p.received
      {
        assert Places(p, i) == 1;
      }
    }
    var p' := Polled(p);
    if p' != Pump(p) {
      forall i: nat
        ensures Places(p', i) == Places(p, i)
      {
      }
    }
  }

  lemma StepKeeps(p: Pool, step: Step)
    requires Inv(p) && Enabled(p, step)
    ensures Inv(Apply(p, step))
  {
    match step
    case RequestSucceeds(w, adapted) => SucceededKeeps(p, w, adapted);
    case RequestFails(w) => FailedKeeps(p, w);
    case TimerFires(w) => LoopTopKeeps(p, w);
    case WorkerLeaves(w) => LeftKeeps(p, w);
    case Poll => PolledKeeps(p);
    case PressPause => PressKeeps(p, Apply(p, step));
    case PressCancel => PressKeeps(p, Apply(p, step));
  }

  lemma PressKeeps(p: Pool, p': Pool)
    requires Inv(p) && p' == p.(cancelRequested := p'.cancelRequested, pauseRequested := p'.pauseRequested)
    requires p.cancelRequested ==> p'.cancelRequested
    ensures Inv(p')
  {
    forall i: nat
      ensures Places(p', i) == Places(p, i)
    {
    }
  }

  // ---- Termination -------------------------------------------------------------------------------------

  /** Attempts a queued or flying item has left. */
  function AttemptsLeft(item: Item): nat { if item.retries <= 3 then 4 - item.retries else 0 }

  function QueueRank(q: seq<Item>): nat {
    if q == [] then 0 else QueueRank(q[1..]) + 10 * AttemptsLeft(q[0]) + 3
  }

  function WorkerRank(w: Worker): nat {
    match w
    case InFlight(item) => 10 * AttemptsLeft(item) + 2
    case Sleeping => 2
    case Leaving => 1
  }

  function WorkersRank(ws: seq<Worker>): nat {
    if ws == [] then 0 else WorkersRank(ws[1..]) + WorkerRank(ws[0])
  }

  /** Remaining attempts over unfinished chunks, and a little for where each item and worker is. */
  function Measure(p: Pool): nat { QueueRank(p.queue) + WorkersRank(p.workers) }

  lemma {:induction false} QueueRankAppend(q: seq<Item>, item: Item)
    ensures QueueRank(q + [item]) == QueueRank(q) + 10 * AttemptsLeft(item) + 3
  {
    if q != [] {
      assert (q + [item])[1..] == q[1..] + [item];
      QueueRankAppend(q[1..], item);
    } else {
      assert [item][1..] == [];
    }
  }

  lemma {:induction false} WorkersRankUpdate(ws: seq<Worker>, k: nat, w: Worker)
    requires k < |ws|
    ensures WorkersRank(ws[k := w]) + WorkerRank(ws[k]) == WorkersRank(ws) + WorkerRank(w)
  {
    if k == 0 {
      assert ws[0 := w][1..] == ws[1..];
    } else {
      assert ws[k := w][1..] == ws[1..][k - 1 := w];
      WorkersRankUpdate(ws[1..], k - 1, w);
    }
  }

  lemma {:induction false} WorkersRankRemove(ws: seq<Worker>, k: nat)
    requires k < |ws|
    ensures WorkersRank(ws[..k] + ws[k + 1..]) + WorkerRank(ws[k]) == WorkersRank(ws)
  {
    if k == 0 {
      assert ws[..0] + ws[1..] == ws[1..];
    } else {
      assert (ws[..k] + ws[k + 1..])[1..] == ws[1..][..k - 1] + ws[1..][k..];
      WorkersRankRemove(ws[1..], k - 1);
    }
  }

  lemma {:induction false} WorkersRankAppend(ws: seq<Worker>, w: Worker)
    ensures WorkersRank(ws + [w]) == WorkersRank(ws) + WorkerRank(w)
  {
    if ws != [] {
      assert (ws + [w])[1..] == ws[1..] + [w];
      WorkersRankAppend(ws[1..], w);
    } else {
      assert [w][1..] == [];
    }
  }

  /** At the top of its loop a worker gives up its rank and gets at most a taken item's. */
  lemma LoopTopMeasure(p: Pool, w: nat)
    requires w < |p.workers|
    ensures Measure(LoopTop(p, w)) + WorkerRank(p.workers[w]) <= Measure(p) + 1
  {
    WorkersRankUpdate(p.workers, w, Leaving);
    if p.queue != [] {
      WorkersRankUpdate(p.workers, w, InFlight(p.queue[0]));
    }
  }

  lemma LaunchMeasure(p: Pool)
    requires MayPump(p)
    ensures Measure(Launch(p)) < Measure(p)
  {
    var q := p.(activeWorkers := p.activeWorkers + 1, workers := p.workers + [Leaving]);
    WorkersRankAppend(p.workers, Leaving);
    WorkersRankUpdate(q.workers, |p.workers|, InFlight(p.queue[0]));
  }

  lemma {:induction false} PumpMeasure(p: Pool)
    ensures Measure(Pump(p)) <= Measure(p)
    ensures MayPump(p) ==> Measure(Pump(p)) < Measure(p)
    decreases |p.queue|
  {
    hide Measure, Launch;
    if MayPump(p) {
      LaunchMeasure(p);
      LaunchShrinks(p);
      PumpMeasure(Launch(p));
    }
  }

  lemma LaunchShrinks(p: Pool)
    requires MayPump(p)
    ensures |Launch(p).queue| < |p.queue|
  {
  }

  /** The callbacks of workers, as opposed to polls and clicks. */
  predicate WorkerStep(step: Step) { !step.Poll? && !step.PressPause? && !step.PressCancel? }

  /** Every callback of a worker uses up some of the measure; polls and clicks never add to it. */
  lemma StepMeasure(p: Pool, step: Step)
    requires Inv(p) && Enabled(p, step)
    ensures Measure(Apply(p, step)) + (if WorkerStep(step) then 1 else 0) <= Measure(p)
  {
    hide Inv, Measure, LoopTop, Pump, Failed, Left;
    match step
    case RequestSucceeds(w, adapted) => SucceededMeasure(p, w, adapted);
    case RequestFails(w) => FailedMeasure(p, w);
    case TimerFires(w) => LoopTopMeasure(p, w);
    case WorkerLeaves(w) => LeftMeasure(p, w);
    case Poll => PolledMeasure(p);
    case PressPause => SameRank(p, Apply(p, step));
    case PressCancel => SameRank(p, Apply(p, step));
  }

  lemma SameRank(p: Pool, q: Pool)
    requires q.queue == p.queue && q.workers == p.workers
    ensures Measure(q) == Measure(p)
  {
  }

  lemma SucceededMeasure(p: Pool, w: nat, adapted: nat)
    requires w < |p.workers| && p.workers[w].InFlight?
    ensures Measure(Succeeded(p, w, adapted)) < Measure(p)
  {
    hide LoopTop;
    var q := p.(received := p.received + {p.workers[w].item.index}, uploadedCount := p.uploadedCount + 1, adaptiveWorkers := adapted);
    LoopTopMeasure(q, w);
  }

  lemma FailedMeasure(p: Pool, w: nat)
    requires Inv(p) && w < |p.workers| && p.workers[w].InFlight?
    ensures Measure(Failed(p, w)) < Measure(p)
  {
    hide LoopTop;
    var item := p.workers[w].item;
    assert item.retries <= 3;
    LoopTopMeasure(p, w);
    WorkersRankUpdate(p.workers, w, Sleeping);
    WorkersRankUpdate(p.workers, w, Leaving);
    QueueRankAppend(p.queue, item.(retries := item.retries + 1));
  }

  lemma LeftMeasure(p: Pool, w: nat)
    requires w < |p.workers| && p.workers[w].Leaving? && p.activeWorkers > 0
    ensures Measure(Left(p, w)) < Measure(p)
  {
    hide Pump;
    WorkersRankRemove(p.workers, w);
    PumpMeasure(p.(activeWorkers := p.activeWorkers - 1, workers := p.workers[..w] + p.workers[w + 1..]));
  }

  lemma PolledMeasure(p: Pool)
    ensures Measure(Polled(p)) <= Measure(p)
  {
    hide Pump;
    PumpMeasure(p);
  }

  /** Until a run has ended, a worker has a callback to come, or the next poll launches a worker or ends the run. */
  lemma NeverStuck(p: Pool)
    requires Inv(p) && p.outcome.None?
    ensures p.workers != [] ==> exists step :: WorkerStep(step) && Enabled(p, step)
    ensures p.workers == [] ==> Polled(p).outcome.Some? || Measure(Polled(p)) < Measure(p)
  {
    if p.workers != [] {
      match p.workers[0]
      case InFlight(_) => assert Enabled(p, RequestFails(0)) && WorkerStep(RequestFails(0));
      case Sleeping => assert Enabled(p, TimerFires(0)) && WorkerStep(TimerFires(0));
      case Leaving => assert Enabled(p, WorkerLeaves(0)) && WorkerStep(WorkerLeaves(0));
    } else {
      PumpMeasure(p);
    }
  }
}
