/**
 The worker pool as the client keeps it: variables that the callbacks of one run update in place. Each callback is
 proved to take the pool from its old value to the one the steps of ClientPool say.
 */
module ClientWorkers {
  import opened Base
  import opened ClientPool
  import opened ClientRuns

  function Sum(xs: seq<real>): real { if xs == [] then 0.0 else Sum(xs[..|xs| - 1]) + xs[|xs| - 1] }

  /** adaptWorkers: the worker count after looking at the recent speeds, in MB/s. */
  function Adapted(workers: nat, recentMbps: seq<real>): (next: nat)
    ensures MayAdapt(workers, next)
    ensures 2 <= workers <= 12 ==> 2 <= next <= 12 && workers - 1 <= next <= workers + 1
  {
    if |recentMbps| < 3 then workers
    else
      var avg := Sum(recentMbps) / (|recentMbps| as real);
      if avg > 20.0 && workers < MAX_WORKERS_CAP then workers + 1
      else if avg < 4.0 && workers > MIN_WORKERS then workers - 1
      else workers
  }

  lemma {:induction false} SumBounds(xs: seq<real>, lo: real, hi: real)
    requires forall k :: 0 <= k < |xs| ==> lo <= xs[k] <= hi
    ensures lo * (|xs| as real) <= Sum(xs) <= hi * (|xs| as real)
  {
    if xs != [] {
      var rest := xs[..|xs| - 1];
      SumBounds(rest, lo, hi);
      assert |xs| as real == |rest| as real + 1.0;
      assert lo * (|xs| as real) == lo * (|rest| as real) + lo;
      assert hi * (|xs| as real) == hi * (|rest| as real) + hi;
    }
  }

  lemma ScaleReal(x: real, y: real, c: real)
    requires c > 0.0 && x < y
    ensures x * c < y * c
  {
  }

  lemma QuotientBetween(lo: real, hi: real, sum: real, n: real, avg: real)
    requires n > 0.0 && avg * n == sum && lo * n <= sum <= hi * n
    ensures lo <= avg <= hi
  {
    if avg < lo {
      ScaleReal(avg, lo, n);
    }
    if hi < avg {
      ScaleReal(hi, avg, n);
    }
  }

  /** The average lies between the slowest and the fastest of the recent speeds. */
  lemma AverageBounds(xs: seq<real>, lo: real, hi: real)
    requires xs != [] && forall k :: 0 <= k < |xs| ==> lo <= xs[k] <= hi
    ensures lo <= Sum(xs) / (|xs| as real) <= hi
  {
    hide Sum;
    SumBounds(xs, lo, hi);
    QuotientBetween(lo, hi, Sum(xs), |xs| as real, Sum(xs) / (|xs| as real));
  }

  /** The pool follows the speed: up while every recent window is fast, down while every one is slow, else unchanged. */
  lemma WorkersFollowSpeed(workers: nat, recentMbps: seq<real>, lo: real, hi: real)
    requires forall k :: 0 <= k < |recentMbps| ==> lo <= recentMbps[k] <= hi
    ensures |recentMbps| < 3 ==> Adapted(workers, recentMbps) == workers
    ensures |recentMbps| >= 3 && lo > 20.0 && workers < 12 ==> Adapted(workers, recentMbps) == workers + 1
    ensures |recentMbps| >= 3 && hi < 4.0 && workers > 2 ==> Adapted(workers, recentMbps) == workers - 1
    ensures 4.0 <= lo && hi <= 20.0 ==> Adapted(workers, recentMbps) == workers
  {
    if |recentMbps| >= 3 {
      AverageBounds(recentMbps, lo, hi);
    }
  }

  lemma {:induction false} MissingSnoc(i: nat, k: nat, total: nat, received: set<nat>)
    requires i <= k < total
    ensures MissingFrom(i, k + 1, received)
         == MissingFrom(i, k, received) + (if k in received then [] else [Item(k, 0)])
    decreases k - i
  {
    if i < k {
      MissingSnoc(i + 1, k, total, received);
    } else {
      assert MissingFrom(k + 1, k + 1, received) == [];
    }
  }

  /** The window of speeds: the oldest falls out when there are more than six. */
  function LastSix(xs: seq<real>): seq<real> { if |xs| > 6 then xs[1..] else xs }

  /** The window after these samples, one after another. */
  function Window(samples: seq<real>): seq<real> {
    if samples == [] then [] else LastSix(Window(samples[..|samples| - 1]) + [samples[|samples| - 1]])
  }

  /** The window holds the last six samples in order, or all of them. */
  lemma {:induction false} WindowIsTheLastSix(samples: seq<real>)
    ensures Window(samples) == samples[if |samples| > 6 then |samples| - 6 else 0..]
  {
    if samples != [] {
      var before := samples[..|samples| - 1];
      WindowIsTheLastSix(before);
      assert samples == before + [samples[|samples| - 1]];
    }
  }

  class UploadRun {
    const total: nat
    var received: set<nat>
    var uploadedCount: nat
    var queue: seq<Item>
    var workers: seq<Worker>
    var activeWorkers: nat
    var adaptiveWorkers: nat
    var recentMbps: seq<real>
    var cancelRequested: bool
    var pauseRequested: bool
    var fatalError: bool
    var outcome: Option<Outcome>
    ghost var attempts: map<nat, nat>

    ghost function View(): Pool
      reads this
    {
      Pool(total, received, uploadedCount, queue, workers, activeWorkers, adaptiveWorkers, cancelRequested,
           pauseRequested, fatalError, attempts, outcome)
    }

    /** runUpload up to the polling loop; the worker count and the recent speeds come from earlier runs. */
    constructor (totalChunks: nat, alreadyReceived: seq<nat>, adaptive: nat, speeds: seq<real>)
      ensures View() == Start(totalChunks, alreadyReceived, adaptive) && recentMbps == speeds
    {
      total := totalChunks;
      var have := set x | x in alreadyReceived;
      received, uploadedCount := have, |have|;
      var q, i := [], 0;
      while i < totalChunks
        invariant i <= totalChunks && q == MissingFrom(0, i, have)
      {
        MissingSnoc(0, i, totalChunks, have);
        if i !in have {
          q := q + [Item(i, 0)];
        }
        i := i + 1;
      }
      queue, workers, activeWorkers, adaptiveWorkers, recentMbps := q, [], 0, adaptive, speeds;
      cancelRequested, pauseRequested, fatalError, outcome, attempts := false, false, false, None, map[];
      new;
      assert View() == BeforePump(totalChunks, Members(alreadyReceived), adaptive);
      RunPump();
    }

    /** workerOne from the top of its loop to its next await or its return. */
    method RunLoopTop(w: nat)
      requires w < |workers|
      modifies this
      ensures View() == LoopTop(old(View()), w) && recentMbps == old(recentMbps)
    {
      if cancelRequested || pauseRequested || fatalError || activeWorkers > adaptiveWorkers || |queue| == 0 {
        workers := workers[w := Leaving];
      } else {
        var item := queue[0];
        queue := queue[1..];
        workers := workers[w := InFlight(item)];
        attempts := attempts[item.index := (if item.index in attempts then attempts[item.index] else 0) + 1];
      }
    }

    /** pump. */
    method RunPump()
      modifies this
      ensures View() == Pump(old(View())) && recentMbps == old(recentMbps)
    {
      while activeWorkers < adaptiveWorkers && |queue| > 0 && !cancelRequested && !pauseRequested && !fatalError
        invariant Pump(View()) == Pump(old(View())) && recentMbps == old(recentMbps)
        decreases |queue|
      {
        ghost var before := View();
        activeWorkers := activeWorkers + 1;
        workers := workers + [Leaving];
        RunLoopTop(|workers| - 1);
        assert View() == Launch(before);
      }
    }

    /** A chunk request succeeds; when a speed window has just closed, `sample` is its speed. */
    method OnSuccess(w: nat, sample: Option<real>)
      requires w < |workers| && workers[w].InFlight?
      modifies this
      ensures MayAdapt(old(adaptiveWorkers), adaptiveWorkers)
      ensures View() == Succeeded(old(View()), w, adaptiveWorkers)
      ensures adaptiveWorkers == if sample.None? then old(adaptiveWorkers) else Adapted(old(adaptiveWorkers), recentMbps)
      ensures recentMbps == if sample.None? then old(recentMbps) else LastSix(old(recentMbps) + [sample.value])
    {
      received := received + {workers[w].item.index};
      uploadedCount := uploadedCount + 1;
      if sample.Some? {
        recentMbps := LastSix(recentMbps + [sample.value]);
        adaptiveWorkers := Adapted(adaptiveWorkers, recentMbps);
      }
      RunLoopTop(w);
    }

    /** A chunk request fails: back to the queue and a back-off, a fatal error, or a quiet stop after a cancel. */
    method OnFailure(w: nat)
      requires w < |workers| && workers[w].InFlight?
      modifies this
      ensures View() == Failed(old(View()), w) && recentMbps == old(recentMbps)
    {
      var item := workers[w].item;
      item := item.(retries := item.retries + 1);
      if item.retries <= 3 && !cancelRequested {
        queue := queue + [item];
        workers := workers[w := Sleeping];
      } else if !cancelRequested {
        fatalError := true;
        workers := workers[w := Leaving];
      } else {
        RunLoopTop(w);
      }
    }

    /** The `finally` callback of a returned worker. */
    method OnLeft(w: nat)
      requires w < |workers| && activeWorkers > 0
      modifies this
      ensures View() == Left(old(View()), w) && recentMbps == old(recentMbps)
    {
      activeWorkers := activeWorkers - 1;
      workers := workers[..w] + workers[w + 1..];
      if !fatalError && !cancelRequested && !pauseRequested {
        RunPump();
      }
    }

    /** One evaluation of the polling loop's condition and body, or the code after the loop. */
    method OnPoll()
      requires outcome.None?
      modifies this
      ensures View() == Polled(old(View())) && recentMbps == old(recentMbps)
    {
      if (activeWorkers > 0 || (|queue| > 0 && !cancelRequested && !pauseRequested && !fatalError)) && !fatalError {
        if !cancelRequested && !pauseRequested {
          RunPump();
        }
      } else if fatalError {
        outcome := Some(Throws);
      } else if cancelRequested {
        outcome := Some(Cancelled);
      } else if pauseRequested {
        outcome := Some(Paused);
      } else {
        outcome := Some(CallsComplete);
      }
    }
  }
}
