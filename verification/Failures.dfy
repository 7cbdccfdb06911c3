/**
 How a job that goes wrong shows: exactly when a Failed event belongs to a Failed session and when to an Expired one,
 and that a session whose job is gone stays as it is until cleanup claims it.
 */
module Failures {
  import opened Base
  import Checksums
  import opened Effects
  import opened FinalNames
  import opened History
  import opened Jobs
  import opened LeaseSteps
  import opened Leases
  import Merge
  import opened Protocol
  import opened Repository
  import opened Runs

  // ---- A session whose right is spent ------------------------------------------------------------------

  /** The upload is as it was, or a claim has just taken it. */
  ghost predicate OnlyClaimed(u: Upload, u': Upload, now: int) {
    || u' == u
    || (ClaimRow(u.row, now).Some? && u' == u.(row := ClaimRow(u.row, now).value, ledger := u.ledger.(claims := u.ledger.claims + 1)))
  }

  ghost predicate SpentLease(u: Upload) { u.stage.Spent? && u.row.status != Pending }

  lemma CallHasStage(s: State, r: Request)
    requires CallsOk(s) && r in s.calls
    ensures s.calls[r].id in s.uploads && CallOk(r, s.calls[r], s.uploads[s.calls[r].id])
  {
  }

  lemma SpentCall(s: State, r: Request, step: CallStep, id: Id)
    requires CallsOk(s) && CallEnabled(s, r, step) && id in s.uploads && SpentLease(s.uploads[id])
    ensures var s' := ApplyCall(s, r, step); id in s'.uploads && s'.uploads[id] == s.uploads[id]
  {
    hide DoBegin, DoEnqueue, DoAbort, DoAbortPublish, EndCall, Forget, CallsOk;
    if r in s.calls && !step.CompleteCall? && !step.AbortCall? {
      CallHasStage(s, r);
    }
    match step
    case CompleteCall(n, i, checksum) =>
    case AbortCall(n, i) =>
    case DeleteAborted =>
    case TryBegin => BeginEffect(s, r); LostBegin(s, r);
    case TryAbort => AbortEffect(s, r); LostAbort(s, r);
    case Enqueue => EnqueueEffect(s, r);
    case PublishAborted(lost) => AbortPublishEffect(s, r, lost);
    case CallDies => EndCallEffect(s, r); IdleDies(s, r);
  }

  lemma LostBegin(s: State, r: Request)
    requires CallEnabled(s, r, TryBegin)
    ensures s.uploads[s.calls[r].id].row.status != Pending ==> DoBegin(s, r).uploads == s.uploads
  {
  }

  lemma LostAbort(s: State, r: Request)
    requires CallEnabled(s, r, TryAbort)
    ensures s.uploads[s.calls[r].id].row.status != Pending ==> DoAbort(s, r).uploads == s.uploads
  {
  }

  lemma IdleDies(s: State, r: Request)
    requires r in s.calls && s.calls[r].id in s.uploads && CallOk(r, s.calls[r], s.uploads[s.calls[r].id])
    ensures var id := s.calls[r].id; s.uploads[id].stage.Spent? ==> EndCall(s, r).uploads[id] == s.uploads[id]
  {
  }

  lemma JobHasStage(c: Config, s: State, n: Node)
    requires Inv(c, s)
    ensures n in s.workers ==> s.workers[n].job.id in s.uploads && s.uploads[s.workers[n].job.id].stage == HeldBy(n)
    ensures QueueOf(s, n) != [] ==> QueueOf(s, n)[0].id in s.uploads && s.uploads[QueueOf(s, n)[0].id].stage == QueuedAt(n)
  {
    hide UploadOk, UploadsOk, CallsOk;
    if n in s.workers {
      assert WorkerOk(c, n, s.workers[n], s.uploads[s.workers[n].job.id]);
    }
    if QueueOf(s, n) != [] {
      assert JobOk(n, s.queues[n][0], s.uploads[s.queues[n][0].id]);
    }
  }

  /** Whose upload a worker's step may touch. */
  ghost function Touches(s: State, n: Node, step: WorkStep): Option<Id> {
    if step.TakeJob? then (if QueueOf(s, n) != [] then Some(QueueOf(s, n)[0].id) else None)
    else if n in s.workers then Some(s.workers[n].job.id) else None
  }

  lemma WorkLeavesOthers(c: Config, be: Backend, s: State, n: Node, step: WorkStep, id: Id)
    requires WorkEnabled(c, s, n, step) && id in s.uploads && Touches(s, n, step) != Some(id)
    ensures var s' := ApplyWork(c, be, s, n, step); id in s'.uploads && s'.uploads[id] == s.uploads[id]
  {
    hide DoTake, DoRead, DoVerify, DoMerge, DoMergeThrows, DoCheck, DoFinish, DoFail, DoPublish, EndJob, MergeOf, QueueOf;
    match step
    case TakeJob => TakeEffect(s, n);
    case ReadRow => ReadEffect(s, n);
    case VerifyParts => VerifyEffect(s, n);
    case MergeParts(raced) => MergeEffect(c, s, n, raced);
    case MergeThrows(junk) => MergeThrowsEffect(s, n, junk);
    case CheckDigest(fingerprint, deleteThrows) => CheckEffect(s, n, fingerprint, deleteThrows);
    case TryFinish => FinishEffect(be, s, n);
    case TryFail => FailEffect(be, s, n);
    case Publish(lost) => PublishEffect(s, n, lost);
    case JobDies => EndJobEffect(s, n);
  }

  lemma SpentClean(s: State, n: Node, step: CleanStep, id: Id)
    requires CleanEnabled(s, n, step) && id in s.uploads
    ensures var s' := ApplyClean(s, n, step); id in s'.uploads && OnlyClaimed(s.uploads[id], s'.uploads[id], s.clock)
  {
    hide ClaimRow, DoCleanDelete, DoClaim;
    match step
    case TryClaim => ClaimsOne(s, n, id);
    case DeleteClaimed(throws) => CleanDeleteEffect(s, n, throws);
    case _ =>
  }

  lemma ClaimsOne(s: State, n: Node, id: Id)
    requires CleanEnabled(s, n, TryClaim) && id in s.uploads
    ensures id in DoClaim(s, n).uploads && OnlyClaimed(s.uploads[id], DoClaim(s, n).uploads[id], s.clock)
  {
    hide ClaimRow;
    var claimed := s.cleaners[n].listed[s.cleaners[n].next];
    match ClaimRow(s.uploads[claimed].row, s.clock)
    case None => assert DoClaim(s, n).uploads == s.uploads;
    case Some(row) =>
      var u := s.uploads[claimed];
      assert DoClaim(s, n).uploads == s.uploads[claimed := u.(row := row, ledger := u.ledger.(claims := u.ledger.claims + 1))];
  }

  lemma SpentAmbient(c: Config, s: State, step: AmbientStep, id: Id)
    requires AmbientEnabled(c, s, step) && id in s.uploads
    ensures var s' := ApplyAmbient(c, s, step); id in s'.uploads && s'.uploads[id] == s.uploads[id]
  {
    hide LookupResult, WithinLimits, ArgsOk, NewSession, HotSession, Admits, Remember, Forget, PartsOf, StillThere, DoAdmit;
    if !step.Tick? && !step.Initiate? {
      AmbientQuiet(c, s, step);
    }
  }

  lemma SpentStep(c: Config, be: Backend, s: State, step: Step, id: Id)
    requires Inv(c, s) && Enabled(c, s, step) && id in s.uploads && SpentLease(s.uploads[id])
    ensures var s' := Apply(c, be, s, step); id in s'.uploads && OnlyClaimed(s.uploads[id], s'.uploads[id], s.clock)
  {
    hide AmbientEnabled, CallEnabled, WorkEnabled, CleanEnabled, ApplyAmbient, ApplyCall, ApplyWork, ApplyClean, ClaimRow;
    match step
    case Ambient(ambient) => SpentAmbient(c, s, ambient, id);
    case Calling(r, calling) => SpentCall(s, r, calling, id);
    case Working(n, working) => JobHasStage(c, s, n); WorkLeavesOthers(c, be, s, n, working, id);
    case Cleaning(n, cleaning) => SpentClean(s, n, cleaning, id);
  }

  /** A session whose job is gone: Completing, with nobody left to finish it; or so it was until a claim. */
  ghost predicate Abandoned(u: Upload) {
    u.stage.Spent? && (u.row.status == Completing || u.row.status == Expired) && u.ledger.events == []
  }

  lemma AbandonedStays(u: Upload, u': Upload, now: int)
    requires Abandoned(u) && OnlyClaimed(u, u', now)
    ensures Abandoned(u')
  {
  }

  lemma SpentCompletingIsAbandoned(c: Config, u: Upload)
    requires UploadOk(c, u) && u.stage.Spent? && u.row.status == Completing
    ensures Abandoned(u)
  {
    if u.ledger.events != [] {
      var e := u.ledger.events[0];
      assert e in u.ledger.events;
      match e
      case CompletedEvent => assert false;
      case FailedEvent => assert false;
      case AbortedEvent => assert false;
    }
  }

  lemma {:induction false} AbandonedForGood(c: Config, be: Backend, states: seq<State>, steps: seq<Step>, j: nat, k: nat, id: Id)
    requires ValidConfig(c) && IsRun(c, be, states, steps) && j <= k < |states|
    requires id in states[j].uploads && Abandoned(states[j].uploads[id])
    ensures id in states[k].uploads && Abandoned(states[k].uploads[id])
    decreases k
  {
    hide Enabled, Apply, ValidConfig, Inv, CleanersOk, OnlyClaimed;
    if j < k {
      AbandonedForGood(c, be, states, steps, j, k - 1, id);
      RunIsGood(c, be, states, steps, k - 1);
      SpentStep(c, be, states[k - 1], steps[k - 1], id);
      AbandonedStays(states[k - 1].uploads[id], states[k].uploads[id], states[k - 1].clock);
    }
  }

  /**
   Once the right to finish a Completing session is spent, no later state of any run has it other than Completing or
   Expired, and none has an event of it.
   */
  lemma StrandedForGood(c: Config, be: Backend, states: seq<State>, steps: seq<Step>, j: nat, k: nat, id: Id)
    requires ValidConfig(c) && IsRun(c, be, states, steps) && j <= k < |states| && id in states[j].uploads
    requires states[j].uploads[id].stage == Spent && states[j].uploads[id].row.status == Completing
    ensures id in states[k].uploads
    ensures states[k].uploads[id].row.status == Completing || states[k].uploads[id].row.status == Expired
    ensures states[k].uploads[id].ledger.events == []
  {
    hide Enabled, Apply, ValidConfig, UploadOk, Good;
    RunIsGood(c, be, states, steps, j);
    GoodUpload(c, states[j], id);
    SpentCompletingIsAbandoned(c, states[j].uploads[id]);
    AbandonedForGood(c, be, states, steps, j, k, id);
  }

  // ---- Failed events -----------------------------------------------------------------------------------

  /** Step `i` is the failing compare-and-set of the job of `id` on node `n`. */
  ghost predicate FailsAt(states: seq<State>, steps: seq<Step>, i: nat, n: Node, id: Id) {
    && i < |steps| && i < |states| && steps[i] == Working(n, TryFail)
    && n in states[i].workers && states[i].workers[n].job.id == id && id in states[i].uploads
  }

  /** Some worker is about to publish a Failed event for `id`. */
  ghost predicate AboutToTell(s: State, n: Node, id: Id) {
    n in s.workers && s.workers[n].job.id == id && s.workers[n].phase == Publishing(FailedEvent)
  }

  ghost predicate Told(s: State, id: Id) {
    (id in s.uploads && FailedEvent in s.uploads[id].ledger.events) || exists n :: AboutToTell(s, n, id)
  }

  lemma CallTellsNothing(s: State, r: Request, step: CallStep, id: Id)
    requires CallEnabled(s, r, step) && Told(ApplyCall(s, r, step), id)
    ensures Told(s, id)
  {
    hide DoBegin, DoEnqueue, DoAbort, DoAbortPublish, EndCall, Forget;
    var s' := ApplyCall(s, r, step);
    CallKeepsWorkers(s, r, step);
    if id in s'.uploads && FailedEvent in s'.uploads[id].ledger.events {
      match step
      case CompleteCall(n, i, checksum) =>
      case AbortCall(n, i) =>
      case DeleteAborted =>
      case TryBegin => BeginEffect(s, r);
      case TryAbort => AbortEffect(s, r);
      case Enqueue => EnqueueEffect(s, r);
      case PublishAborted(lost) => AbortPublishEffect(s, r, lost);
      case CallDies => EndCallEffect(s, r);
    } else {
      var n :| AboutToTell(s', n, id);
      assert AboutToTell(s, n, id);
    }
  }

  lemma CallKeepsWorkers(s: State, r: Request, step: CallStep)
    requires CallEnabled(s, r, step)
    ensures ApplyCall(s, r, step).workers == s.workers
  {
    hide Forget, QueueOf, BeginRow, AbortRow, DoBegin, DoEnqueue, DoAbort, DoAbortPublish, EndCall;
    match step
    case TryBegin => assert DoBegin(s, r).workers == s.workers by { BeginKeepsWorkers(s, r); }
    case TryAbort => assert DoAbort(s, r).workers == s.workers by { AbortKeepsWorkers(s, r); }
    case Enqueue => EnqueueKeepsWorkers(s, r);
    case PublishAborted(lost) => AbortPublishKeepsWorkers(s, r, lost);
    case CallDies => DyingKeepsWorkers(s, r);
    case CompleteCall(n, i, checksum) =>
    case AbortCall(n, i) =>
    case DeleteAborted =>
  }

  lemma BeginKeepsWorkers(s: State, r: Request)
    requires r in s.calls && s.calls[r].WillBegin? && s.calls[r].id in s.uploads
    ensures DoBegin(s, r).workers == s.workers
  {
    hide BeginRow;
    match BeginRow(s.uploads[s.calls[r].id].row)
    case None =>
    case Some(row) =>
  }

  lemma AbortKeepsWorkers(s: State, r: Request)
    requires r in s.calls && s.calls[r].WillAbort? && s.calls[r].id in s.uploads
    ensures DoAbort(s, r).workers == s.workers
  {
    hide AbortRow;
    match AbortRow(s.uploads[s.calls[r].id].row)
    case None =>
    case Some(row) =>
  }

  lemma EnqueueKeepsWorkers(s: State, r: Request)
    requires r in s.calls && s.calls[r].MustEnqueue? && s.calls[r].id in s.uploads
    ensures DoEnqueue(s, r).workers == s.workers
  {
    hide QueueOf;
  }

  lemma AbortPublishKeepsWorkers(s: State, r: Request, lost: bool)
    requires r in s.calls && s.calls[r].MustPublish? && s.calls[r].id in s.uploads
    ensures DoAbortPublish(s, r, lost).workers == s.workers
  {
  }

  lemma DyingKeepsWorkers(s: State, r: Request)
    requires r in s.calls && s.calls[r].id in s.uploads
    ensures EndCall(s, r).workers == s.workers
  {
  }

  lemma AmbientTellsNothing(c: Config, s: State, step: AmbientStep, id: Id)
    requires AmbientEnabled(c, s, step) && Told(ApplyAmbient(c, s, step), id)
    ensures Told(s, id)
  {
    hide LookupResult, WithinLimits, ArgsOk, NewSession, HotSession, Admits, Remember, Forget, PartsOf, StillThere, DoAdmit;
    var s' := ApplyAmbient(c, s, step);
    if !step.Tick? && !step.Initiate? {
      AmbientQuiet(c, s, step);
    }
    if !(id in s'.uploads && FailedEvent in s'.uploads[id].ledger.events) {
      var n :| AboutToTell(s', n, id);
      assert AboutToTell(s, n, id);
    }
  }

  lemma CleanTellsNothing(s: State, n: Node, step: CleanStep, id: Id)
    requires CleanEnabled(s, n, step) && Told(ApplyClean(s, n, step), id)
    ensures Told(s, id)
  {
    hide DoClaim, DoCleanDelete;
    var s' := ApplyClean(s, n, step);
    CleanKeepsWorkers(s, n, step);
    if id in s'.uploads && FailedEvent in s'.uploads[id].ledger.events {
      match step
      case TryClaim => ClaimEffect(s, n);
      case DeleteClaimed(throws) => CleanDeleteEffect(s, n, throws);
      case _ =>
    } else {
      var m :| AboutToTell(s', m, id);
      assert AboutToTell(s, m, id);
    }
  }

  lemma CleanKeepsWorkers(s: State, n: Node, step: CleanStep)
    requires CleanEnabled(s, n, step)
    ensures ApplyClean(s, n, step).workers == s.workers
  {
    hide DoClaim, DoCleanDelete;
    match step
    case TryClaim => ClaimKeepsWorkers(s, n);
    case DeleteClaimed(throws) => CleanDeleteKeepsWorkers(s, n, throws);
    case _ =>
  }

  lemma ClaimKeepsWorkers(s: State, n: Node)
    requires CleanEnabled(s, n, TryClaim)
    ensures DoClaim(s, n).workers == s.workers
  {
    hide ClaimRow;
    match ClaimRow(s.uploads[s.cleaners[n].listed[s.cleaners[n].next]].row, s.clock)
    case None =>
    case Some(row) =>
  }

  lemma CleanDeleteKeepsWorkers(s: State, n: Node, throws: bool)
    requires CleanEnabled(s, n, DeleteClaimed(throws))
    ensures DoCleanDelete(s, n, throws).workers == s.workers
  {
  }

  /** Only worker `n` moves: its job ends or goes on, about to publish Failed only if `failing`. */
  ghost predicate Shifts(s: State, s': State, n: Node, failing: bool) {
    && n in s.workers
    && (|| s'.workers == s.workers - {n}
        || (&& n in s'.workers && s'.workers == s.workers[n := s'.workers[n]] && s'.workers[n].job == s.workers[n].job
            && (s'.workers[n].phase == Publishing(FailedEvent) ==> failing)))
  }

  lemma EndShifts(s: State, t: State, n: Node)
    requires Busy(s, n) && t.workers == s.workers && Busy(t, n)
    ensures Shifts(s, EndJob(t, n), n, false)
  {
  }

  lemma PhaseShifts(s: State, t: State, n: Node, phase: Phase, failing: bool)
    requires n in s.workers && t.workers == s.workers && (phase == Publishing(FailedEvent) ==> failing)
    ensures Shifts(s, SetPhase(t, n, phase), n, failing)
  {
  }

  lemma ReadShifts(s: State, n: Node)
    requires Busy(s, n)
    ensures Shifts(s, DoRead(s, n), n, false)
  {
    hide Shifts, EndJob, SetPhase;
    EndShifts(s, s, n);
    PhaseShifts(s, s, n, HasRead(s.uploads[s.workers[n].job.id].row), false);
  }

  lemma VerifyShifts(s: State, n: Node)
    requires Busy(s, n) && s.workers[n].phase.HasRead?
    ensures Shifts(s, DoVerify(s, n), n, false)
  {
    hide Shifts, EndJob, SetPhase, Merge.AllPresent, Merge.BytesOnDisk, Checksums.NormalizeChecksum, PartsOf;
    var Worker(job, HasRead(snap)) := s.workers[n];
    EndShifts(s, s, n);
    PhaseShifts(s, s, n, Failing(snap, snap.checksum), false);
    var sum := Checksums.NormalizeChecksum(job.checksum);
    if sum.Success? {
      PhaseShifts(s, s, n, Verified(snap, if sum.value.Some? then sum.value else snap.checksum), false);
    }
  }

  lemma MergeShifts(c: Config, s: State, n: Node, raced: Option<Bytes>)
    requires WorkEnabled(c, s, n, MergeParts(raced))
    ensures Shifts(s, DoMerge(c, s, n, raced), n, false)
  {
    hide MergeOf, ResolveFinal;
  }

  lemma MergeThrowsShifts(s: State, n: Node, junk: Option<Bytes>)
    requires Busy(s, n) && s.workers[n].phase.Verified?
    ensures Shifts(s, DoMergeThrows(s, n, junk), n, false)
  {
    hide ResolveFinal;
  }

  lemma CheckShifts(s: State, n: Node, fingerprint: Option<string>, deleteThrows: bool)
    requires Busy(s, n) && s.workers[n].phase.HasMerged?
    ensures Shifts(s, DoCheck(s, n, fingerprint, deleteThrows), n, false)
  {
    hide Mismatch, Shifts, SetPhase;
    var HasMerged(snap, expected, m) := s.workers[n].phase;
    PhaseShifts(s, s, n, Failing(snap, Some(m.hex)), false);
    PhaseShifts(s, s.(finals := s.finals - {m.name}), n, Failing(snap, Some(m.hex)), false);
    PhaseShifts(s, s, n, Finishing(snap, m, if m.hex != "" then Some(m.hex) else expected,
                                   if fingerprint.Some? then fingerprint else snap.fingerprint), false);
  }

  lemma FinishShifts(be: Backend, s: State, n: Node)
    requires Busy(s, n) && s.workers[n].phase.Finishing?
    ensures Shifts(s, DoFinish(be, s, n), n, false)
  {
    hide FinishRow, Forget;
  }

  lemma FailShifts(be: Backend, s: State, n: Node)
    requires Busy(s, n) && s.workers[n].phase.Failing?
    ensures Shifts(s, DoFail(be, s, n), n, true)
  {
    hide FailRow, Forget;
  }

  lemma PublishShifts(s: State, n: Node, lost: bool)
    requires Busy(s, n) && s.workers[n].phase.Publishing?
    ensures Shifts(s, DoPublish(s, n, lost), n, false)
  {
  }

  lemma WorkShifts(c: Config, be: Backend, s: State, n: Node, step: WorkStep)
    requires WorkEnabled(c, s, n, step) && !step.TakeJob?
    ensures Shifts(s, ApplyWork(c, be, s, n, step), n, step.TryFail?)
  {
    hide Shifts, DoRead, DoVerify, DoMerge, DoMergeThrows, DoCheck, DoFinish, DoFail, DoPublish, EndJob, MergeOf;
    match step
    case ReadRow => ReadShifts(s, n);
    case VerifyParts => VerifyShifts(s, n);
    case MergeParts(raced) => MergeShifts(c, s, n, raced);
    case MergeThrows(junk) => MergeThrowsShifts(s, n, junk);
    case CheckDigest(fingerprint, deleteThrows) => CheckShifts(s, n, fingerprint, deleteThrows);
    case TryFinish => FinishShifts(be, s, n);
    case TryFail => FailShifts(be, s, n);
    case Publish(lost) => PublishShifts(s, n, lost);
    case JobDies => EndShifts(s, s, n);
  }

  lemma TakeShifts(s: State, n: Node)
    requires QueueOf(s, n) != [] && QueueOf(s, n)[0].id in s.uploads
    ensures DoTake(s, n).workers == s.workers[n := Worker(QueueOf(s, n)[0], Taken)]
  {
    hide QueueOf;
  }

  lemma WorkKeepsOtherWorkers(c: Config, be: Backend, s: State, n: Node, step: WorkStep, m: Node)
    requires WorkEnabled(c, s, n, step) && m != n && m in ApplyWork(c, be, s, n, step).workers
    ensures m in s.workers && ApplyWork(c, be, s, n, step).workers[m] == s.workers[m]
  {
    hide DoTake, DoRead, DoVerify, DoMerge, DoMergeThrows, DoCheck, DoFinish, DoFail, DoPublish, EndJob, MergeOf, QueueOf;
    if step.TakeJob? {
      TakeShifts(s, n);
    } else {
      WorkShifts(c, be, s, n, step);
    }
  }

  /** The events of the upload a worker's step is about: a Failed event is added only by a worker that was about to. */
  lemma OwnEvents(c: Config, be: Backend, s: State, n: Node, step: WorkStep, id: Id)
    requires WorkEnabled(c, s, n, step) && (id in s.uploads ==> Touches(s, n, step) == Some(id))
    requires id in ApplyWork(c, be, s, n, step).uploads && FailedEvent in ApplyWork(c, be, s, n, step).uploads[id].ledger.events
    ensures Told(s, id)
  {
    hide DoTake, DoRead, DoVerify, DoMerge, DoMergeThrows, DoCheck, DoFinish, DoFail, DoPublish, EndJob, MergeOf, QueueOf;
    match step
    case TakeJob => TakeEffect(s, n);
    case ReadRow => ReadEffect(s, n);
    case VerifyParts => VerifyEffect(s, n);
    case MergeParts(raced) => MergeEffect(c, s, n, raced);
    case MergeThrows(junk) => MergeThrowsEffect(s, n, junk);
    case CheckDigest(fingerprint, deleteThrows) => CheckEffect(s, n, fingerprint, deleteThrows);
    case TryFinish => FinishEffect(be, s, n);
    case TryFail => FailEffect(be, s, n);
    case Publish(lost) =>
      PublishEffect(s, n, lost);
      assert s.workers[n].phase == Publishing(FailedEvent) ==> AboutToTell(s, n, id);
    case JobDies => EndJobEffect(s, n);
  }

  /** Only the failing compare-and-set leaves a worker about to publish a Failed event; its job stays its job. */
  lemma OwnPhase(c: Config, be: Backend, s: State, n: Node, step: WorkStep)
    requires WorkEnabled(c, s, n, step)
    requires var s' := ApplyWork(c, be, s, n, step); n in s'.workers && s'.workers[n].phase == Publishing(FailedEvent)
    ensures step == TryFail && Busy(s, n) && ApplyWork(c, be, s, n, step).workers[n].job == s.workers[n].job
  {
    hide DoTake, DoRead, DoVerify, DoMerge, DoMergeThrows, DoCheck, DoFinish, DoFail, DoPublish, EndJob, MergeOf, QueueOf;
    if step.TakeJob? {
      TakeShifts(s, n);
    } else {
      WorkShifts(c, be, s, n, step);
    }
  }

  /** A worker's own step leads to a Failed event only from one, or by the failing compare-and-set. */
  lemma WorkTells(c: Config, be: Backend, s: State, n: Node, step: WorkStep, id: Id)
    requires WorkEnabled(c, s, n, step) && Told(ApplyWork(c, be, s, n, step), id)
    ensures Told(s, id) || (step == TryFail && n in s.workers && s.workers[n].job.id == id && id in s.uploads)
  {
    hide ApplyWork, MergeOf, At, Ends;
    var s' := ApplyWork(c, be, s, n, step);
    if id in s'.uploads && FailedEvent in s'.uploads[id].ledger.events {
      if Touches(s, n, step) != Some(id) && id in s.uploads {
        WorkLeavesOthers(c, be, s, n, step, id);
      } else {
        OwnEvents(c, be, s, n, step, id);
      }
    } else {
      var m :| AboutToTell(s', m, id);
      if m != n {
        WorkKeepsOtherWorkers(c, be, s, n, step, m);
        assert AboutToTell(s, m, id);
      } else {
        OwnPhase(c, be, s, n, step);
      }
    }
  }

  lemma StepTells(c: Config, be: Backend, s: State, step: Step, id: Id)
    requires Enabled(c, s, step) && Told(Apply(c, be, s, step), id) && !Told(s, id)
    ensures step.Working? && step.working == TryFail && step.n in s.workers && s.workers[step.n].job.id == id && id in s.uploads
  {
    hide AmbientEnabled, CallEnabled, WorkEnabled, CleanEnabled, ApplyAmbient, ApplyCall, ApplyWork, ApplyClean, Told;
    match step
    case Ambient(ambient) => AmbientTellsNothing(c, s, ambient, id);
    case Calling(r, calling) => CallTellsNothing(s, r, calling, id);
    case Working(n, working) => WorkTells(c, be, s, n, working, id);
    case Cleaning(n, cleaning) => CleanTellsNothing(s, n, cleaning, id);
  }

  /** No Failed event without a failing compare-and-set before it. */
  lemma {:induction false} ToldByAFailure(c: Config, be: Backend, states: seq<State>, steps: seq<Step>, k: nat, id: Id) returns (i: nat, n: Node)
    requires IsRun(c, be, states, steps) && k < |states| && Told(states[k], id)
    ensures i < k && FailsAt(states, steps, i, n, id)
  {
    hide Enabled, Apply, Told;
    if k == 0 {
      NothingTold(states[0], id);
    } else if Told(states[k - 1], id) {
      i, n := ToldByAFailure(c, be, states, steps, k - 1, id);
    } else {
      StepTells(c, be, states[k - 1], steps[k - 1], id);
      i, n := k - 1, steps[k - 1].n;
    }
  }

  lemma NothingTold(s: State, id: Id)
    requires Init(s)
    ensures !Told(s, id)
  {
  }

  lemma FailingRow(c: Config, n: Node, w: Worker, u: Upload)
    requires WorkerOk(c, n, w, u) && w.phase.Failing?
    ensures u.row.status == Completing || u.row.status == Expired
  {
  }

  lemma FailedOrNot(be: Backend, s: State, n: Node)
    requires Busy(s, n) && s.workers[n].phase.Failing?
    ensures var id := s.workers[n].job.id;
            var row := s.uploads[id].row;
            id in DoFail(be, s, n).uploads
            && DoFail(be, s, n).uploads[id].row.status == if row.status == Completing then Failed else row.status
  {
    hide Forget;
  }

  /** How the failing compare-and-set of a job leaves its session for good: Failed exactly when it found it Completing. */
  lemma FailureDecides(c: Config, be: Backend, states: seq<State>, steps: seq<Step>, i: nat, n: Node, k: nat, id: Id)
    requires ValidConfig(c) && IsRun(c, be, states, steps) && i < k < |states| && FailsAt(states, steps, i, n, id)
    ensures id in states[k].uploads
    ensures states[k].uploads[id].row.status == Failed <==> states[i].uploads[id].row.status == Completing
    ensures states[k].uploads[id].row.status == Expired <==> states[i].uploads[id].row.status == Expired
    ensures states[k].uploads[id].row.status in {Failed, Expired}
  {
    hide ValidConfig, Inv, CleanersOk, DoFail, WorkerOk, UploadOk;
    RunIsGood(c, be, states, steps, i);
    assert Enabled(c, states[i], steps[i]);
    WorkerIn(c, states[i], n);
    FailingRow(c, n, states[i].workers[n], states[i].uploads[id]);
    FailedOrNot(be, states[i], n);
    assert states[i + 1] == DoFail(be, states[i], n);
    EndedRowsStay(c, be, states, steps, i + 1, k, id);
  }

  /**
   A session with a Failed event had a failing compare-and-set; it is Failed if and only if its row was Completing then,
   and Expired if and only if cleanup had claimed it before.
   */
  lemma FailedEventExactlyWhen(c: Config, be: Backend, states: seq<State>, steps: seq<Step>, k: nat, id: Id) returns (i: nat, n: Node)
    requires ValidConfig(c) && IsRun(c, be, states, steps) && k < |states|
    requires id in states[k].uploads && FailedEvent in states[k].uploads[id].ledger.events
    ensures i < k && FailsAt(states, steps, i, n, id)
    ensures states[k].uploads[id].row.status == Failed <==> states[i].uploads[id].row.status == Completing
    ensures states[k].uploads[id].row.status == Expired <==> states[i].uploads[id].row.status == Expired
  {
    hide Enabled, Apply, ValidConfig;
    assert Told(states[k], id);
    i, n := ToldByAFailure(c, be, states, steps, k, id);
    FailureDecides(c, be, states, steps, i, n, k, id);
  }
}
