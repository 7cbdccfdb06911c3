/**
 What a state holds was put there by a step of the run: each stored part belongs to a chunk that was admitted, and the
 fingerprint of a Completed session is the one computed after its merge, or the client's when that failed.
 */
module Traces {
  import opened Base
  import opened CacheAdmission
  import opened Checksums
  import opened FinalNames
  import opened Guarantees
  import opened LeaseSteps
  import opened Leases
  import opened Merge
  import opened Protocol
  import opened Repository
  import opened Runs

  // ---- Who touches what --------------------------------------------------------------------------------

  /** No chunk is admitted and no part appears or changes. */
  ghost predicate NoTraffic(s: State, s': State) {
    && s'.admitted == s.admitted && s'.parts.Keys <= s.parts.Keys
    && forall id :: id in s'.parts ==> s'.parts[id] == s.parts[id]
  }

  lemma NoTrafficByParts(s: State, s': State, id: Id)
    requires s'.admitted == s.admitted && (s'.parts == s.parts || s'.parts == s.parts - {id})
    ensures NoTraffic(s, s')
  {
  }

  lemma BeginTouches(s: State, r: Request)
    requires CallEnabled(s, r, TryBegin)
    ensures var s' := DoBegin(s, r); s'.workers == s.workers && s'.admitted == s.admitted && s'.parts == s.parts
  {
    hide BeginRow;
    if BeginRow(s.uploads[s.calls[r].id].row).Some? {
    } else {
    }
  }

  lemma AbortTouches(s: State, r: Request)
    requires CallEnabled(s, r, TryAbort)
    ensures var s' := DoAbort(s, r); s'.workers == s.workers && s'.admitted == s.admitted && s'.parts == s.parts
  {
    hide AbortRow;
    if AbortRow(s.uploads[s.calls[r].id].row).Some? {
    } else {
    }
  }

  lemma CallTouches(s: State, r: Request, step: CallStep)
    requires CallEnabled(s, r, step)
    ensures ApplyCall(s, r, step).workers == s.workers && NoTraffic(s, ApplyCall(s, r, step))
  {
    hide DoBegin, DoAbort, Forget, QueueOf;
    match step
    case TryBegin => BeginTouches(s, r);
    case TryAbort => AbortTouches(s, r);
    case _ =>
  }

  lemma ClaimTouches(s: State, n: Node)
    requires CleanEnabled(s, n, TryClaim)
    ensures var s' := DoClaim(s, n); s'.workers == s.workers && s'.admitted == s.admitted && s'.parts == s.parts
  {
    hide ClaimRow;
    var k := s.cleaners[n];
    if ClaimRow(s.uploads[k.listed[k.next]].row, s.clock).Some? {
    } else {
    }
  }

  lemma CleanTouches(s: State, n: Node, step: CleanStep)
    requires CleanEnabled(s, n, step)
    ensures ApplyClean(s, n, step).workers == s.workers && NoTraffic(s, ApplyClean(s, n, step))
  {
    hide DoClaim, NoTraffic;
    var s' := ApplyClean(s, n, step);
    match step
    case TryClaim => ClaimTouches(s, n); NoTrafficByParts(s, s', "");
    case DeleteClaimed(throws) => NoTrafficByParts(s, s', s.cleaners[n].deleting.value);
    case ListExpired(listed) => NoTrafficByParts(s, s', "");
    case SkipClaim => NoTrafficByParts(s, s', "");
    case EndCycle => NoTrafficByParts(s, s', "");
  }

  // ---- The worker --------------------------------------------------------------------------------------

  /** Only worker `n` moves, no chunk is admitted and no part appears. */
  ghost predicate OnlyWorker(s: State, s': State, n: Node) {
    NoTraffic(s, s') && forall m :: m in s'.workers && m != n ==> m in s.workers && s'.workers[m] == s.workers[m]
  }

  /** If worker `n` is about to finish, the step has just computed its fingerprint. */
  ghost predicate Computed(s: State, s': State, n: Node, step: WorkStep) {
    n in s'.workers && s'.workers[n].phase.Finishing? ==>
      && step.CheckDigest? && n in s.workers && s.workers[n].phase.HasMerged? && s'.workers[n].job == s.workers[n].job
      && s'.workers[n].phase.fingerprint == if step.fingerprint.Some? then step.fingerprint else s.workers[n].phase.snap.fingerprint
  }

  lemma EndJobTouches(s: State, n: Node, step: WorkStep)
    requires Busy(s, n)
    ensures OnlyWorker(s, EndJob(s, n), n) && Computed(s, EndJob(s, n), n, step)
  {
  }

  lemma PhaseTouches(s: State, n: Node, phase: Phase, step: WorkStep)
    requires Busy(s, n) && !phase.Finishing?
    ensures OnlyWorker(s, SetPhase(s, n, phase), n) && Computed(s, SetPhase(s, n, phase), n, step)
  {
  }

  lemma VerifyTouches(s: State, n: Node)
    requires Busy(s, n) && s.workers[n].phase.HasRead?
    ensures OnlyWorker(s, DoVerify(s, n), n) && Computed(s, DoVerify(s, n), n, VerifyParts)
  {
    hide OnlyWorker, Computed, AllPresent, BytesOnDisk, NormalizeChecksum, PartsOf, SetPhase, EndJob;
    var w, snap := s.workers[n], s.workers[n].phase.snap;
    EndJobTouches(s, n, VerifyParts);
    PhaseTouches(s, n, Failing(snap, snap.checksum), VerifyParts);
    if NormalizeChecksum(w.job.checksum).Success? {
      var sum := NormalizeChecksum(w.job.checksum).value;
      PhaseTouches(s, n, Verified(snap, if sum.Some? then sum else snap.checksum), VerifyParts);
    }
  }

  lemma CheckTouches(s: State, n: Node, fingerprint: Option<string>, deleteThrows: bool)
    requires Busy(s, n) && s.workers[n].phase.HasMerged?
    ensures var s' := DoCheck(s, n, fingerprint, deleteThrows);
            OnlyWorker(s, s', n) && Computed(s, s', n, CheckDigest(fingerprint, deleteThrows))
  {
    hide Mismatch, OnlyWorker, Computed, SetPhase;
    var HasMerged(snap, expected, m) := s.workers[n].phase;
    var step := CheckDigest(fingerprint, deleteThrows);
    FinalsTouched(s, n, s.finals, Failing(snap, Some(m.hex)), step);
    FinalsTouched(s, n, s.finals - {m.name}, Failing(snap, Some(m.hex)), step);
    FinalsTouched(s, n, s.finals, Finishing(snap, m, if m.hex != "" then Some(m.hex) else expected,
                                            if fingerprint.Some? then fingerprint else snap.fingerprint), step);
  }

  lemma FinalsTouched(s: State, n: Node, finals: map<string, Final>, phase: Phase, step: WorkStep)
    requires Busy(s, n) && s.workers[n].phase.HasMerged? && step.CheckDigest?
    requires phase.Finishing? ==>
               phase.fingerprint == if step.fingerprint.Some? then step.fingerprint else s.workers[n].phase.snap.fingerprint
    ensures var s' := SetPhase(s.(finals := finals), n, phase); OnlyWorker(s, s', n) && Computed(s, s', n, step)
    ensures s.(finals := s.finals) == s
  {
  }

  lemma FinishTouches(be: Backend, s: State, n: Node)
    requires Busy(s, n) && s.workers[n].phase.Finishing?
    ensures OnlyWorker(s, DoFinish(be, s, n), n) && Computed(s, DoFinish(be, s, n), n, TryFinish)
  {
    hide FinishRow, Forget;
    var w := s.workers[n];
    if FinishRow(be, s.uploads[w.job.id].row, w.phase.m.name, w.phase.checksum, w.phase.fingerprint, s.clock).Some? {
    } else {
      EndJobTouches(s, n, TryFinish);
    }
  }

  lemma FailTouches(be: Backend, s: State, n: Node)
    requires Busy(s, n) && s.workers[n].phase.Failing?
    ensures OnlyWorker(s, DoFail(be, s, n), n) && Computed(s, DoFail(be, s, n), n, TryFail)
  {
    hide FailRow, Forget;
  }

  lemma MergeTouches(c: Config, s: State, n: Node, raced: Option<Bytes>)
    requires WorkEnabled(c, s, n, MergeParts(raced))
    ensures OnlyWorker(s, DoMerge(c, s, n, raced), n) && Computed(s, DoMerge(c, s, n, raced), n, MergeParts(raced))
  {
    hide MergeOf, ResolveFinal;
  }

  lemma MergeThrowsTouches(s: State, n: Node, junk: Option<Bytes>)
    requires Busy(s, n) && s.workers[n].phase.Verified?
    ensures OnlyWorker(s, DoMergeThrows(s, n, junk), n) && Computed(s, DoMergeThrows(s, n, junk), n, MergeThrows(junk))
  {
    hide ResolveFinal;
  }

  lemma WorkTouches(c: Config, be: Backend, s: State, n: Node, step: WorkStep)
    requires WorkEnabled(c, s, n, step)
    ensures OnlyWorker(s, ApplyWork(c, be, s, n, step), n) && Computed(s, ApplyWork(c, be, s, n, step), n, step)
  {
    hide OnlyWorker, Computed, DoTake, DoRead, DoVerify, DoMerge, DoMergeThrows, DoCheck, DoFinish, DoFail, DoPublish, EndJob, MergeOf;
    match step
    case TakeJob => TakeTouches(s, n);
    case ReadRow => ReadTouches(s, n);
    case VerifyParts => VerifyTouches(s, n);
    case MergeParts(raced) => MergeTouches(c, s, n, raced);
    case MergeThrows(junk) => MergeThrowsTouches(s, n, junk);
    case CheckDigest(fingerprint, deleteThrows) => CheckTouches(s, n, fingerprint, deleteThrows);
    case TryFinish => FinishTouches(be, s, n);
    case TryFail => FailTouches(be, s, n);
    case Publish(lost) => PublishTouches(s, n, lost);
    case JobDies => EndJobTouches(s, n, step);
  }

  lemma TakeTouches(s: State, n: Node)
    requires QueueOf(s, n) != [] && QueueOf(s, n)[0].id in s.uploads
    ensures OnlyWorker(s, DoTake(s, n), n) && Computed(s, DoTake(s, n), n, TakeJob)
  {
    hide QueueOf;
  }

  lemma ReadTouches(s: State, n: Node)
    requires Busy(s, n)
    ensures OnlyWorker(s, DoRead(s, n), n) && Computed(s, DoRead(s, n), n, ReadRow)
  {
    hide OnlyWorker, Computed, SetPhase, EndJob;
    EndJobTouches(s, n, ReadRow);
    PhaseTouches(s, n, HasRead(s.uploads[s.workers[n].job.id].row), ReadRow);
  }

  lemma PublishTouches(s: State, n: Node, lost: bool)
    requires Busy(s, n) && s.workers[n].phase.Publishing?
    ensures OnlyWorker(s, DoPublish(s, n, lost), n) && Computed(s, DoPublish(s, n, lost), n, Publish(lost))
  {
  }

  // ---- Stored parts ------------------------------------------------------------------------------------

  /** A part that is there after the step was there before or had been admitted; an admission is old or the step's own. */
  ghost predicate Sourced(s: State, s': State, step: Step, id: Id, index: nat) {
    && (index in PartsOf(s', id) ==> index in PartsOf(s, id) || (id, index) in s.admitted)
    && ((id, index) in s'.admitted ==>
          (id, index) in s.admitted || (step.Ambient? && step.ambient.AdmitChunk? && step.ambient.id == id && step.ambient.index == index))
  }

  lemma AmbientSourced(c: Config, s: State, step: AmbientStep, id: Id, index: nat)
    requires AmbientEnabled(c, s, step)
    ensures Sourced(s, ApplyAmbient(c, s, step), Ambient(step), id, index)
  {
    hide LookupResult, WithinLimits, ArgsOk, NewSession, HotSession, Admits, Remember, Forget, StillThere, DoAdmit, DoInitiate;
    match step
    case Tick(_) =>
    case Initiate(n, other, args, _) => InitiateTraffic(c, s, n, other, args);
    case Refresh(_, _) =>
    case Evict(_, _) =>
    case AdmitChunk(n, other, i) => AdmitTraffic(c, s, n, other, i);
    case SavePart(_, _, _) =>
    case DropPart(_, _) =>
  }

  lemma InitiateTraffic(c: Config, s: State, n: Node, id: Id, args: InitiateArgs)
    requires ArgsOk(c, args)
    ensures var s' := DoInitiate(c, s, n, id, args); s'.admitted == s.admitted && s'.parts == s.parts[id := map[]]
  {
    hide NewSession, Remember;
  }

  lemma AdmitTraffic(c: Config, s: State, n: Node, id: Id, index: nat)
    requires id in s.uploads
    ensures var s' := DoAdmit(c, s, n, id, index); s'.admitted == s.admitted + {(id, index)} && s'.parts == s.parts
  {
    hide Remember, ServedFromCache;
    var seen := s.(admitted := s.admitted + {(id, index)});
    if ServedFromCache(s, n, id) {
      assert DoAdmit(c, s, n, id, index) == seen;
    } else {
      assert DoAdmit(c, s, n, id, index) == seen.(caches := Remember(c, s, n, id, s.uploads[id].row));
    }
  }

  lemma QuietSourced(s: State, s': State, step: Step, id: Id, index: nat)
    requires NoTraffic(s, s')
    ensures Sourced(s, s', step, id, index)
  {
  }

  lemma StepSourced(c: Config, be: Backend, s: State, step: Step, id: Id, index: nat)
    requires Enabled(c, s, step)
    ensures Sourced(s, Apply(c, be, s, step), step, id, index)
  {
    hide AmbientEnabled, CallEnabled, WorkEnabled, CleanEnabled, ApplyAmbient, ApplyCall, ApplyWork, ApplyClean, Sourced, NoTraffic, Computed;
    var s' := Apply(c, be, s, step);
    match step
    case Ambient(ambient) => AmbientSourced(c, s, ambient, id, index);
    case Calling(r, calling) => CallTouches(s, r, calling); QuietSourced(s, s', step, id, index);
    case Working(n, working) => WorkTouches(c, be, s, n, working); QuietSourced(s, s', step, id, index);
    case Cleaning(n, cleaning) => CleanTouches(s, n, cleaning); QuietSourced(s, s', step, id, index);
  }

  lemma {:induction false} AdmittedByAStep(c: Config, be: Backend, states: seq<State>, steps: seq<Step>, k: nat, id: Id, index: nat)
      returns (j: nat)
    requires IsRun(c, be, states, steps) && k < |states| && (id, index) in states[k].admitted
    ensures j < k && steps[j].Ambient? && steps[j].ambient.AdmitChunk? && steps[j].ambient.id == id && steps[j].ambient.index == index
  {
    hide Enabled, Apply;
    assert k > 0;
    StepSourced(c, be, states[k - 1], steps[k - 1], id, index);
    if (id, index) in states[k - 1].admitted {
      j := AdmittedByAStep(c, be, states, steps, k - 1, id, index);
    } else {
      j := k - 1;
    }
  }

  lemma {:induction false} StoredIsAdmitted(c: Config, be: Backend, states: seq<State>, steps: seq<Step>, k: nat, id: Id, index: nat)
      returns (j: nat)
    requires IsRun(c, be, states, steps) && k < |states| && index in PartsOf(states[k], id)
    ensures j < k && steps[j].Ambient? && steps[j].ambient.AdmitChunk? && steps[j].ambient.id == id && steps[j].ambient.index == index
  {
    hide Enabled, Apply;
    assert k > 0;
    StepSourced(c, be, states[k - 1], steps[k - 1], id, index);
    if index in PartsOf(states[k - 1], id) {
      j := StoredIsAdmitted(c, be, states, steps, k - 1, id, index);
    } else {
      j := AdmittedByAStep(c, be, states, steps, k - 1, id, index);
    }
  }

  /** Every part in the store is in the range of its session and was admitted by a step, before the session expired. */
  lemma StoredPartsWereAdmitted(c: Config, be: Backend, states: seq<State>, steps: seq<Step>, k: nat, id: Id, index: nat)
      returns (j: nat, n: Node)
    requires ValidConfig(c) && IsRun(c, be, states, steps) && k < |states| && index in PartsOf(states[k], id)
    ensures j < k && steps[j] == Ambient(AdmitChunk(n, id, index))
    ensures id in states[k].uploads && index < states[k].uploads[id].row.totalChunks
    ensures states[j].clock < states[k].uploads[id].row.expiresAt
  {
    hide Apply, ValidConfig, Admits, ServedFromCache, PartsOf, SameShape;
    j := StoredIsAdmitted(c, be, states, steps, k, id, index);
    n := steps[j].ambient.n;
    assert Enabled(c, states[j], steps[j]);
    AdmittedInRange(c, be, states, steps, j, n, id, index);
    BornStays(c, be, states, steps, j, k, id);
    ShapeOf(c, be, states, steps, j, id);
    ShapeOf(c, be, states, steps, k, id);
    SameLimits(states[j].uploads[id].row, states[k].uploads[id].row, states[j].uploads[id].born);
  }

  lemma AdmittedInRange(c: Config, be: Backend, states: seq<State>, steps: seq<Step>, j: nat, n: Node, id: Id, index: nat)
    requires ValidConfig(c) && IsRun(c, be, states, steps) && j < |steps| && steps[j] == Ambient(AdmitChunk(n, id, index))
    ensures id in states[j].uploads
    ensures index < states[j].uploads[id].row.totalChunks && states[j].clock < states[j].uploads[id].row.expiresAt
  {
    hide ValidConfig, Apply;
    assert Enabled(c, states[j], steps[j]);
    if ServedFromCache(states[j], n, id) {
      AdmittedFromCacheWasPending(c, be, states, steps, j, n, id, index);
    }
  }

  // ---- The fingerprint of a Completed session ----------------------------------------------------------

  /** Node `n` held the same worker before the step, or the step has just computed its fingerprint. */
  ghost predicate FinishingFrom(s: State, s': State, step: Step, n: Node) {
    n in s'.workers && s'.workers[n].phase.Finishing? ==>
      || (n in s.workers && s'.workers[n] == s.workers[n])
      || (step.Working? && step.n == n && Computed(s, s', n, step.working))
  }

  lemma StepFinishing(c: Config, be: Backend, s: State, step: Step, n: Node)
    requires Enabled(c, s, step)
    ensures FinishingFrom(s, Apply(c, be, s, step), step, n)
  {
    hide AmbientEnabled, CallEnabled, WorkEnabled, CleanEnabled, ApplyAmbient, ApplyCall, ApplyWork, ApplyClean, NoTraffic, Computed;
    match step
    case Ambient(ambient) => AmbientWorkers(c, s, ambient);
    case Calling(r, calling) => CallTouches(s, r, calling);
    case Working(m, working) => WorkTouches(c, be, s, m, working);
    case Cleaning(m, cleaning) => CleanTouches(s, m, cleaning);
  }

  lemma AmbientWorkers(c: Config, s: State, step: AmbientStep)
    requires AmbientEnabled(c, s, step)
    ensures ApplyAmbient(c, s, step).workers == s.workers
  {
    hide LookupResult, WithinLimits, ArgsOk, NewSession, HotSession, Admits, Remember, Forget, PartsOf, StillThere, DoAdmit;
    if !step.Tick? && !step.Initiate? {
      AmbientQuiet(c, s, step);
    }
  }

  /** Step `j` compared the digests of `id` on node `n`, computed `fp` and leads to the fingerprint `stored`. */
  ghost predicate FingerprintedAt(states: seq<State>, steps: seq<Step>, j: nat, n: Node, id: Id, stored: Option<string>) {
    && j < |steps| && j < |states| && steps[j].Working? && steps[j].n == n && steps[j].working.CheckDigest?
    && n in states[j].workers && states[j].workers[n].job.id == id && id in states[j].uploads
    && var fp := steps[j].working.fingerprint;
       stored == if fp.Some? then fp else states[j].uploads[id].born.fingerprint
  }

  lemma SnapHasBornFingerprint(c: Config, n: Node, w: Worker, u: Upload)
    requires WorkerOk(c, n, w, u) && w.phase.HasMerged?
    ensures w.phase.snap.fingerprint == u.born.fingerprint
  {
  }

  lemma {:induction false} FinishingWasComputed(c: Config, be: Backend, states: seq<State>, steps: seq<Step>, k: nat, n: Node)
      returns (j: nat)
    requires ValidConfig(c) && IsRun(c, be, states, steps) && k < |states|
    requires n in states[k].workers && states[k].workers[n].phase.Finishing?
    ensures j < k && FingerprintedAt(states, steps, j, n, states[k].workers[n].job.id, states[k].workers[n].phase.fingerprint)
  {
    hide Enabled, Apply, ValidConfig, Inv, CleanersOk, UploadOk, WorkerOk;
    assert k > 0;
    var s := states[k - 1];
    StepFinishing(c, be, s, steps[k - 1], n);
    if n in s.workers && states[k].workers[n] == s.workers[n] {
      j := FinishingWasComputed(c, be, states, steps, k - 1, n);
    } else {
      j := k - 1;
      RunIsGood(c, be, states, steps, j);
      BusyWorker(c, s, n);
      WorkerIn(c, s, n);
      SnapHasBornFingerprint(c, n, s.workers[n], s.uploads[s.workers[n].job.id]);
    }
  }

  lemma BusyWorker(c: Config, s: State, n: Node)
    requires Inv(c, s) && n in s.workers
    ensures Busy(s, n)
  {
    hide WorkerOk, UploadOk;
  }

  /**
   The fingerprint of a Completed session is the one computed when its merge had been checked, or the client's when
   that computation failed.
   */
  lemma CompletedFingerprint(c: Config, be: Backend, states: seq<State>, steps: seq<Step>, k: nat, id: Id)
      returns (j: nat, n: Node)
    requires ValidConfig(c) && IsRun(c, be, states, steps) && k < |states| && id in states[k].uploads
    requires states[k].uploads[id].row.status == Status.Completed
    ensures j < k && FingerprintedAt(states, steps, j, n, id, states[k].uploads[id].row.fingerprint)
  {
    hide ValidConfig, Enabled, Apply, FingerprintedAt;
    var i;
    i, n := CompletedByItsFinish(c, be, states, steps, k, id);
    j := FinishingWasComputed(c, be, states, steps, i, n);
  }
}
