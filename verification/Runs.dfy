/** Whole runs: the invariant in every state of every interleaving, and the theorems it carries. */
module Runs {
  import opened Base
  import opened Checksums
  import opened Effects
  import opened FinalNames
  import opened LeaseSteps
  import opened Leases
  import opened Merge
  import opened Protocol
  import opened Repository

  // ---- How an upload can move in one step --------------------------------------------------------------

  /** A terminal row never changes again, the initiate-time row never changes, and Pending is left once. */
  ghost predicate Moves(u: Upload, u': Upload) {
    && u'.born == u.born
    && (u.row.Terminal() ==> u'.row == u.row)
    && (u'.row.status == Pending ==> u.row.status == Pending)
    && (u.row.status == Status.Completed ==> u'.ledger.merges == u.ledger.merges)
  }

  ghost predicate Advances(s: State, s': State) {
    && s.clock <= s'.clock
    && forall id :: id in s.uploads ==> id in s'.uploads && Moves(s.uploads[id], s'.uploads[id])
  }

  lemma AdvancesOne(s: State, s': State, id: Id)
    requires OnlyUpload(s, s', id) && Moves(s.uploads[id], s'.uploads[id])
    ensures Advances(s, s')
  {
  }

  lemma AdvancesNone(s: State, s': State)
    requires s'.uploads == s.uploads && s.clock <= s'.clock
    ensures Advances(s, s')
  {
  }

  lemma AmbientAdvances(c: Config, s: State, step: AmbientStep)
    requires AmbientEnabled(c, s, step)
    ensures Advances(s, ApplyAmbient(c, s, step))
  {
    hide LookupResult, WithinLimits, ArgsOk, NewSession, Advances, HotSession, Admits, DoAdmit, StillThere, Remember, Forget, PartsOf;
    if step.Initiate? {
      AdvancesNew(s, ApplyAmbient(c, s, step), step.id);
    } else if step.Tick? {
      AdvancesNone(s, ApplyAmbient(c, s, step));
    } else {
      AmbientQuiet(c, s, step);
      AdvancesNone(s, ApplyAmbient(c, s, step));
    }
  }

  lemma AdvancesNew(s: State, s': State, id: Id)
    requires id !in s.uploads && id in s'.uploads && s'.uploads == s.uploads[id := s'.uploads[id]] && s'.clock == s.clock
    ensures Advances(s, s')
  {
  }

  /** A step that leaves the row and the merges of one upload alone. */
  lemma AdvancesStill(s: State, s': State, id: Id)
    requires OnlyUpload(s, s', id) && s'.uploads[id].row == s.uploads[id].row && s'.uploads[id].born == s.uploads[id].born
    requires s'.uploads[id].ledger.merges == s.uploads[id].ledger.merges
    ensures Advances(s, s')
  {
    hide Advances;
    AdvancesOne(s, s', id);
  }

  lemma BeginAdvances(s: State, r: Request)
    requires CallEnabled(s, r, TryBegin)
    ensures Advances(s, DoBegin(s, r))
  {
    hide Advances;
    if BeginRow(s.uploads[s.calls[r].id].row).Some? {
      AdvancesOne(s, DoBegin(s, r), s.calls[r].id);
    } else {
      AdvancesNone(s, DoBegin(s, r));
    }
  }

  lemma AbortAdvances(s: State, r: Request)
    requires CallEnabled(s, r, TryAbort)
    ensures Advances(s, DoAbort(s, r))
  {
    hide Advances;
    if AbortRow(s.uploads[s.calls[r].id].row).Some? {
      AdvancesOne(s, DoAbort(s, r), s.calls[r].id);
    } else {
      AdvancesNone(s, DoAbort(s, r));
    }
  }

  lemma CallAdvances(s: State, r: Request, step: CallStep)
    requires CallEnabled(s, r, step)
    ensures Advances(s, ApplyCall(s, r, step))
  {
    hide Advances, DoBegin, DoAbort, Forget, QueueOf;
    match step
    case CompleteCall(n, id, checksum) => AdvancesNone(s, ApplyCall(s, r, step));
    case AbortCall(n, id) => AdvancesNone(s, ApplyCall(s, r, step));
    case TryBegin => BeginAdvances(s, r);
    case TryAbort => AbortAdvances(s, r);
    case Enqueue => AdvancesStill(s, ApplyCall(s, r, step), s.calls[r].id);
    case DeleteAborted => AdvancesNone(s, ApplyCall(s, r, step));
    case PublishAborted(lost) => AdvancesStill(s, ApplyCall(s, r, step), s.calls[r].id);
    case CallDies => AdvancesStill(s, ApplyCall(s, r, step), s.calls[r].id);
  }

  lemma NotCompletedBefore(c: Config, n: Node, w: Worker, u: Upload)
    requires WorkerOk(c, n, w, u)
    ensures !w.phase.Publishing? ==> u.row.status != Status.Completed
  {
  }

  lemma EndJobAdvances(s: State, n: Node)
    requires Busy(s, n)
    ensures Advances(s, EndJob(s, n))
  {
    hide Advances;
    AdvancesOne(s, EndJob(s, n), s.workers[n].job.id);
  }

  lemma SetPhaseAdvances(s: State, n: Node, phase: Phase)
    requires Busy(s, n)
    ensures Advances(s, SetPhase(s, n, phase))
  {
    hide Advances;
    AdvancesNone(s, SetPhase(s, n, phase));
  }

  lemma VerifyAdvances(s: State, n: Node)
    requires Busy(s, n) && s.workers[n].phase.HasRead?
    ensures Advances(s, DoVerify(s, n))
  {
    hide AllPresent, BytesOnDisk, NormalizeChecksum, Advances, SetPhase, EndJob;
    var w, snap := s.workers[n], s.workers[n].phase.snap;
    EndJobAdvances(s, n);
    SetPhaseAdvances(s, n, Failing(snap, snap.checksum));
    if NormalizeChecksum(w.job.checksum).Success? {
      var sum := NormalizeChecksum(w.job.checksum).value;
      SetPhaseAdvances(s, n, Verified(snap, if sum.Some? then sum else snap.checksum));
    }
  }

  lemma ReadAdvances(s: State, n: Node)
    requires Busy(s, n)
    ensures Advances(s, DoRead(s, n))
  {
    hide Advances, SetPhase, EndJob;
    EndJobAdvances(s, n);
    SetPhaseAdvances(s, n, HasRead(s.uploads[s.workers[n].job.id].row));
  }

  lemma TakeAdvances(s: State, n: Node)
    requires QueueOf(s, n) != [] && QueueOf(s, n)[0].id in s.uploads
    ensures Advances(s, DoTake(s, n))
  {
    hide Advances;
    AdvancesStill(s, DoTake(s, n), QueueOf(s, n)[0].id);
  }

  lemma CheckAdvances(s: State, n: Node, fingerprint: Option<string>, deleteThrows: bool)
    requires Busy(s, n) && s.workers[n].phase.HasMerged?
    ensures Advances(s, DoCheck(s, n, fingerprint, deleteThrows))
  {
    hide Advances, Mismatch;
    AdvancesNone(s, DoCheck(s, n, fingerprint, deleteThrows));
  }

  lemma PublishAdvances(s: State, n: Node, lost: bool)
    requires Busy(s, n) && s.workers[n].phase.Publishing?
    ensures Advances(s, DoPublish(s, n, lost))
  {
    hide Advances;
    AdvancesStill(s, DoPublish(s, n, lost), s.workers[n].job.id);
  }

  lemma RowAdvances(c: Config, be: Backend, s: State, n: Node, step: WorkStep)
    requires WorkEnabled(c, s, n, step) && (step.TryFinish? || step.TryFail?)
    requires s.uploads[s.workers[n].job.id].row.status != Status.Completed
    ensures Advances(s, ApplyWork(c, be, s, n, step))
  {
    hide Advances;
    var s' := ApplyWork(c, be, s, n, step);
    EndJobAdvances(s, n);
    if s' != EndJob(s, n) {
      AdvancesOne(s, s', s.workers[n].job.id);
    }
  }

  lemma MergeAdvances(c: Config, s: State, n: Node, raced: Option<Bytes>)
    requires WorkEnabled(c, s, n, MergeParts(raced)) && s.uploads[s.workers[n].job.id].row.status != Status.Completed
    ensures Advances(s, DoMerge(c, s, n, raced))
  {
    hide MergeOf, ResolveFinal, Advances;
    AdvancesOne(s, DoMerge(c, s, n, raced), s.workers[n].job.id);
  }

  lemma MergeThrowsAdvances(s: State, n: Node, junk: Option<Bytes>)
    requires Busy(s, n) && s.workers[n].phase.Verified?
    ensures Advances(s, DoMergeThrows(s, n, junk))
  {
    hide ResolveFinal, Advances;
    AdvancesStill(s, DoMergeThrows(s, n, junk), s.workers[n].job.id);
  }

  lemma WorkAdvances(c: Config, be: Backend, s: State, n: Node, step: WorkStep)
    requires WorkEnabled(c, s, n, step) && WorkersOk(c, s)
    ensures Advances(s, ApplyWork(c, be, s, n, step))
  {
    hide MergeOf, WorkerOk, Advances, DoTake, DoRead, DoVerify, DoMerge, DoMergeThrows, DoCheck, DoFinish, DoFail, DoPublish, EndJob;
    if !step.TakeJob? {
      NotCompletedBefore(c, n, s.workers[n], s.uploads[s.workers[n].job.id]);
    }
    match step
    case MergeParts(raced) => MergeAdvances(c, s, n, raced);
    case MergeThrows(junk) => MergeThrowsAdvances(s, n, junk);
    case TryFinish => RowAdvances(c, be, s, n, step);
    case TryFail => RowAdvances(c, be, s, n, step);
    case VerifyParts => VerifyAdvances(s, n);
    case TakeJob => TakeAdvances(s, n);
    case ReadRow => ReadAdvances(s, n);
    case CheckDigest(fingerprint, deleteThrows) => CheckAdvances(s, n, fingerprint, deleteThrows);
    case Publish(lost) => PublishAdvances(s, n, lost);
    case JobDies => EndJobAdvances(s, n);
  }

  lemma ClaimMoves(u: Upload, now: int)
    requires ClaimRow(u.row, now).Some?
    ensures Moves(u, u.(row := ClaimRow(u.row, now).value, ledger := u.ledger.(claims := u.ledger.claims + 1)))
  {
  }

  lemma ClaimAdvances(s: State, n: Node)
    requires CleanEnabled(s, n, TryClaim)
    ensures Advances(s, DoClaim(s, n))
  {
    hide Advances, ClaimRow, Moves;
    var id := s.cleaners[n].listed[s.cleaners[n].next];
    if ClaimRow(s.uploads[id].row, s.clock).Some? {
      ClaimMoves(s.uploads[id], s.clock);
      AdvancesOne(s, DoClaim(s, n), id);
    } else {
      AdvancesNone(s, DoClaim(s, n));
    }
  }

  lemma CleanDeleteAdvances(s: State, n: Node, throws: bool)
    requires CleanEnabled(s, n, DeleteClaimed(throws))
    ensures Advances(s, DoCleanDelete(s, n, throws))
  {
    hide Advances;
    AdvancesNone(s, DoCleanDelete(s, n, throws));
  }

  lemma CleanAdvances(s: State, n: Node, step: CleanStep)
    requires CleanEnabled(s, n, step)
    ensures Advances(s, ApplyClean(s, n, step))
  {
    hide Advances, DoClaim, DoCleanDelete;
    match step
    case TryClaim => ClaimAdvances(s, n);
    case DeleteClaimed(throws) => CleanDeleteAdvances(s, n, throws);
    case _ => AdvancesNone(s, ApplyClean(s, n, step));
  }

  lemma StepAdvances(c: Config, be: Backend, s: State, step: Step)
    requires Enabled(c, s, step) && WorkersOk(c, s)
    ensures Advances(s, Apply(c, be, s, step))
  {
    hide AmbientEnabled, CallEnabled, WorkEnabled, CleanEnabled, ApplyAmbient, ApplyCall, ApplyWork, ApplyClean, WorkersOk, Advances;
    match step
    case Ambient(ambient) => AmbientAdvances(c, s, ambient);
    case Calling(r, calling) => CallAdvances(s, r, calling);
    case Working(n, working) => WorkAdvances(c, be, s, n, working);
    case Cleaning(n, cleaning) => CleanAdvances(s, n, cleaning);
  }

  // ---- The cleanup loops -------------------------------------------------------------------------------

  /** What a cleanup cycle listed had expired; what it dealt with is terminal; what it deletes is Expired. */
  ghost predicate CleanerOk(s: State, k: Cleaner) {
    && k.next <= |k.listed|
    && (forall i :: 0 <= i < |k.listed| ==> k.listed[i] in s.uploads && s.uploads[k.listed[i]].born.expiresAt <= s.clock)
    && (forall i :: 0 <= i < k.next ==> k.listed[i] in k.settled || k.listed[i] in k.skipped || k.deleting == Some(k.listed[i]))
    && (forall id :: id in k.settled ==> id in s.uploads && s.uploads[id].row.Terminal())
    && (k.deleting.Some? ==> k.deleting.value in s.uploads && s.uploads[k.deleting.value].row.status == Expired)
  }

  ghost predicate CleanersOk(s: State) {
    forall n :: n in s.cleaners ==> CleanerOk(s, s.cleaners[n])
  }

  lemma CleanerStays(s: State, s': State, k: Cleaner)
    requires CleanerOk(s, k) && Advances(s, s')
    ensures CleanerOk(s', k)
  {
    forall i | 0 <= i < |k.listed|
      ensures k.listed[i] in s'.uploads && s'.uploads[k.listed[i]].born.expiresAt <= s'.clock
    {
      assert Moves(s.uploads[k.listed[i]], s'.uploads[k.listed[i]]);
    }
    forall id | id in k.settled
      ensures id in s'.uploads && s'.uploads[id].row.Terminal()
    {
      assert Moves(s.uploads[id], s'.uploads[id]);
    }
    if k.deleting.Some? {
      assert Moves(s.uploads[k.deleting.value], s'.uploads[k.deleting.value]);
    }
  }

  lemma CleanersStay(s: State, s': State)
    requires CleanersOk(s) && Advances(s, s') && s'.cleaners == s.cleaners
    ensures CleanersOk(s')
  {
    forall n | n in s'.cleaners
      ensures CleanerOk(s', s'.cleaners[n])
    {
      CleanerStays(s, s', s.cleaners[n]);
    }
  }

  lemma CleanersButOne(s: State, s': State, n0: Node)
    requires CleanersOk(s) && Advances(s, s')
    requires forall n :: n in s'.cleaners && n != n0 ==> n in s.cleaners && s'.cleaners[n] == s.cleaners[n]
    requires n0 in s'.cleaners ==> CleanerOk(s', s'.cleaners[n0])
    ensures CleanersOk(s')
  {
    hide CleanerOk, Advances;
    forall n | n in s'.cleaners
      ensures CleanerOk(s', s'.cleaners[n])
    {
      if n != n0 {
        CleanerStays(s, s', s.cleaners[n]);
      }
    }
  }

  lemma ListOk(c: Config, s: State, n: Node, listed: seq<Id>)
    requires UploadsOk(c, s) && CleanEnabled(s, n, ListExpired(listed))
    ensures CleanerOk(ApplyClean(s, n, ListExpired(listed)), Cleaner(listed, 0, None, {}, {}))
  {
    hide StatusOk, WorkOk, EventsOk, BornOk;
    forall i | 0 <= i < |listed|
      ensures listed[i] in s.uploads && s.uploads[listed[i]].born.expiresAt <= s.clock
    {
      assert listed[i] in listed;
      assert UploadOk(c, s.uploads[listed[i]]);
    }
  }

  /** The four ways a cycle moves on. */
  lemma CleanerNext(s: State, k: Cleaner)
    requires CleanerOk(s, k)
    ensures k.deleting.None? && k.next < |k.listed| ==>
              var id := k.listed[k.next];
              && CleanerOk(s, k.(next := k.next + 1, skipped := k.skipped + {id}))
              && (s.uploads[id].row.Terminal() ==> CleanerOk(s, k.(next := k.next + 1, settled := k.settled + {id})))
              && (s.uploads[id].row.status == Expired ==> CleanerOk(s, k.(next := k.next + 1, deleting := Some(id))))
    ensures k.deleting.Some? ==> CleanerOk(s, k.(deleting := None, settled := k.settled + {k.deleting.value}))
  {
  }

  lemma ListedHasExpired(s: State, k: Cleaner)
    requires CleanerOk(s, k) && k.next < |k.listed|
    ensures k.listed[k.next] in s.uploads && s.uploads[k.listed[k.next]].born.expiresAt <= s.clock
  {
  }

  lemma ExpiryIsFixed(c: Config, u: Upload)
    requires UploadOk(c, u)
    ensures u.row.expiresAt == u.born.expiresAt
  {
  }

  /** A claim that is lost finds its session terminal, because a listed session has expired for good. */
  lemma ClaimSettles(c: Config, s: State, n: Node)
    requires UploadsOk(c, s) && n in s.cleaners && CleanerOk(s, s.cleaners[n]) && CleanEnabled(s, n, TryClaim)
    ensures CleanerOk(DoClaim(s, n), DoClaim(s, n).cleaners[n])
  {
    hide UploadOk, Advances, CleanerOk, UploadsOk;
    var k, s' := s.cleaners[n], DoClaim(s, n);
    var id := k.listed[k.next];
    ListedHasExpired(s, k);
    UploadIn(c, s, id);
    ExpiryIsFixed(c, s.uploads[id]);
    ClaimAdvances(s, n);
    CleanerStays(s, s', k);
    CleanerNext(s', k);
  }

  lemma CleanerMoves(c: Config, s: State, n: Node, step: CleanStep)
    requires UploadsOk(c, s) && CleanersOk(s) && CleanEnabled(s, n, step)
    ensures CleanersOk(ApplyClean(s, n, step))
  {
    hide UploadOk, CleanersOk, CleanerOk, Advances, UploadsOk;
    var s' := ApplyClean(s, n, step);
    CleanAdvances(s, n, step);
    if step.ListExpired? {
      ListOk(c, s, n, step.listed);
    } else {
      CleanerIn(s, n);
      CleanerStays(s, s', s.cleaners[n]);
      CleanerNext(s', s.cleaners[n]);
      if step.TryClaim? {
        ClaimSettles(c, s, n);
      }
    }
    CleanersButOne(s, s', n);
  }

  lemma CleanerIn(s: State, n: Node)
    requires CleanersOk(s) && n in s.cleaners
    ensures CleanerOk(s, s.cleaners[n])
  {
  }

  // ---- Every step, every run ---------------------------------------------------------------------------

  ghost predicate Good(c: Config, s: State) { Inv(c, s) && CleanersOk(s) }

  /** Everything but time and initiate only moves caches, parts and admissions. */
  lemma AmbientQuiet(c: Config, s: State, step: AmbientStep)
    requires AmbientEnabled(c, s, step) && !step.Tick? && !step.Initiate?
    ensures var s' := ApplyAmbient(c, s, step);
            && s'.uploads == s.uploads && s'.clock == s.clock && s'.calls == s.calls && s'.queues == s.queues
            && s'.workers == s.workers && s'.cleaners == s.cleaners && s'.finals == s.finals
  {
    hide LookupResult, WithinLimits, ArgsOk, HotSession, Admits, Remember, Forget, PartsOf, DoAdmit, StillThere;
    match step
    case Refresh(n, id) =>
    case Evict(n, id) =>
    case AdmitChunk(n, id, index) => AdmitQuiet(c, s, n, id, index);
    case SavePart(id, index, data) =>
    case DropPart(id, index) =>
  }

  lemma AdmitQuiet(c: Config, s: State, n: Node, id: Id, index: nat)
    requires id in s.uploads
    ensures var s' := DoAdmit(c, s, n, id, index);
            && s'.uploads == s.uploads && s'.clock == s.clock && s'.calls == s.calls && s'.queues == s.queues
            && s'.workers == s.workers && s'.cleaners == s.cleaners && s'.finals == s.finals
  {
    hide Remember, ServedFromCache;
    var seen := s.(admitted := s.admitted + {(id, index)});
    if ServedFromCache(s, n, id) {
      assert DoAdmit(c, s, n, id, index) == seen;
    } else {
      assert DoAdmit(c, s, n, id, index) == seen.(caches := Remember(c, s, n, id, s.uploads[id].row));
    }
  }

  lemma AmbientKeeps(c: Config, s: State, step: AmbientStep)
    requires Inv(c, s) && AmbientEnabled(c, s, step)
    ensures Inv(c, ApplyAmbient(c, s, step))
  {
    hide Inv, LookupResult, WithinLimits, ArgsOk, DoInitiate, DoAdmit, HotSession, Admits, StillThere;
    if step.Tick? {
      TickKeeps(c, s, step.now);
    } else if step.Initiate? {
      InitiateKeeps(c, s, step.n, step.id, step.args);
    } else {
      AmbientQuiet(c, s, step);
      QuietKeeps(c, s, ApplyAmbient(c, s, step));
    }
  }

  lemma CallKeeps(c: Config, s: State, r: Request, step: CallStep)
    requires Inv(c, s) && CallEnabled(s, r, step)
    ensures Inv(c, ApplyCall(s, r, step))
  {
    hide Inv, DoBegin, DoEnqueue, DoAbort, DoAbortPublish, EndCall;
    match step
    case CompleteCall(n, id, checksum) => NewCallKeeps(c, s, ApplyCall(s, r, step), r, WillBegin(n, id, checksum));
    case TryBegin => BeginKeeps(c, s, r);
    case Enqueue => EnqueueKeeps(c, s, r);
    case AbortCall(n, id) => NewCallKeeps(c, s, ApplyCall(s, r, step), r, WillAbort(n, id));
    case TryAbort => AbortKeeps(c, s, r);
    case DeleteAborted => AbortDeleteKeeps(c, s, r, ApplyCall(s, r, step));
    case PublishAborted(lost) => AbortPublishKeeps(c, s, r, lost);
    case CallDies => EndCallKeeps(c, s, r);
  }

  lemma WorkKeeps(c: Config, be: Backend, s: State, n: Node, step: WorkStep)
    requires ValidConfig(c) && Inv(c, s) && WorkEnabled(c, s, n, step)
    ensures Inv(c, ApplyWork(c, be, s, n, step))
  {
    hide Inv, ValidConfig, DoTake, DoRead, DoVerify, DoMerge, DoMergeThrows, DoCheck, DoFinish, DoFail, DoPublish, EndJob, MergeOf;
    match step
    case TakeJob => TakeKeeps(c, s, n);
    case ReadRow => ReadKeeps(c, s, n);
    case VerifyParts => VerifyKeeps(c, s, n);
    case MergeParts(raced) => MergeKeeps(c, s, n, raced);
    case MergeThrows(junk) => MergeThrowsKeeps(c, s, n, junk);
    case CheckDigest(fingerprint, deleteThrows) => CheckKeeps(c, s, n, fingerprint, deleteThrows);
    case TryFinish => FinishKeeps(c, be, s, n);
    case TryFail => FailKeeps(c, be, s, n);
    case Publish(lost) => PublishKeeps(c, s, n, lost);
    case JobDies => EndJobKeeps(c, s, n);
  }

  lemma CleanKeeps(c: Config, s: State, n: Node, step: CleanStep)
    requires Inv(c, s) && CleanEnabled(s, n, step)
    ensures Inv(c, ApplyClean(s, n, step))
  {
    hide Inv, DoClaim;
    if step.TryClaim? {
      ClaimKeeps(c, s, n);
    } else {
      QuietKeeps(c, s, ApplyClean(s, n, step));
    }
  }

  lemma AmbientCleaners(c: Config, s: State, step: AmbientStep)
    requires AmbientEnabled(c, s, step)
    ensures ApplyAmbient(c, s, step).cleaners == s.cleaners
  {
    hide AmbientEnabled, NewSession, Remember;
    if !step.Tick? && !step.Initiate? {
      AmbientQuiet(c, s, step);
    }
  }

  lemma CallCleaners(s: State, r: Request, step: CallStep)
    requires CallEnabled(s, r, step)
    ensures ApplyCall(s, r, step).cleaners == s.cleaners
  {
    hide DoBegin, DoEnqueue, DoAbort, DoAbortPublish, EndCall, Forget, Books;
    match step
    case CompleteCall(n, id, checksum) =>
    case TryBegin => BeginEffect(s, r);
    case Enqueue => EnqueueEffect(s, r);
    case AbortCall(n, id) =>
    case TryAbort => AbortEffect(s, r);
    case DeleteAborted =>
    case PublishAborted(lost) => AbortPublishEffect(s, r, lost);
    case CallDies => EndCallEffect(s, r);
  }

  lemma WorkCleaners(c: Config, be: Backend, s: State, n: Node, step: WorkStep)
    requires WorkEnabled(c, s, n, step)
    ensures ApplyWork(c, be, s, n, step).cleaners == s.cleaners
  {
    hide DoTake, DoRead, DoVerify, DoMerge, DoMergeThrows, DoCheck, DoFinish, DoFail, DoPublish, EndJob, MergeOf, Books, ResolveFinal;
    match step
    case TakeJob => TakeEffect(s, n);
    case ReadRow => ReadEffect(s, n);
    case VerifyParts => VerifyEffect(s, n);
    case MergeParts(raced) => MergeEffect(c, s, n, raced);
    case MergeThrows(junk) => MergeThrowsEffect(s, n, junk);
    case CheckDigest(fingerprint, deleteThrows) => CheckEffect(s, n, fingerprint, deleteThrows);
    case TryFinish => FinishEffect(be, s, n);
    case TryFail => FailEffect(be, s, n);
    case Publish(lost) => PublishEffect(s, n, lost);
    case JobDies => EndJobEffect(s, n);
  }

  lemma CleanersKept(c: Config, be: Backend, s: State, step: Step)
    requires Enabled(c, s, step) && !step.Cleaning?
    ensures Apply(c, be, s, step).cleaners == s.cleaners
  {
    hide AmbientEnabled, CallEnabled, WorkEnabled, ApplyAmbient, ApplyCall, ApplyWork;
    match step
    case Ambient(ambient) => AmbientCleaners(c, s, ambient);
    case Calling(r, calling) => CallCleaners(s, r, calling);
    case Working(n, working) => WorkCleaners(c, be, s, n, working);
  }

  lemma StepKeeps(c: Config, be: Backend, s: State, step: Step)
    requires ValidConfig(c) && Good(c, s) && Enabled(c, s, step)
    ensures Good(c, Apply(c, be, s, step)) && Advances(s, Apply(c, be, s, step))
  {
    hide UploadsOk, CallsOk, QueuesOk, WorkersOk, CleanersOk, Advances, ValidConfig, AmbientEnabled, CallEnabled, WorkEnabled, CleanEnabled,
         ApplyAmbient, ApplyCall, ApplyWork, ApplyClean;
    StepAdvances(c, be, s, step);
    match step
    case Ambient(ambient) => AmbientKeeps(c, s, ambient); CleanersKept(c, be, s, step); CleanersStay(s, Apply(c, be, s, step));
    case Calling(r, calling) => CallKeeps(c, s, r, calling); CleanersKept(c, be, s, step); CleanersStay(s, Apply(c, be, s, step));
    case Working(n, working) => WorkKeeps(c, be, s, n, working); CleanersKept(c, be, s, step); CleanersStay(s, Apply(c, be, s, step));
    case Cleaning(n, cleaning) => CleanKeeps(c, s, n, cleaning); CleanerMoves(c, s, n, cleaning);
  }

  /** The invariant holds in every state of every run. */
  lemma {:induction false} RunIsGood(c: Config, be: Backend, states: seq<State>, steps: seq<Step>, k: nat)
    requires ValidConfig(c) && IsRun(c, be, states, steps) && k < |states|
    ensures Good(c, states[k])
  {
    hide Inv, CleanersOk, Enabled, Apply, ValidConfig;
    if k == 0 {
      InitKeeps(c, states[0]);
      NoCleaners(states[0]);
    } else {
      RunIsGood(c, be, states, steps, k - 1);
      StepKeeps(c, be, states[k - 1], steps[k - 1]);
    }
  }

  lemma NoCleaners(s: State)
    requires Init(s)
    ensures CleanersOk(s)
  {
  }

  /** Ended rows stay, and Pending is left once. */
  lemma {:induction false} EndedRowsStay(c: Config, be: Backend, states: seq<State>, steps: seq<Step>, j: nat, k: nat, id: Id)
    requires ValidConfig(c) && IsRun(c, be, states, steps) && j <= k < |states| && id in states[j].uploads
    ensures id in states[k].uploads
    ensures states[j].uploads[id].row.Terminal() ==> states[k].uploads[id].row == states[j].uploads[id].row
    ensures states[k].uploads[id].row.status == Pending ==> states[j].uploads[id].row.status == Pending
    decreases k
  {
    hide Enabled, Apply, ValidConfig, Inv, CleanersOk;
    if j < k {
      EndedRowsStay(c, be, states, steps, j, k - 1, id);
      RunIsGood(c, be, states, steps, k - 1);
      StepKeeps(c, be, states[k - 1], steps[k - 1]);
      assert Moves(states[k - 1].uploads[id], states[k].uploads[id]);
    }
  }
}
