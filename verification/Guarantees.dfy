/** What the protocol promises of every state of every run, read off the invariant. */
module Guarantees {
  import opened Base
  import opened Checksums
  import opened Doubles
  import opened Effects
  import opened FinalNames
  import opened History
  import opened LeaseSteps
  import opened Leases
  import opened Protocol
  import opened Repository
  import opened Runs

  lemma ReachedUpload(c: Config, be: Backend, states: seq<State>, steps: seq<Step>, k: nat, id: Id)
    requires ValidConfig(c) && IsRun(c, be, states, steps) && k < |states| && id in states[k].uploads
    ensures UploadOk(c, states[k].uploads[id])
  {
    hide Enabled, Apply, Good, UploadOk, ValidConfig;
    RunIsGood(c, be, states, steps, k);
    GoodUpload(c, states[k], id);
  }

  /**
   A Completed session's only merge wrote exactly TotalSize bytes under its final name; its stored checksum, if any, is
   the digest of those bytes and meets the checksum given at complete or, failing that, at initiate; with
   AlwaysComputeFullChecksum on it is there.
   */
  lemma CompletedMeansVerifiedBytes(c: Config, be: Backend, states: seq<State>, steps: seq<Step>, k: nat, id: Id)
    requires ValidConfig(c) && IsRun(c, be, states, steps) && k < |states| && id in states[k].uploads
    requires states[k].uploads[id].row.status == Status.Completed
    ensures var u := states[k].uploads[id];
            && |u.ledger.merges| == 1
            && var m := u.ledger.merges[0];
               && |m.bytes| == u.row.totalSize && u.row.finalFileName == Some(m.name)
               && (u.row.checksum.Some? ==> u.row.checksum.value == c.sha(m.bytes))
               && (Expected(u.ledger.asked, u.born).Some? ==> u.row.checksum == Expected(u.ledger.asked, u.born))
               && (c.alwaysComputeFullChecksum ==> u.row.checksum.Some?)
  {
    hide Enabled, Apply, ValidConfig;
    ReachedUpload(c, be, states, steps, k, id);
  }

  lemma FinishesOf(c: Config, u: Upload)
    requires UploadOk(c, u)
    ensures u.ledger.finishes == One(u.row.status == Status.Completed)
  {
  }

  /** What a finish that wins writes, given what the job has found. */
  lemma FinishWrites(c: Config, be: Backend, s: State, n: Node)
    requires WorkEnabled(c, s, n, TryFinish) && WorkerOk(c, n, s.workers[n], s.uploads[s.workers[n].job.id])
    requires UploadOk(c, s.uploads[s.workers[n].job.id]) && s.uploads[s.workers[n].job.id].row.status == Completing
    ensures var id := s.workers[n].job.id;
            var s' := ApplyWork(c, be, s, n, TryFinish);
            id in s'.uploads && FinishedBy(s, n, id, s'.uploads[id].row)
  {
  }

  /** Node `n`, about to finish `id`, holds the name and the fingerprint that `row` has, and the clock reads its completion time. */
  ghost predicate FinishedBy(s: State, n: Node, id: Id, row: Session) {
    && Busy(s, n) && s.workers[n].job.id == id && s.workers[n].phase.Finishing?
    && row.completedAt == Some(s.clock) && row.finalFileName == Some(s.workers[n].phase.m.name)
    && row.fingerprint == s.workers[n].phase.fingerprint
  }

  /** Every Completed session was completed by one finishing step of a node, at the time its row says. */
  lemma {:induction false} CompletedByItsFinish(c: Config, be: Backend, states: seq<State>, steps: seq<Step>, k: nat, id: Id)
      returns (i: nat, n: Node)
    requires ValidConfig(c) && IsRun(c, be, states, steps) && k < |states| && id in states[k].uploads
    requires states[k].uploads[id].row.status == Status.Completed
    ensures i < k && steps[i] == Working(n, TryFinish) && FinishedBy(states[i], n, id, states[k].uploads[id].row)
  {
    hide Enabled, Apply, ValidConfig, UploadOk, WorkerOk, FinishedBy, Inv, CleanersOk, Moves;
    ReachedUpload(c, be, states, steps, k, id);
    FinishesOf(c, states[k].uploads[id]);
    assert k > 0;
    var s, step := states[k - 1], steps[k - 1];
    RunIsGood(c, be, states, steps, k - 1);
    if id in s.uploads {
      ReachedUpload(c, be, states, steps, k - 1, id);
      FinishesOf(c, s.uploads[id]);
    }
    if id in s.uploads && s.uploads[id].row.status == Status.Completed {
      i, n := CompletedByItsFinish(c, be, states, steps, k - 1, id);
      EndedRowsStay(c, be, states, steps, k - 1, k, id);
    } else {
      StepTallies(c, be, s, step, id, FinishWon);
      FinishDid(c, s, step, id);
      i, n := k - 1, step.n;
      WorkerIn(c, s, n);
      FinishApplies(c, be, s, n);
      FinishWrites(c, be, s, n);
    }
  }

  lemma FinishDid(c: Config, s: State, step: Step, id: Id)
    requires Enabled(c, s, step) && Did(c, s, step, id, FinishWon)
    ensures step.Working? && step.working == TryFinish && Busy(s, step.n) && s.workers[step.n].job.id == id
    ensures s.uploads[id].row.status == Completing && WorkEnabled(c, s, step.n, TryFinish)
  {
    hide AmbientEnabled, MergeOf;
  }

  lemma FinishApplies(c: Config, be: Backend, s: State, n: Node)
    requires WorkEnabled(c, s, n, TryFinish)
    ensures Enabled(c, s, Working(n, TryFinish)) && Apply(c, be, s, Working(n, TryFinish)) == ApplyWork(c, be, s, n, TryFinish)
  {
    hide WorkEnabled, ApplyWork;
  }

  /**
   A Failed session whose merges all threw, or that had none, keeps the checksum given at initiate; otherwise its only
   merge wrote TotalSize bytes, and the digest of those bytes is stored and is not the expected one.
   */
  lemma FailedMeansNoMergeOrWrongDigest(c: Config, be: Backend, states: seq<State>, steps: seq<Step>, k: nat, id: Id)
    requires ValidConfig(c) && IsRun(c, be, states, steps) && k < |states| && id in states[k].uploads
    requires states[k].uploads[id].row.status == Failed
    ensures var u := states[k].uploads[id];
            || (u.ledger.merges == [] && u.row.checksum == u.born.checksum)
            || (&& |u.ledger.merges| == 1 && |u.ledger.merges[0].bytes| == u.row.totalSize
                && var sum, expected := c.sha(u.ledger.merges[0].bytes), Expected(u.ledger.asked, u.born);
                   u.row.checksum == Some(sum) && expected.Some? && expected.value != sum)
  {
    hide Enabled, Apply, ValidConfig;
    ReachedUpload(c, be, states, steps, k, id);
  }

  /** Every session there ever is respects the limits of initiate, has the stored number of chunks and the configured lifetime. */
  lemma EverySessionIsAsAsked(c: Config, be: Backend, states: seq<State>, steps: seq<Step>, k: nat, id: Id)
    requires ValidConfig(c) && IsRun(c, be, states, steps) && k < |states| && id in states[k].uploads
    ensures var row := states[k].uploads[id].row;
            && Trim(row.fileName) != "" && row.totalSize > 0 && row.chunkSize > 0
            && (c.maxFileSizeBytes > 0 ==> row.totalSize <= c.maxFileSizeBytes)
            && (c.maxChunkSizeBytes > 0 ==> row.chunkSize <= c.maxChunkSizeBytes)
            && row.totalChunks == IntCount(row.totalSize, row.chunkSize) && row.expiresAt == row.createdAt + c.pendingTtl
  {
    hide Enabled, Apply, ValidConfig, IntCount, Trim;
    ReachedUpload(c, be, states, steps, k, id);
  }

  /** The event of an upload tells how it ended; a Failed event may also mean that cleanup was faster. */
  lemma EventsTellTheEnd(c: Config, be: Backend, states: seq<State>, steps: seq<Step>, k: nat, id: Id)
    requires ValidConfig(c) && IsRun(c, be, states, steps) && k < |states| && id in states[k].uploads
    ensures var u := states[k].uploads[id];
            && |u.ledger.events| <= 1
            && (u.ledger.events == [CompletedEvent] ==> u.row.status == Status.Completed)
            && (u.ledger.events == [FailedEvent] ==> u.row.status == Failed || u.row.status == Expired)
            && (u.ledger.events == [AbortedEvent] ==> u.row.status == Aborted)
  {
    hide Enabled, Apply, ValidConfig;
    ReachedUpload(c, be, states, steps, k, id);
  }

  /** Each Expired session had exactly one claim winner across the cluster, and no other session had one. */
  lemma ExpiredHasOneClaimWinner(c: Config, be: Backend, states: seq<State>, steps: seq<Step>, k: nat, id: Id)
    requires ValidConfig(c) && IsRun(c, be, states, steps) && k < |states| && id in states[k].uploads
    ensures Count(c, be, states, steps, k, id, ClaimWon) == if states[k].uploads[id].row.status == Expired then 1 else 0
  {
    hide Enabled, Apply, ValidConfig, Count;
    ReachedUpload(c, be, states, steps, k, id);
    LedgerIsHistory(c, be, states, steps, k, id, ClaimWon);
  }

  /** A cleanup cycle whose claim calls all returned leaves every listed session terminal, whatever others did meanwhile. */
  lemma CleanupSettlesWhatItListed(c: Config, be: Backend, states: seq<State>, steps: seq<Step>, k: nat, n: Node)
    requires ValidConfig(c) && IsRun(c, be, states, steps) && k < |states| && n in states[k].cleaners
    requires var cycle := states[k].cleaners[n];
             cycle.next == |cycle.listed| && cycle.deleting.None? && cycle.skipped == {}
    ensures forall i :: 0 <= i < |states[k].cleaners[n].listed| ==>
              var id := states[k].cleaners[n].listed[i];
              id in states[k].uploads && states[k].uploads[id].row.Terminal()
  {
    hide Enabled, Apply, ValidConfig, Inv;
    RunIsGood(c, be, states, steps, k);
    CleanerIn(states[k], n);
  }

  // ---- Part folders ------------------------------------------------------------------------------------

  /** The folder of `id` is there before and gone after. */
  ghost predicate FolderGoes(s: State, s': State, id: Id) { id in s.parts && id !in s'.parts }

  /** The step deletes the folder of `id`: a merge that succeeded, a won abort, or a claim whose deletion returns. */
  ghost predicate Deletes(s: State, step: Step, id: Id) {
    match step
    case Working(n, MergeParts(_)) => n in s.workers && s.workers[n].job.id == id
    case Calling(r, DeleteAborted) => r in s.calls && s.calls[r].id == id
    case Cleaning(n, DeleteClaimed(throws)) => n in s.cleaners && s.cleaners[n].deleting == Some(id) && !throws
    case _ => false
  }

  lemma CallFolders(c: Config, s: State, r: Request, step: CallStep, id: Id)
    requires Inv(c, s) && CallEnabled(s, r, step)
    ensures FolderGoes(s, ApplyCall(s, r, step), id) <==> id in s.parts && Deletes(s, Calling(r, step), id)
    ensures Deletes(s, Calling(r, step), id) ==> id in s.uploads && s.uploads[id].row.status == Aborted
  {
    hide UploadsOk, WorkersOk, QueuesOk, UploadOk, Forget, DoBegin, DoEnqueue, DoAbort, DoAbortPublish, EndCall, Books;
    match step
    case TryBegin => BeginEffect(s, r);
    case TryAbort => AbortEffect(s, r);
    case Enqueue => EnqueueEffect(s, r);
    case PublishAborted(lost) => AbortPublishEffect(s, r, lost);
    case CallDies => EndCallEffect(s, r);
    case CompleteCall(n, i, checksum) =>
    case AbortCall(n, i) =>
    case DeleteAborted => DeletedIsAborted(c, s, r);
  }

  lemma DeletedIsAborted(c: Config, s: State, r: Request)
    requires Inv(c, s) && CallEnabled(s, r, DeleteAborted)
    ensures s.uploads[s.calls[r].id].row.status == Aborted
  {
    hide UploadOk;
    AbortingIsAborted(c, s.uploads[s.calls[r].id], r);
  }

  lemma WorkFolders(c: Config, be: Backend, s: State, n: Node, step: WorkStep, id: Id)
    requires Inv(c, s) && WorkEnabled(c, s, n, step)
    ensures FolderGoes(s, ApplyWork(c, be, s, n, step), id) <==> id in s.parts && Deletes(s, Working(n, step), id)
    ensures Deletes(s, Working(n, step), id) ==>
              id in s.uploads && (s.uploads[id].row.status == Completing || s.uploads[id].row.status == Expired)
  {
    hide Inv, Books, ResolveFinal, DoTake, DoRead, DoVerify, DoMerge, DoMergeThrows, DoCheck, DoFinish, DoFail, DoPublish, EndJob, MergeOf, UploadOk, WorkerOk;
    match step
    case TakeJob => TakeEffect(s, n);
    case ReadRow => ReadEffect(s, n);
    case VerifyParts => VerifyEffect(s, n);
    case MergeParts(raced) => MergeEffect(c, s, n, raced); WorkerIn(c, s, n); InProgressWhileMerging(c, n, s.workers[n], s.uploads[s.workers[n].job.id]);
    case MergeThrows(junk) => MergeThrowsEffect(s, n, junk);
    case CheckDigest(fingerprint, deleteThrows) => CheckEffect(s, n, fingerprint, deleteThrows);
    case TryFinish => FinishEffect(be, s, n);
    case TryFail => FailEffect(be, s, n);
    case Publish(lost) => PublishEffect(s, n, lost);
    case JobDies => EndJobEffect(s, n);
  }

  lemma InProgressWhileMerging(c: Config, n: Node, w: Worker, u: Upload)
    requires WorkerOk(c, n, w, u) && w.phase.Verified?
    ensures InProgress(u)
  {
  }

  lemma CleanFolders(s: State, n: Node, step: CleanStep, id: Id)
    requires CleanersOk(s) && CleanEnabled(s, n, step)
    ensures FolderGoes(s, ApplyClean(s, n, step), id) <==> id in s.parts && Deletes(s, Cleaning(n, step), id)
    ensures Deletes(s, Cleaning(n, step), id) ==> id in s.uploads && s.uploads[id].row.status == Expired
  {
    hide ClaimRow, CleanerOk;
    if step.DeleteClaimed? {
      DeletingIsExpired(s, s.cleaners[n]);
    }
  }

  lemma DeletingIsExpired(s: State, k: Cleaner)
    requires CleanerOk(s, k) && k.deleting.Some?
    ensures k.deleting.value in s.uploads && s.uploads[k.deleting.value].row.status == Expired
  {
  }

  lemma AmbientFolders(c: Config, s: State, step: AmbientStep, id: Id)
    requires AmbientEnabled(c, s, step)
    ensures !FolderGoes(s, ApplyAmbient(c, s, step), id)
  {
    hide LookupResult, WithinLimits, ArgsOk, NewSession, HotSession, Admits, Remember, Forget, PartsOf, StillThere, ServedFromCache;
  }

  /**
   A part folder goes exactly when its upload's merge succeeds, its won abort deletes it, or the cleanup cycle that
   claimed it does; so no folder goes while its session is Pending.
   */
  lemma FoldersGoExactlyWhen(c: Config, be: Backend, states: seq<State>, steps: seq<Step>, k: nat, id: Id)
    requires ValidConfig(c) && IsRun(c, be, states, steps) && k < |steps|
    ensures FolderGoes(states[k], states[k + 1], id) <==> id in states[k].parts && Deletes(states[k], steps[k], id)
    ensures Deletes(states[k], steps[k], id) ==> id in states[k].uploads && states[k].uploads[id].row.status in {Completing, Aborted, Expired}
  {
    hide ValidConfig, Inv, CleanersOk, AmbientEnabled, CallEnabled, WorkEnabled, CleanEnabled, ApplyAmbient, ApplyCall, ApplyWork, ApplyClean;
    RunIsGood(c, be, states, steps, k);
    var s := states[k];
    match steps[k]
    case Ambient(ambient) => AmbientFolders(c, s, ambient, id);
    case Calling(r, calling) => CallFolders(c, s, r, calling, id);
    case Working(n, working) => WorkFolders(c, be, s, n, working, id);
    case Cleaning(n, cleaning) => CleanFolders(s, n, cleaning, id);
  }

  /** No step deletes an upload's part folder while its session is Pending. */
  lemma NoFolderGoesWhilePending(c: Config, be: Backend, states: seq<State>, steps: seq<Step>, k: nat, id: Id)
    requires ValidConfig(c) && IsRun(c, be, states, steps) && k < |steps|
    requires FolderGoes(states[k], states[k + 1], id)
    ensures id in states[k].uploads && states[k].uploads[id].row.status != Pending
  {
    hide ValidConfig, IsRun, Deletes, FolderGoes;
    FoldersGoExactlyWhen(c, be, states, steps, k, id);
  }
}
