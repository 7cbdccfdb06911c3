/**
 Final objects.  A merge spares the other objects exactly when one of its two names is free.  As long as that is so,
 Completed sessions have distinct final names whose bytes never change, and a checksum dedupe hit names the right bytes;
 and it is always so while no client names a file after an upload id.
 */
module Finals {
  import opened Base
  import opened CacheAdmission
  import opened Checksums
  import opened Effects
  import opened FinalNames
  import opened Guarantees
  import History
  import opened LeaseSteps
  import opened Leases
  import opened Merge
  import opened Protocol
  import opened Repository
  import opened Runs

  /** No client file name contains the id of any upload. */
  ghost predicate NoNameHoldsAnId(s: State) {
    forall a, b :: a in s.uploads && b in s.uploads ==> !Contains(s.uploads[a].born.fileName, b)
  }

  /** A final object was written by a merge of its writer, under one of the two names that merge may use. */
  ghost predicate WrittenBy(s: State, name: string, w: Id) {
    && w in s.uploads && s.uploads[w].ledger.mergeTries >= 1
    && (name == s.uploads[w].born.fileName || name == Suffixed(s.uploads[w].born.fileName, w))
  }

  ghost predicate HasFinal(s: State, m: MergeRecord, id: Id) {
    m.name in s.finals && s.finals[m.name] == Final(m.bytes, id)
  }

  ghost predicate IdsOk(s: State) { forall id :: id in s.uploads ==> GuidText(id) }

  ghost predicate WritersOk(s: State) { forall name :: name in s.finals ==> WrittenBy(s, name, s.finals[name].writer) }

  ghost predicate CompletedOk(s: State) {
    forall id :: id in s.uploads && s.uploads[id].row.status == Status.Completed ==>
      |s.uploads[id].ledger.merges| == 1 && HasFinal(s, s.uploads[id].ledger.merges[0], id)
  }

  ghost predicate MergersOk(s: State) {
    forall n :: n in s.workers && (s.workers[n].phase.HasMerged? || s.workers[n].phase.Finishing?) ==>
      HasFinal(s, s.workers[n].phase.m, s.workers[n].job.id)
  }

  ghost predicate FinalsOk(s: State) { IdsOk(s) && WritersOk(s) && CompletedOk(s) && MergersOk(s) }

  /** Node `n`'s worker, about to merge, finds both of its names taken. */
  ghost predicate BothTaken(s: State, n: Node) {
    && Busy(s, n) && s.workers[n].phase.Verified?
    && s.workers[n].phase.snap.fileName in s.finals
    && Suffixed(s.workers[n].phase.snap.fileName, s.workers[n].job.id) in s.finals
  }

  /** The step writes a final object. */
  predicate Writes(step: Step) {
    step.Working? && (step.working.MergeParts? || (step.working.MergeThrows? && step.working.junk.Some?))
  }

  ghost predicate Clashes(s: State, step: Step) { Writes(step) && BothTaken(s, step.n) }

  /** No merge before state `k` found both of its names taken. */
  ghost predicate NoClash(states: seq<State>, steps: seq<Step>, k: nat) {
    forall i :: 0 <= i < k && i < |states| && i < |steps| ==> !Clashes(states[i], steps[i])
  }

  /** With both names taken, another client's file name contains this upload's id. */
  lemma BothTakenNamesTheId(s: State, id: Id)
    requires IdsOk(s) && WritersOk(s) && id in s.uploads && s.uploads[id].ledger.mergeTries == 0
    requires s.uploads[id].born.fileName in s.finals && Suffixed(s.uploads[id].born.fileName, id) in s.finals
    ensures exists w :: w in s.uploads && w != id && Contains(s.uploads[w].born.fileName, id)
  {
    hide Suffixed, Contains, GuidText;
    var file := s.uploads[id].born.fileName;
    var name := Suffixed(file, id);
    var w := s.finals[name].writer;
    assert WrittenBy(s, name, w);
    SuffixedContainsId(file, id);
    var other := s.uploads[w].born.fileName;
    if !Contains(other, id) {
      assert name == Suffixed(other, w);
      SuffixedMentionsOneId(other, w, id);
    }
    assert w in s.uploads && w != id && Contains(s.uploads[w].born.fileName, id);
  }

  // ---- Steps -------------------------------------------------------------------------------------------

  /** The upload changes in nothing the final objects depend on, and does not become Completed. */
  ghost predicate Quiet(u: Upload, u': Upload) {
    && u'.born == u.born && u'.ledger.merges == u.ledger.merges && u'.ledger.mergeTries >= u.ledger.mergeTries
    && (u'.row.status == Status.Completed ==> u.row.status == Status.Completed)
  }

  /** No worker newly claims a merged object. */
  ghost predicate NoNewMerger(s: State, s': State) {
    forall n :: n in s'.workers && (s'.workers[n].phase.HasMerged? || s'.workers[n].phase.Finishing?) ==>
      n in s.workers && s'.workers[n] == s.workers[n]
  }

  lemma StayOne(s: State, s': State, id: Id)
    requires FinalsOk(s) && s'.finals == s.finals && OnlyUpload(s, s', id) && Quiet(s.uploads[id], s'.uploads[id]) && NoNewMerger(s, s')
    ensures FinalsOk(s')
  {
    forall name | name in s'.finals
      ensures WrittenBy(s', name, s'.finals[name].writer)
    {
      assert WrittenBy(s, name, s.finals[name].writer);
    }
  }

  lemma StayNone(s: State, s': State)
    requires FinalsOk(s) && s'.finals == s.finals && s'.uploads == s.uploads && NoNewMerger(s, s')
    ensures FinalsOk(s')
  {
    forall name | name in s'.finals
      ensures WrittenBy(s', name, s'.finals[name].writer)
    {
      assert WrittenBy(s, name, s.finals[name].writer);
    }
  }

  lemma InitiateStays(c: Config, s: State, n: Node, id: Id, args: InitiateArgs)
    requires FinalsOk(s) && id !in s.uploads && GuidText(id) && ArgsOk(c, args)
    ensures FinalsOk(DoInitiate(c, s, n, id, args))
  {
    hide Remember;
    var s' := DoInitiate(c, s, n, id, args);
    forall name | name in s'.finals
      ensures WrittenBy(s', name, s'.finals[name].writer)
    {
      assert WrittenBy(s, name, s.finals[name].writer);
    }
  }

  lemma AmbientStays(c: Config, s: State, step: AmbientStep)
    requires FinalsOk(s) && AmbientEnabled(c, s, step)
    ensures FinalsOk(ApplyAmbient(c, s, step))
  {
    hide FinalsOk, LookupResult, WithinLimits, ArgsOk, HotSession, Admits, DoAdmit, StillThere, DoInitiate, Remember, Forget, PartsOf;
    if step.Initiate? {
      InitiateStays(c, s, step.n, step.id, step.args);
    } else {
      if !step.Tick? {
        AmbientQuiet(c, s, step);
      }
      StayNone(s, ApplyAmbient(c, s, step));
    }
  }

  lemma BeginStays(s: State, r: Request)
    requires FinalsOk(s) && CallEnabled(s, r, TryBegin)
    ensures FinalsOk(DoBegin(s, r))
  {
    hide FinalsOk;
    if BeginRow(s.uploads[s.calls[r].id].row).Some? {
      StayOne(s, DoBegin(s, r), s.calls[r].id);
    } else {
      StayNone(s, DoBegin(s, r));
    }
  }

  lemma AbortStays(s: State, r: Request)
    requires FinalsOk(s) && CallEnabled(s, r, TryAbort)
    ensures FinalsOk(DoAbort(s, r))
  {
    hide FinalsOk;
    if AbortRow(s.uploads[s.calls[r].id].row).Some? {
      StayOne(s, DoAbort(s, r), s.calls[r].id);
    } else {
      StayNone(s, DoAbort(s, r));
    }
  }

  lemma EnqueueStays(s: State, r: Request)
    requires FinalsOk(s) && CallEnabled(s, r, Enqueue)
    ensures FinalsOk(DoEnqueue(s, r))
  {
    hide FinalsOk, QueueOf;
    StayOne(s, DoEnqueue(s, r), s.calls[r].id);
  }

  lemma AbortPublishStays(s: State, r: Request, lost: bool)
    requires FinalsOk(s) && CallEnabled(s, r, PublishAborted(lost))
    ensures FinalsOk(DoAbortPublish(s, r, lost))
  {
    hide FinalsOk;
    StayOne(s, DoAbortPublish(s, r, lost), s.calls[r].id);
  }

  lemma EndCallStays(s: State, r: Request)
    requires FinalsOk(s) && CallEnabled(s, r, CallDies)
    ensures FinalsOk(EndCall(s, r))
  {
    hide FinalsOk;
    StayOne(s, EndCall(s, r), s.calls[r].id);
  }

  lemma CallStays(s: State, r: Request, step: CallStep)
    requires FinalsOk(s) && CallEnabled(s, r, step)
    ensures FinalsOk(ApplyCall(s, r, step))
  {
    hide FinalsOk, DoBegin, DoAbort, DoEnqueue, DoAbortPublish, EndCall, Forget;
    var s' := ApplyCall(s, r, step);
    match step
    case CompleteCall(_, _, _) => StayNone(s, s');
    case TryBegin => BeginStays(s, r);
    case Enqueue => EnqueueStays(s, r);
    case AbortCall(_, _) => StayNone(s, s');
    case TryAbort => AbortStays(s, r);
    case DeleteAborted => StayNone(s, s');
    case PublishAborted(lost) => AbortPublishStays(s, r, lost);
    case CallDies => EndCallStays(s, r);
  }

  lemma ClaimQuiet(u: Upload, now: int)
    requires ClaimRow(u.row, now).Some?
    ensures Quiet(u, u.(row := ClaimRow(u.row, now).value, ledger := u.ledger.(claims := u.ledger.claims + 1)))
  {
  }

  lemma ClaimStays(s: State, n: Node)
    requires FinalsOk(s) && CleanEnabled(s, n, TryClaim)
    ensures FinalsOk(DoClaim(s, n))
  {
    hide FinalsOk, ClaimRow, Quiet;
    var id := s.cleaners[n].listed[s.cleaners[n].next];
    if ClaimRow(s.uploads[id].row, s.clock).Some? {
      ClaimQuiet(s.uploads[id], s.clock);
      StayOne(s, DoClaim(s, n), id);
    } else {
      StayNone(s, DoClaim(s, n));
    }
  }

  lemma CleanStays(s: State, n: Node, step: CleanStep)
    requires FinalsOk(s) && CleanEnabled(s, n, step)
    ensures FinalsOk(ApplyClean(s, n, step))
  {
    hide FinalsOk, DoClaim;
    if step.TryClaim? {
      ClaimStays(s, n);
    } else {
      StayNone(s, ApplyClean(s, n, step));
    }
  }

  lemma EndJobStays(s: State, n: Node)
    requires FinalsOk(s) && Busy(s, n)
    ensures FinalsOk(EndJob(s, n))
  {
    hide FinalsOk;
    StayOne(s, EndJob(s, n), s.workers[n].job.id);
  }

  lemma PhaseStays(s: State, n: Node, phase: Phase)
    requires FinalsOk(s) && Busy(s, n) && !phase.HasMerged? && !phase.Finishing?
    ensures FinalsOk(SetPhase(s, n, phase))
  {
    hide FinalsOk;
    StayNone(s, SetPhase(s, n, phase));
  }

  /** Steps of a worker outside merge, check and finish. */
  lemma PlainWorkStays(c: Config, be: Backend, s: State, n: Node, step: WorkStep)
    requires FinalsOk(s) && WorkEnabled(c, s, n, step)
    requires step.TakeJob? || step.ReadRow? || step.Publish? || step.JobDies?
    ensures FinalsOk(ApplyWork(c, be, s, n, step))
  {
    hide FinalsOk;
    if step.TakeJob? {
      StayOne(s, DoTake(s, n), QueueOf(s, n)[0].id);
    } else if step.ReadRow? {
      EndJobStays(s, n);
      PhaseStays(s, n, HasRead(s.uploads[s.workers[n].job.id].row));
    } else if step.Publish? {
      StayOne(s, DoPublish(s, n, step.lost), s.workers[n].job.id);
    } else {
      EndJobStays(s, n);
    }
  }

  lemma VerifyStays(s: State, n: Node)
    requires FinalsOk(s) && Busy(s, n) && s.workers[n].phase.HasRead?
    ensures FinalsOk(DoVerify(s, n))
  {
    hide FinalsOk, AllPresent, BytesOnDisk, NormalizeChecksum, SetPhase, EndJob;
    var w, snap := s.workers[n], s.workers[n].phase.snap;
    EndJobStays(s, n);
    PhaseStays(s, n, Failing(snap, snap.checksum));
    if NormalizeChecksum(w.job.checksum).Success? {
      var sum := NormalizeChecksum(w.job.checksum).value;
      PhaseStays(s, n, Verified(snap, if sum.Some? then sum else snap.checksum));
    }
  }

  lemma FailStays(be: Backend, s: State, n: Node)
    requires FinalsOk(s) && Busy(s, n) && s.workers[n].phase.Failing?
    ensures FinalsOk(DoFail(be, s, n))
  {
    hide FinalsOk, Forget;
    StayOne(s, DoFail(be, s, n), s.workers[n].job.id);
  }

  /** Writing a fresh name disturbs no other object. */
  lemma FreshWriteStays(s: State, s': State, n: Node, name: string, bytes: Bytes)
    requires FinalsOk(s) && Busy(s, n) && name !in s.finals && OnlyUpload(s, s', s.workers[n].job.id)
    requires var id := s.workers[n].job.id;
             var u, u' := s.uploads[id], s'.uploads[id];
             && (name == u.born.fileName || name == Suffixed(u.born.fileName, id))
             && u'.born == u.born && u'.row == u.row && u.row.status != Status.Completed && u'.ledger.mergeTries >= 1
             && s'.finals == s.finals[name := Final(bytes, id)]
             && n in s'.workers && s'.workers == s.workers[n := s'.workers[n]] && s'.workers[n].job == s.workers[n].job
             && !s'.workers[n].phase.Finishing?
             && (s'.workers[n].phase.HasMerged? ==> s'.workers[n].phase.m.name == name && s'.workers[n].phase.m.bytes == bytes)
    ensures FinalsOk(s')
  {
    hide Suffixed, GuidText;
    forall known | known in s'.finals
      ensures WrittenBy(s', known, s'.finals[known].writer)
    {
      if known != name {
        assert WrittenBy(s, known, s.finals[known].writer);
      }
    }
  }

  lemma VerifiedFacts(c: Config, n: Node, w: Worker, u: Upload)
    requires WorkerOk(c, n, w, u) && w.phase.Verified?
    ensures u.ledger.mergeTries == 0 && w.phase.snap.fileName == u.born.fileName && u.row.status != Status.Completed
  {
  }

  lemma MergeIsFresh(s: State, n: Node)
    requires Busy(s, n) && s.workers[n].phase.Verified? && !BothTaken(s, n)
    ensures ResolveFinal(s.finals.Keys, s.workers[n].job.id, s.workers[n].phase.snap.fileName) !in s.finals
  {
    hide Suffixed;
  }

  lemma MergeStays(c: Config, s: State, n: Node, raced: Option<Bytes>)
    requires Busy(s, n) && s.workers[n].phase.Verified? && MergeOf(c, s, n, raced).Some?
    requires Inv(c, s) && FinalsOk(s) && !BothTaken(s, n)
    ensures FinalsOk(DoMerge(c, s, n, raced))
  {
    hide Inv, WorkerOk, UploadOk, FinalsOk, MergeOf, Suffixed;
    var w := s.workers[n];
    MergeIsFresh(s, n);
    WorkerIn(c, s, n);
    VerifiedFacts(c, n, w, s.uploads[w.job.id]);
    var name := ResolveFinal(s.finals.Keys, w.job.id, w.phase.snap.fileName);
    FreshWriteStays(s, DoMerge(c, s, n, raced), n, name, MergeOf(c, s, n, raced).value.bytes);
  }

  lemma MergeThrowsStays(c: Config, s: State, n: Node, junk: Option<Bytes>)
    requires Inv(c, s) && FinalsOk(s) && Busy(s, n) && s.workers[n].phase.Verified? && (junk.Some? ==> !BothTaken(s, n))
    ensures FinalsOk(DoMergeThrows(s, n, junk))
  {
    hide Inv, WorkerOk, UploadOk, FinalsOk, Suffixed;
    var w := s.workers[n];
    WorkerIn(c, s, n);
    VerifiedFacts(c, n, w, s.uploads[w.job.id]);
    if junk.Some? {
      MergeIsFresh(s, n);
      var name := ResolveFinal(s.finals.Keys, w.job.id, w.phase.snap.fileName);
      FreshWriteStays(s, DoMergeThrows(s, n, junk), n, name, junk.value);
    } else {
      StayOne(s, DoMergeThrows(s, n, junk), w.job.id);
    }
  }

  lemma HeldAlone(c: Config, s: State, n: Node, m: Node)
    requires Inv(c, s) && Busy(s, n) && Busy(s, m) && s.workers[n].job.id == s.workers[m].job.id
    ensures n == m
  {
    hide Inv, UploadOk, WorkerOk;
    WorkerIn(c, s, n);
    WorkerIn(c, s, m);
    WorkerHolds(c, n, s.workers[n], s.uploads[s.workers[n].job.id]);
    WorkerHolds(c, m, s.workers[m], s.uploads[s.workers[m].job.id]);
  }

  /** Deleting a mismatched object disturbs no other: each name has one writer. */
  lemma DeleteFinalStays(c: Config, s: State, n: Node, m: MergeRecord, phase: Phase)
    requires Inv(c, s) && FinalsOk(s) && Busy(s, n) && HasFinal(s, m, s.workers[n].job.id)
    requires s.uploads[s.workers[n].job.id].row.status != Status.Completed && !phase.HasMerged? && !phase.Finishing?
    ensures FinalsOk(SetPhase(s.(finals := s.finals - {m.name}), n, phase))
  {
    hide Inv;
    var s' := SetPhase(s.(finals := s.finals - {m.name}), n, phase);
    forall name | name in s'.finals
      ensures WrittenBy(s', name, s'.finals[name].writer)
    {
      assert WrittenBy(s, name, s.finals[name].writer);
    }
    forall k | k in s'.workers && (s'.workers[k].phase.HasMerged? || s'.workers[k].phase.Finishing?)
      ensures HasFinal(s', s'.workers[k].phase.m, s'.workers[k].job.id)
    {
      assert HasFinal(s, s.workers[k].phase.m, s.workers[k].job.id);
      WorkersBusy(c, s, k);
      if s.workers[k].job.id == s.workers[n].job.id {
        HeldAlone(c, s, n, k);
      }
    }
  }

  lemma WorkersBusy(c: Config, s: State, n: Node)
    requires Inv(c, s) && n in s.workers
    ensures Busy(s, n)
  {
    hide UploadOk, WorkerOk;
  }

  lemma MergedFacts(c: Config, n: Node, w: Worker, u: Upload)
    requires WorkerOk(c, n, w, u) && (w.phase.HasMerged? || w.phase.Finishing?)
    ensures u.ledger.merges == [w.phase.m] && u.row.status != Status.Completed
  {
  }

  lemma CheckStays(c: Config, s: State, n: Node, fingerprint: Option<string>, deleteThrows: bool)
    requires Inv(c, s) && FinalsOk(s) && Busy(s, n) && s.workers[n].phase.HasMerged?
    ensures FinalsOk(DoCheck(s, n, fingerprint, deleteThrows))
  {
    hide Inv, WorkerOk, UploadOk, Mismatch, WritersOk, CompletedOk, IdsOk;
    var w := s.workers[n];
    var HasMerged(snap, expected, m) := w.phase;
    WorkerIn(c, s, n);
    MergedFacts(c, n, w, s.uploads[w.job.id]);
    if Mismatch(expected, m.hex) {
      PhaseStays(s, n, Failing(snap, Some(m.hex)));
      DeleteFinalStays(c, s, n, m, Failing(snap, Some(m.hex)));
    } else {
      FinishingStays(s, n, Finishing(snap, m, if m.hex != "" then Some(m.hex) else expected,
                                     if fingerprint.Some? then fingerprint else snap.fingerprint));
    }
  }

  lemma FinishingStays(s: State, n: Node, phase: Phase)
    requires FinalsOk(s) && Busy(s, n) && s.workers[n].phase.HasMerged? && phase.Finishing? && phase.m == s.workers[n].phase.m
    ensures FinalsOk(SetPhase(s, n, phase))
  {
    var s' := SetPhase(s, n, phase);
    forall name | name in s'.finals
      ensures WrittenBy(s', name, s'.finals[name].writer)
    {
      assert WrittenBy(s, name, s.finals[name].writer);
    }
  }

  lemma FinishStays(c: Config, be: Backend, s: State, n: Node)
    requires Inv(c, s) && FinalsOk(s) && Busy(s, n) && s.workers[n].phase.Finishing?
    ensures FinalsOk(DoFinish(be, s, n))
  {
    hide Inv, WorkerOk, UploadOk, Forget;
    var w, s' := s.workers[n], DoFinish(be, s, n);
    WorkerIn(c, s, n);
    MergedFacts(c, n, w, s.uploads[w.job.id]);
    assert HasFinal(s, w.phase.m, w.job.id);
    if s.uploads[w.job.id].row.status == Completing {
      forall name | name in s'.finals
        ensures WrittenBy(s', name, s'.finals[name].writer)
      {
        assert WrittenBy(s, name, s.finals[name].writer);
      }
    } else {
      EndJobStays(s, n);
    }
  }

  lemma WorkStays(c: Config, be: Backend, s: State, n: Node, step: WorkStep)
    requires Inv(c, s) && FinalsOk(s) && WorkEnabled(c, s, n, step) && !Clashes(s, Working(n, step))
    ensures FinalsOk(ApplyWork(c, be, s, n, step))
  {
    hide Inv, FinalsOk, BothTaken, DoTake, DoRead, DoVerify, DoMerge, DoMergeThrows, DoCheck, DoFinish, DoFail, DoPublish, EndJob, MergeOf;
    match step
    case VerifyParts => VerifyStays(s, n);
    case MergeParts(raced) => MergeStays(c, s, n, raced);
    case MergeThrows(junk) => MergeThrowsStays(c, s, n, junk);
    case CheckDigest(fingerprint, deleteThrows) => CheckStays(c, s, n, fingerprint, deleteThrows);
    case TryFinish => FinishStays(c, be, s, n);
    case TryFail => FailStays(be, s, n);
    case _ => PlainWorkStays(c, be, s, n, step);
  }

  lemma StepStays(c: Config, be: Backend, s: State, step: Step)
    requires Inv(c, s) && FinalsOk(s) && Enabled(c, s, step) && !Clashes(s, step)
    ensures FinalsOk(Apply(c, be, s, step))
  {
    hide Inv, FinalsOk, Clashes, AmbientEnabled, CallEnabled, WorkEnabled, CleanEnabled, ApplyAmbient, ApplyCall, ApplyWork, ApplyClean;
    match step
    case Ambient(ambient) => AmbientStays(c, s, ambient);
    case Calling(r, calling) => CallStays(s, r, calling);
    case Working(n, working) => WorkStays(c, be, s, n, working);
    case Cleaning(n, cleaning) => CleanStays(s, n, cleaning);
  }

  // ---- Who wrote what, whatever clashes ----------------------------------------------------------------

  ghost predicate NamesOk(s: State) { IdsOk(s) && WritersOk(s) }

  /** Each final object after a step was there before, or the step wrote it, under the name it resolved. */
  ghost predicate FinalsFrom(s: State, s': State, step: Step) {
    forall name :: name in s'.finals ==>
      || (name in s.finals && s'.finals[name] == s.finals[name])
      || (&& Writes(step) && Busy(s, step.n) && s.workers[step.n].phase.Verified?
          && name == ResolveFinal(s.finals.Keys, s.workers[step.n].job.id, s.workers[step.n].phase.snap.fileName)
          && s'.finals[name].writer == s.workers[step.n].job.id)
  }

  lemma CheckFinals(s: State, n: Node, fingerprint: Option<string>, deleteThrows: bool)
    requires Busy(s, n) && s.workers[n].phase.HasMerged?
    ensures var s' := DoCheck(s, n, fingerprint, deleteThrows);
            forall name :: name in s'.finals ==> name in s.finals && s'.finals[name] == s.finals[name]
  {
    hide Mismatch;
  }

  lemma WorkFinals(c: Config, be: Backend, s: State, n: Node, step: WorkStep)
    requires WorkEnabled(c, s, n, step)
    ensures FinalsFrom(s, ApplyWork(c, be, s, n, step), Working(n, step))
  {
    hide DoTake, DoRead, DoVerify, DoMerge, DoMergeThrows, DoCheck, DoFinish, DoFail, DoPublish, EndJob, MergeOf, ResolveFinal, Books;
    match step
    case TakeJob => TakeEffect(s, n);
    case ReadRow => ReadEffect(s, n);
    case VerifyParts => VerifyEffect(s, n);
    case MergeParts(raced) => MergeEffect(c, s, n, raced);
    case MergeThrows(junk) => MergeThrowsFinals(s, n, junk);
    case CheckDigest(fingerprint, deleteThrows) => CheckFinals(s, n, fingerprint, deleteThrows);
    case TryFinish => FinishEffect(be, s, n);
    case TryFail => FailEffect(be, s, n);
    case Publish(lost) => PublishEffect(s, n, lost);
    case JobDies => EndJobEffect(s, n);
  }

  lemma CallFinals(s: State, r: Request, step: CallStep)
    requires CallEnabled(s, r, step)
    ensures ApplyCall(s, r, step).finals == s.finals
  {
    hide DoBegin, DoEnqueue, DoAbort, DoAbortPublish, EndCall, Forget, Books;
    match step
    case CompleteCall(n, id, checksum) =>
    case AbortCall(n, id) =>
    case DeleteAborted =>
    case TryBegin => BeginEffect(s, r);
    case TryAbort => AbortEffect(s, r);
    case Enqueue => EnqueueEffect(s, r);
    case PublishAborted(lost) => AbortPublishEffect(s, r, lost);
    case CallDies => EndCallEffect(s, r);
  }

  lemma CleanFinals(s: State, n: Node, step: CleanStep)
    requires CleanEnabled(s, n, step)
    ensures ApplyClean(s, n, step).finals == s.finals
  {
    hide DoClaim, DoCleanDelete, Books;
    match step
    case TryClaim => ClaimEffect(s, n);
    case DeleteClaimed(throws) => CleanDeleteEffect(s, n, throws);
    case _ =>
  }

  lemma AmbientFinals(c: Config, s: State, step: AmbientStep)
    requires AmbientEnabled(c, s, step)
    ensures var s' := ApplyAmbient(c, s, step);
            s'.finals == s.finals && forall id :: id in s'.uploads ==> id in s.uploads || GuidText(id)
  {
    hide LookupResult, WithinLimits, ArgsOk, NewSession, HotSession, Admits, Remember, Forget, PartsOf, StillThere, DoAdmit, GuidText;
    if !step.Tick? && !step.Initiate? {
      AmbientQuiet(c, s, step);
    }
  }

  lemma StepFinals(c: Config, be: Backend, s: State, step: Step)
    requires Enabled(c, s, step)
    ensures FinalsFrom(s, Apply(c, be, s, step), step)
    ensures forall id :: id in Apply(c, be, s, step).uploads ==> id in s.uploads || GuidText(id)
  {
    hide AmbientEnabled, CallEnabled, WorkEnabled, CleanEnabled, ApplyAmbient, ApplyCall, ApplyWork, ApplyClean, GuidText;
    match step
    case Ambient(ambient) => AmbientFinals(c, s, ambient);
    case Calling(r, calling) => CallFinals(s, r, calling); History.CallAddsNone(s, r, calling);
    case Working(n, working) => WorkFinals(c, be, s, n, working); History.WorkAddsNone(c, be, s, n, working);
    case Cleaning(n, cleaning) => CleanFinals(s, n, cleaning); History.CleanAddsNone(s, n, cleaning);
  }

  /** Uploads keep what they were born with, and merges on record are never taken back. */
  lemma UploadGrows(c: Config, be: Backend, s: State, step: Step, id: Id)
    requires Inv(c, s) && Enabled(c, s, step) && id in s.uploads
    ensures var s' := Apply(c, be, s, step);
            id in s'.uploads && s'.uploads[id].born == s.uploads[id].born
            && s'.uploads[id].ledger.mergeTries == s.uploads[id].ledger.mergeTries + History.One(History.Did(c, s, step, id, History.MergeRun))
  {
    hide Enabled, Apply, UploadsOk, CallsOk, QueuesOk, WorkersOk, History.Did;
    StepAdvances(c, be, s, step);
    assert Moves(s.uploads[id], Apply(c, be, s, step).uploads[id]);
    History.StepTallies(c, be, s, step, id, History.MergeRun);
  }

  lemma WriterIsMerger(c: Config, s: State, step: Step)
    requires Inv(c, s) && Enabled(c, s, step) && Writes(step) && Busy(s, step.n) && s.workers[step.n].phase.Verified?
    ensures var w := s.workers[step.n];
            History.Did(c, s, step, w.job.id, History.MergeRun) && w.phase.snap.fileName == s.uploads[w.job.id].born.fileName
            && s.uploads[w.job.id].ledger.mergeTries == 0
  {
    hide Inv, WorkerOk, UploadOk, MergeOf;
    WorkerIn(c, s, step.n);
    VerifiedFacts(c, step.n, s.workers[step.n], s.uploads[s.workers[step.n].job.id]);
  }

  lemma StepNames(c: Config, be: Backend, s: State, step: Step)
    requires Inv(c, s) && NamesOk(s) && Enabled(c, s, step)
    ensures NamesOk(Apply(c, be, s, step))
  {
    hide Inv, Enabled, Apply, GuidText, Suffixed, History.Did;
    var s' := Apply(c, be, s, step);
    StepFinals(c, be, s, step);
    forall name | name in s'.finals
      ensures WrittenBy(s', name, s'.finals[name].writer)
    {
      var w := s'.finals[name].writer;
      if name in s.finals && s'.finals[name] == s.finals[name] {
        assert WrittenBy(s, name, w);
      } else {
        WriterIsMerger(c, s, step);
      }
      UploadGrows(c, be, s, step, w);
    }
  }

  lemma {:induction false} RunNamesOk(c: Config, be: Backend, states: seq<State>, steps: seq<Step>, k: nat)
    requires ValidConfig(c) && IsRun(c, be, states, steps) && k < |states|
    ensures NamesOk(states[k])
  {
    hide Enabled, Apply, ValidConfig, Inv, CleanersOk;
    if k > 0 {
      RunNamesOk(c, be, states, steps, k - 1);
      RunIsGood(c, be, states, steps, k - 1);
      hide NamesOk;
      StepNames(c, be, states[k - 1], steps[k - 1]);
    }
  }

  // ---- Whole runs --------------------------------------------------------------------------------------

  /** Every final object of `s` is still there, as it was. */
  ghost predicate Spares(s: State, s': State) {
    forall name :: name in s.finals ==> name in s'.finals && s'.finals[name] == s.finals[name]
  }

  /** What a writing step does to the final objects. */
  lemma WriteEffect(c: Config, be: Backend, s: State, step: Step)
    requires Enabled(c, s, step) && Writes(step)
    ensures Busy(s, step.n) && s.workers[step.n].phase.Verified?
    ensures var w, s' := s.workers[step.n], Apply(c, be, s, step);
            var name := ResolveFinal(s.finals.Keys, w.job.id, w.phase.snap.fileName);
            name in s'.finals && s'.finals == s.finals[name := s'.finals[name]] && s'.finals[name].writer == w.job.id
  {
    hide MergeOf, Books, ResolveFinal, DoMerge, DoMergeThrows;
    if step.working.MergeParts? {
      MergeEffect(c, s, step.n, step.working.raced);
    } else {
      MergeThrowsFinals(s, step.n, step.working.junk);
    }
  }

  /**
   A merge of any run, one that throws half-way included, spares every other object if and only if one of its two names is
   free; when both are taken, another client's file name contains this upload's id.
   */
  lemma MergeSparesOthersExactlyWhen(c: Config, be: Backend, states: seq<State>, steps: seq<Step>, k: nat)
    requires ValidConfig(c) && IsRun(c, be, states, steps) && k < |steps| && Writes(steps[k])
    ensures Busy(states[k], steps[k].n) && states[k].workers[steps[k].n].phase.Verified?
    ensures var s, w := states[k], states[k].workers[steps[k].n];
            var id, file := w.job.id, w.phase.snap.fileName;
            && file == s.uploads[id].born.fileName
            && (Spares(s, states[k + 1]) <==> file !in s.finals || Suffixed(file, id) !in s.finals)
            && (!Spares(s, states[k + 1]) ==> exists o :: o in s.uploads && o != id && Contains(s.uploads[o].born.fileName, id))
  {
    hide ValidConfig, Inv, CleanersOk, Suffixed, Contains, GuidText, Enabled, Apply;
    var s, step := states[k], steps[k];
    RunIsGood(c, be, states, steps, k);
    RunNamesOk(c, be, states, steps, k);
    WriteEffect(c, be, s, step);
    WriterIsMerger(c, s, step);
    var w := s.workers[step.n];
    var name := ResolveFinal(s.finals.Keys, w.job.id, w.phase.snap.fileName);
    if name in s.finals {
      assert WrittenBy(s, name, s.finals[name].writer);
      assert s.finals[name].writer != w.job.id;
      BothTakenNamesTheId(s, w.job.id);
    }
  }

  /** Uploads are only ever added, so names that are harmless now were harmless before. */
  lemma NamesWereHarmless(c: Config, be: Backend, states: seq<State>, steps: seq<Step>, j: nat, k: nat)
    requires ValidConfig(c) && IsRun(c, be, states, steps) && j <= k < |states| && NoNameHoldsAnId(states[k])
    ensures NoNameHoldsAnId(states[j])
  {
    hide Enabled, Apply, ValidConfig, Contains;
    forall a, b | a in states[j].uploads && b in states[j].uploads
      ensures !Contains(states[j].uploads[a].born.fileName, b)
    {
      BornStays(c, be, states, steps, j, k, a);
      BornStays(c, be, states, steps, j, k, b);
    }
  }

  /** While no client names a file after an upload id, no merge finds both of its names taken. */
  lemma HarmlessNamesNeverClash(c: Config, be: Backend, states: seq<State>, steps: seq<Step>, k: nat)
    requires ValidConfig(c) && IsRun(c, be, states, steps) && k < |states| && NoNameHoldsAnId(states[k])
    ensures NoClash(states, steps, k)
    ensures k < |steps| ==> !Clashes(states[k], steps[k])
  {
    hide Enabled, Apply, ValidConfig, Contains, Suffixed, Writes;
    forall i | 0 <= i <= k && i < |steps|
      ensures !Clashes(states[i], steps[i])
    {
      NamesWereHarmless(c, be, states, steps, i, k);
      if Writes(steps[i]) {
        MergeSparesOthersExactlyWhen(c, be, states, steps, i);
      }
    }
  }

  lemma {:induction false} RunFinalsOk(c: Config, be: Backend, states: seq<State>, steps: seq<Step>, k: nat)
    requires ValidConfig(c) && IsRun(c, be, states, steps) && k < |states| && NoClash(states, steps, k)
    ensures FinalsOk(states[k])
  {
    hide Enabled, Apply, ValidConfig, Clashes, Inv, CleanersOk;
    if k > 0 {
      RunFinalsOk(c, be, states, steps, k - 1);
      RunIsGood(c, be, states, steps, k - 1);
      hide FinalsOk;
      StepStays(c, be, states[k - 1], steps[k - 1]);
    }
  }

  /** Under harmless names every merge, one that throws included, writes at most one name, and that name was not there. */
  lemma EveryMergeCreatesAFreshFile(c: Config, be: Backend, states: seq<State>, steps: seq<Step>, k: nat)
    requires ValidConfig(c) && IsRun(c, be, states, steps) && k < |steps| && NoNameHoldsAnId(states[k])
    requires steps[k].Working? && (steps[k].working.MergeParts? || steps[k].working.MergeThrows?)
    ensures !Writes(steps[k]) ==> states[k + 1].finals == states[k].finals
    ensures Writes(steps[k]) ==>
              exists name :: name !in states[k].finals && name in states[k + 1].finals
                             && states[k + 1].finals == states[k].finals[name := states[k + 1].finals[name]]
  {
    hide ValidConfig, Contains, Suffixed, MergeOf, DoMerge, DoMergeThrows;
    var s, step := states[k], steps[k];
    assert Enabled(c, s, step);
    if Writes(step) {
      MergeSparesOthersExactlyWhen(c, be, states, steps, k);
      WriteEffect(c, be, s, step);
      var w := s.workers[step.n];
      var name := ResolveFinal(s.finals.Keys, w.job.id, w.phase.snap.fileName);
      assert Spares(s, states[k + 1]);
      assert name !in s.finals && name in states[k + 1].finals;
    } else {
      MergeThrowsFinals(s, step.n, None);
    }
  }

  lemma MergeThrowsFinals(s: State, n: Node, junk: Option<Bytes>)
    requires Busy(s, n) && s.workers[n].phase.Verified?
    ensures var name := ResolveFinal(s.finals.Keys, s.workers[n].job.id, s.workers[n].phase.snap.fileName);
            DoMergeThrows(s, n, junk).finals ==
            if junk.Some? then s.finals[name := Final(junk.value, s.workers[n].job.id)] else s.finals
  {
    hide ResolveFinal;
  }

  lemma CompletedObject(c: Config, be: Backend, states: seq<State>, steps: seq<Step>, k: nat, id: Id)
    requires ValidConfig(c) && IsRun(c, be, states, steps) && k < |states| && NoClash(states, steps, k)
    requires id in states[k].uploads && states[k].uploads[id].row.status == Status.Completed
    ensures var u := states[k].uploads[id];
            && |u.ledger.merges| == 1 && u.row.finalFileName == Some(u.ledger.merges[0].name)
            && HasFinal(states[k], u.ledger.merges[0], id)
            && |u.ledger.merges[0].bytes| == u.row.totalSize
            && (u.row.checksum.Some? ==> u.row.checksum.value == c.sha(u.ledger.merges[0].bytes))
  {
    hide Enabled, Apply, ValidConfig, Clashes;
    RunFinalsOk(c, be, states, steps, k);
    CompletedMeansVerifiedBytes(c, be, states, steps, k, id);
  }

  /** Distinct Completed sessions have distinct final names. */
  lemma CompletedNamesAreDistinct(c: Config, be: Backend, states: seq<State>, steps: seq<Step>, k: nat, a: Id, b: Id)
    requires ValidConfig(c) && IsRun(c, be, states, steps) && k < |states| && NoClash(states, steps, k)
    requires a in states[k].uploads && states[k].uploads[a].row.status == Status.Completed
    requires b in states[k].uploads && states[k].uploads[b].row.status == Status.Completed
    ensures states[k].uploads[a].row.finalFileName == states[k].uploads[b].row.finalFileName <==> a == b
  {
    hide Enabled, Apply, ValidConfig, Clashes;
    CompletedObject(c, be, states, steps, k, a);
    CompletedObject(c, be, states, steps, k, b);
  }

  lemma {:induction false} CompletedStays(c: Config, be: Backend, states: seq<State>, steps: seq<Step>, j: nat, k: nat, id: Id)
    requires ValidConfig(c) && IsRun(c, be, states, steps) && j <= k < |states|
    requires id in states[j].uploads && states[j].uploads[id].row.status == Status.Completed
    ensures id in states[k].uploads && states[k].uploads[id].row == states[j].uploads[id].row
    ensures states[k].uploads[id].ledger.merges == states[j].uploads[id].ledger.merges
    decreases k
  {
    hide Enabled, Apply, ValidConfig, Inv, CleanersOk;
    if j < k {
      CompletedStays(c, be, states, steps, j, k - 1, id);
      RunIsGood(c, be, states, steps, k - 1);
      StepKeeps(c, be, states[k - 1], steps[k - 1]);
      assert Moves(states[k - 1].uploads[id], states[k].uploads[id]);
    }
  }

  /** Once a session is Completed, its final name and the bytes under it never change. */
  lemma CompletedBytesNeverChange(c: Config, be: Backend, states: seq<State>, steps: seq<Step>, j: nat, k: nat, id: Id)
    requires ValidConfig(c) && IsRun(c, be, states, steps) && j <= k < |states| && NoClash(states, steps, k)
    requires id in states[j].uploads && states[j].uploads[id].row.status == Status.Completed
    ensures id in states[k].uploads && states[k].uploads[id].row == states[j].uploads[id].row
    ensures var name := states[j].uploads[id].row.finalFileName;
            name.Some? && name.value in states[j].finals && name.value in states[k].finals
            && states[k].finals[name.value] == states[j].finals[name.value]
  {
    hide Enabled, Apply, ValidConfig, Clashes;
    CompletedStays(c, be, states, steps, j, k, id);
    CompletedObject(c, be, states, steps, j, id);
    CompletedObject(c, be, states, steps, k, id);
  }

  /** A checksum dedupe hit is still there and names an object with the requested size and digest. */
  lemma DedupeHitNamesTheRightBytes(c: Config, be: Backend, states: seq<State>, steps: seq<Step>, k: nat, hit: Id, hash: string, size: nat)
    requires ValidConfig(c) && IsRun(c, be, states, steps) && k < |states| && NoClash(states, steps, k)
    requires Newest(states[k], hit, u => MatchesContent(u, hash, size))
    ensures StillThere(states[k], hit, size)
    ensures c.sha(states[k].finals[states[k].uploads[hit].row.finalFileName.value].bytes) == hash
  {
    hide Enabled, Apply, ValidConfig, Clashes;
    CompletedObject(c, be, states, steps, k, hit);
  }

  /**
   With deduplication on, initiate opens a session only for content that no Completed session has: none of the
   requested size carries the requested digest or the requested fingerprint.
   */
  lemma NoDuplicateIsInitiated(c: Config, be: Backend, states: seq<State>, steps: seq<Step>, k: nat, n: Node, id: Id, args: InitiateArgs, hit: Option<Id>, o: Id)
    requires ValidConfig(c) && IsRun(c, be, states, steps) && k < |steps| && NoClash(states, steps, k)
    requires steps[k] == Ambient(Initiate(n, id, args, hit)) && c.deduplicateByContent
    requires o in states[k].uploads && states[k].uploads[o].row.status == Status.Completed
    requires states[k].uploads[o].row.totalSize == args.totalSize
    ensures forall sum :: NormalizeChecksum(args.checksum) == Success(Some(sum)) ==> states[k].uploads[o].row.checksum != Some(sum)
    ensures args.fingerprint.Some? ==> states[k].uploads[o].row.fingerprint != args.fingerprint
  {
    hide Apply, ValidConfig, Clashes, NormalizeChecksum, WithinLimits, ArgsOk, NoClash;
    var s := states[k];
    assert Enabled(c, s, steps[k]);
    CompletedObject(c, be, states, steps, k, o);
    if hit.Some? && hit.value in s.uploads && s.uploads[hit.value].row.status == Status.Completed {
      CompletedObject(c, be, states, steps, k, hit.value);
    }
  }

  /** The digest a check compares is that of the bytes merged, whenever one is expected. */
  lemma CheckedDigests(c: Config, n: Node, w: Worker, u: Upload)
    requires ValidConfig(c) && UploadOk(c, u) && WorkerOk(c, n, w, u) && w.phase.HasMerged?
    ensures w.phase.expected == Expected(w.job.checksum, u.born)
    ensures Mismatch(w.phase.expected, w.phase.m.hex) <==> w.phase.expected.Some? && w.phase.expected.value != c.sha(w.phase.m.bytes)
  {
    hide EqualsIgnoreCase;
    assert Digest64(c.sha(w.phase.m.bytes));
    NormalizedIsDigest(w.job.checksum);
    if w.phase.expected.Some? {
      DigestsCompareExactly(c.sha(w.phase.m.bytes), w.phase.expected.value);
    }
  }

  /**
   After the comparison of digests the merged object is gone exactly when its bytes do not have the expected digest and
   the deletion returned; every other object stays.
   */
  lemma MismatchedObjectGoes(c: Config, be: Backend, states: seq<State>, steps: seq<Step>, k: nat, n: Node, fingerprint: Option<string>, deleteThrows: bool)
    requires ValidConfig(c) && IsRun(c, be, states, steps) && k < |steps|
    requires steps[k] == Working(n, CheckDigest(fingerprint, deleteThrows))
    ensures Busy(states[k], n) && states[k].workers[n].phase.HasMerged?
    ensures var w := states[k].workers[n];
            var expected, m := Expected(w.job.checksum, states[k].uploads[w.job.id].born), w.phase.m;
            var wrong := expected.Some? && expected.value != c.sha(m.bytes);
            && states[k + 1].finals == (if wrong && !deleteThrows then states[k].finals - {m.name} else states[k].finals)
            && n in states[k + 1].workers && (states[k + 1].workers[n].phase.Failing? <==> wrong)
            && (states[k + 1].workers[n].phase.Finishing? <==> !wrong)
  {
    hide ValidConfig, UploadOk, WorkerOk, Mismatch, Expected;
    assert Enabled(c, states[k], steps[k]);
    var s := states[k];
    RunIsGood(c, be, states, steps, k);
    WorkerIn(c, s, n);
    CheckedDigests(c, n, s.workers[n], s.uploads[s.workers[n].job.id]);
  }
}
