/**
 Storage quotas.  With each initiate one atomic step and no merge finishing after its session's expiry, the bytes that
 EnforceQuotaAsync counts stay within the global limit and, per client address, within the per-address limit, in every
 state of every run; so does the number of pending sessions of an address.
 */
module Quota {
  import opened Base
  import opened Checksums
  import opened Doubles
  import opened FinalNames
  import opened LeaseSteps
  import opened Merge
  import opened Protocol
  import opened Repository
  import opened Runs
  import opened Totals

  /** What one upload adds to Used. */
  ghost function Charge(c: Config, who: Option<string>, now: int, u: Upload): nat {
    CompletedBytes(c, who)(u) + ActiveBytes(c, who, now)(u)
  }

  /** The row counts no more than before: it does not come back, and does not complete after it expired. */
  ghost predicate Cheaper(r: Session, r': Session, now: int) {
    && r'.totalSize == r.totalSize && r'.expiresAt == r.expiresAt && r'.clientIp == r.clientIp
    && (r'.Active() ==> r.Active())
    && (r'.status == Pending ==> r.status == Pending)
    && (r'.status == Status.Completed ==> r.status == Status.Completed || (r.Active() && r.expiresAt > now))
  }

  lemma CheaperCharges(c: Config, who: Option<string>, now: int, u: Upload, u': Upload)
    requires Cheaper(u.row, u'.row, now)
    ensures Charge(c, who, now, u') <= Charge(c, who, now, u)
    ensures PendingCount(c, who, now)(u') <= PendingCount(c, who, now)(u)
  {
  }

  lemma UsedOne(c: Config, s: State, s': State, id: Id, who: Option<string>)
    requires OnlyUpload(s, s', id)
    ensures Used(c, s', who) + Charge(c, who, s.clock, s.uploads[id]) == Used(c, s, who) + Charge(c, who, s.clock, s'.uploads[id])
    ensures Pendings(c, s', who) + PendingCount(c, who, s.clock)(s.uploads[id])
            == Pendings(c, s, who) + PendingCount(c, who, s.clock)(s'.uploads[id])
  {
    hide CompletedBytes, ActiveBytes, PendingCount;
    TotalWith(s.uploads, CompletedBytes(c, who), id, s'.uploads[id]);
    TotalWith(s.uploads, ActiveBytes(c, who, s.clock), id, s'.uploads[id]);
    TotalWith(s.uploads, PendingCount(c, who, s.clock), id, s'.uploads[id]);
  }

  ghost function Pendings(c: Config, s: State, who: Option<string>): nat {
    Total(s.uploads, PendingCount(c, who, s.clock))
  }

  ghost predicate NoDearer(c: Config, s: State, s': State, who: Option<string>) {
    Used(c, s', who) <= Used(c, s, who) && Pendings(c, s', who) <= Pendings(c, s, who)
  }

  lemma CheaperStep(c: Config, s: State, s': State, id: Id, who: Option<string>)
    requires OnlyUpload(s, s', id) && Cheaper(s.uploads[id].row, s'.uploads[id].row, s.clock)
    ensures NoDearer(c, s, s', who)
  {
    hide Used, Pendings, Charge, PendingCount, Cheaper;
    CheaperCharges(c, who, s.clock, s.uploads[id], s'.uploads[id]);
    UsedOne(c, s, s', id, who);
  }

  lemma SameRowStep(c: Config, s: State, s': State, id: Id, who: Option<string>)
    requires OnlyUpload(s, s', id) && s'.uploads[id].row == s.uploads[id].row
    ensures NoDearer(c, s, s', who)
  {
    hide NoDearer;
    CheaperStep(c, s, s', id, who);
  }

  lemma SameUploadsStep(c: Config, s: State, s': State, who: Option<string>)
    requires s'.uploads == s.uploads && s'.clock == s.clock
    ensures NoDearer(c, s, s', who)
  {
  }

  /** As time passes, sessions only fall out of the count. */
  lemma TickStep(c: Config, s: State, now: int, who: Option<string>)
    requires s.clock <= now
    ensures NoDearer(c, s, s.(clock := now), who)
  {
    TotalShrinks(s.uploads, ActiveBytes(c, who, s.clock), ActiveBytes(c, who, now));
    TotalShrinks(s.uploads, PendingCount(c, who, s.clock), PendingCount(c, who, now));
  }

  // ---- Steps -------------------------------------------------------------------------------------------

  /** The proviso: a finish that wins does so before the session expires. */
  ghost predicate Timely(s: State, step: Step) {
    step.Working? && step.working.TryFinish? && Busy(s, step.n) ==>
      var row := s.uploads[s.workers[step.n].job.id].row;
      row.status == Completing ==> s.clock < row.expiresAt
  }

  lemma BeginCheap(c: Config, s: State, r: Request, who: Option<string>)
    requires CallEnabled(s, r, TryBegin)
    ensures NoDearer(c, s, DoBegin(s, r), who)
  {
    hide NoDearer;
    if BeginRow(s.uploads[s.calls[r].id].row).Some? {
      CheaperStep(c, s, DoBegin(s, r), s.calls[r].id, who);
    } else {
      SameUploadsStep(c, s, DoBegin(s, r), who);
    }
  }

  lemma AbortCheap(c: Config, s: State, r: Request, who: Option<string>)
    requires CallEnabled(s, r, TryAbort)
    ensures NoDearer(c, s, DoAbort(s, r), who)
  {
    hide NoDearer;
    if AbortRow(s.uploads[s.calls[r].id].row).Some? {
      CheaperStep(c, s, DoAbort(s, r), s.calls[r].id, who);
    } else {
      SameUploadsStep(c, s, DoAbort(s, r), who);
    }
  }

  lemma EnqueueCheap(c: Config, s: State, r: Request, who: Option<string>)
    requires CallEnabled(s, r, Enqueue)
    ensures NoDearer(c, s, DoEnqueue(s, r), who)
  {
    hide NoDearer, QueueOf;
    SameRowStep(c, s, DoEnqueue(s, r), s.calls[r].id, who);
  }

  lemma AbortPublishCheap(c: Config, s: State, r: Request, lost: bool, who: Option<string>)
    requires CallEnabled(s, r, PublishAborted(lost))
    ensures NoDearer(c, s, DoAbortPublish(s, r, lost), who)
  {
    hide NoDearer;
    SameRowStep(c, s, DoAbortPublish(s, r, lost), s.calls[r].id, who);
  }

  lemma EndCallCheap(c: Config, s: State, r: Request, who: Option<string>)
    requires CallEnabled(s, r, CallDies)
    ensures NoDearer(c, s, EndCall(s, r), who)
  {
    hide NoDearer;
    SameRowStep(c, s, EndCall(s, r), s.calls[r].id, who);
  }

  lemma CallCheap(c: Config, s: State, r: Request, step: CallStep, who: Option<string>)
    requires CallEnabled(s, r, step)
    ensures NoDearer(c, s, ApplyCall(s, r, step), who)
  {
    hide NoDearer, DoBegin, DoAbort, DoEnqueue, DoAbortPublish, EndCall, Forget;
    match step
    case TryBegin => BeginCheap(c, s, r, who);
    case Enqueue => EnqueueCheap(c, s, r, who);
    case TryAbort => AbortCheap(c, s, r, who);
    case PublishAborted(lost) => AbortPublishCheap(c, s, r, lost, who);
    case CallDies => EndCallCheap(c, s, r, who);
    case _ => SameUploadsStep(c, s, ApplyCall(s, r, step), who);
  }

  lemma EndJobCheap(c: Config, s: State, n: Node, who: Option<string>)
    requires Busy(s, n)
    ensures NoDearer(c, s, EndJob(s, n), who)
  {
    hide NoDearer;
    SameRowStep(c, s, EndJob(s, n), s.workers[n].job.id, who);
  }

  lemma PhaseCheap(c: Config, s: State, n: Node, phase: Phase, who: Option<string>)
    requires n in s.workers
    ensures NoDearer(c, s, SetPhase(s, n, phase), who)
  {
    hide NoDearer;
    SameUploadsStep(c, s, SetPhase(s, n, phase), who);
  }

  lemma ReadOrVerifyCheap(c: Config, be: Backend, s: State, n: Node, step: WorkStep, who: Option<string>)
    requires WorkEnabled(c, s, n, step) && (step.ReadRow? || step.VerifyParts?)
    ensures NoDearer(c, s, ApplyWork(c, be, s, n, step), who)
  {
    hide NoDearer, AllPresent, BytesOnDisk, NormalizeChecksum, SetPhase, EndJob, MergeOf;
    EndJobCheap(c, s, n, who);
    if step.ReadRow? {
      PhaseCheap(c, s, n, HasRead(s.uploads[s.workers[n].job.id].row), who);
    } else {
      var w, snap := s.workers[n], s.workers[n].phase.snap;
      PhaseCheap(c, s, n, Failing(snap, snap.checksum), who);
      if NormalizeChecksum(w.job.checksum).Success? {
        var sum := NormalizeChecksum(w.job.checksum).value;
        PhaseCheap(c, s, n, Verified(snap, if sum.Some? then sum else snap.checksum), who);
      }
    }
  }

  lemma TakeCheap(c: Config, s: State, n: Node, who: Option<string>)
    requires QueueOf(s, n) != [] && QueueOf(s, n)[0].id in s.uploads
    ensures NoDearer(c, s, DoTake(s, n), who)
  {
    hide NoDearer;
    SameRowStep(c, s, DoTake(s, n), QueueOf(s, n)[0].id, who);
  }

  lemma MergeCheap(c: Config, s: State, n: Node, raced: Option<Bytes>, who: Option<string>)
    requires WorkEnabled(c, s, n, MergeParts(raced))
    ensures NoDearer(c, s, DoMerge(c, s, n, raced), who)
  {
    hide NoDearer, MergeOf, ResolveFinal;
    SameRowStep(c, s, DoMerge(c, s, n, raced), s.workers[n].job.id, who);
  }

  lemma MergeThrowsCheap(c: Config, s: State, n: Node, junk: Option<Bytes>, who: Option<string>)
    requires Busy(s, n) && s.workers[n].phase.Verified?
    ensures NoDearer(c, s, DoMergeThrows(s, n, junk), who)
  {
    hide NoDearer, ResolveFinal;
    SameRowStep(c, s, DoMergeThrows(s, n, junk), s.workers[n].job.id, who);
  }

  lemma CheckCheap(c: Config, s: State, n: Node, fingerprint: Option<string>, deleteThrows: bool, who: Option<string>)
    requires Busy(s, n) && s.workers[n].phase.HasMerged?
    ensures NoDearer(c, s, DoCheck(s, n, fingerprint, deleteThrows), who)
  {
    hide NoDearer, Mismatch;
    SameUploadsStep(c, s, DoCheck(s, n, fingerprint, deleteThrows), who);
  }

  lemma PublishCheap(c: Config, s: State, n: Node, lost: bool, who: Option<string>)
    requires Busy(s, n) && s.workers[n].phase.Publishing?
    ensures NoDearer(c, s, DoPublish(s, n, lost), who)
  {
    hide NoDearer;
    SameRowStep(c, s, DoPublish(s, n, lost), s.workers[n].job.id, who);
  }

  lemma FailCheap(c: Config, be: Backend, s: State, n: Node, who: Option<string>)
    requires Busy(s, n) && s.workers[n].phase.Failing?
    ensures NoDearer(c, s, DoFail(be, s, n), who)
  {
    hide NoDearer, Forget;
    CheaperStep(c, s, DoFail(be, s, n), s.workers[n].job.id, who);
  }

  lemma FinishCheap(c: Config, be: Backend, s: State, n: Node, who: Option<string>)
    requires Busy(s, n) && s.workers[n].phase.Finishing? && Timely(s, Working(n, TryFinish))
    ensures NoDearer(c, s, DoFinish(be, s, n), who)
  {
    hide NoDearer, Forget;
    if s.uploads[s.workers[n].job.id].row.status == Completing {
      CheaperStep(c, s, DoFinish(be, s, n), s.workers[n].job.id, who);
    } else {
      EndJobCheap(c, s, n, who);
    }
  }

  /** What a winning finish does to the count, exactly: a late one brings the session's bytes back. */
  lemma FinishCharges(c: Config, be: Backend, s: State, n: Node, who: Option<string>)
    requires Busy(s, n) && s.workers[n].phase.Finishing? && s.uploads[s.workers[n].job.id].row.status == Completing
    ensures var u := s.uploads[s.workers[n].job.id];
            Used(c, DoFinish(be, s, n), who) == Used(c, s, who) + if Counts(c, who, u) && u.row.expiresAt <= s.clock then u.row.totalSize else 0
  {
    hide Used, Forget;
    UsedOne(c, s, DoFinish(be, s, n), s.workers[n].job.id, who);
  }

  lemma WorkCheap(c: Config, be: Backend, s: State, n: Node, step: WorkStep, who: Option<string>)
    requires WorkEnabled(c, s, n, step) && Timely(s, Working(n, step))
    ensures NoDearer(c, s, ApplyWork(c, be, s, n, step), who)
  {
    hide NoDearer, DoTake, DoRead, DoVerify, DoMerge, DoMergeThrows, DoCheck, DoFinish, DoFail, DoPublish, EndJob, MergeOf, Timely;
    match step
    case TakeJob => TakeCheap(c, s, n, who);
    case ReadRow => ReadOrVerifyCheap(c, be, s, n, step, who);
    case VerifyParts => ReadOrVerifyCheap(c, be, s, n, step, who);
    case MergeParts(raced) => MergeCheap(c, s, n, raced, who);
    case MergeThrows(junk) => MergeThrowsCheap(c, s, n, junk, who);
    case CheckDigest(fingerprint, deleteThrows) => CheckCheap(c, s, n, fingerprint, deleteThrows, who);
    case TryFinish => FinishCheap(c, be, s, n, who);
    case TryFail => FailCheap(c, be, s, n, who);
    case Publish(lost) => PublishCheap(c, s, n, lost, who);
    case JobDies => EndJobCheap(c, s, n, who);
  }

  lemma CleanCheap(c: Config, s: State, n: Node, step: CleanStep, who: Option<string>)
    requires CleanEnabled(s, n, step)
    ensures NoDearer(c, s, ApplyClean(s, n, step), who)
  {
    hide NoDearer, DoClaim;
    if step.TryClaim? {
      ClaimCheap(c, s, n, who);
    } else {
      SameUploadsStep(c, s, ApplyClean(s, n, step), who);
    }
  }

  lemma ClaimCheaper(r: Session, now: int)
    requires ClaimRow(r, now).Some?
    ensures Cheaper(r, ClaimRow(r, now).value, now)
  {
  }

  lemma ClaimCheap(c: Config, s: State, n: Node, who: Option<string>)
    requires CleanEnabled(s, n, TryClaim)
    ensures NoDearer(c, s, DoClaim(s, n), who)
  {
    hide NoDearer, ClaimRow, Cheaper;
    var id := s.cleaners[n].listed[s.cleaners[n].next];
    if ClaimRow(s.uploads[id].row, s.clock).Some? {
      ClaimCheaper(s.uploads[id].row, s.clock);
      CheaperStep(c, s, DoClaim(s, n), id, who);
    } else {
      SameUploadsStep(c, s, DoClaim(s, n), who);
    }
  }

  // ---- Limits ------------------------------------------------------------------------------------------

  /** A key that only real, non-blank addresses have. */
  ghost predicate AddressKey(c: Config, key: string) { forall ip :: c.ipKey(ip) == key ==> Trim(ip) != "" }

  ghost predicate Within(c: Config, s: State, who: Option<string>) {
    match who
    case None => c.maxTotalStoredBytes > 0 ==> Used(c, s, None) <= c.maxTotalStoredBytes
    case Some(key) =>
      && (c.maxStoredBytesPerIp > 0 ==> Used(c, s, who) <= c.maxStoredBytesPerIp)
      && (c.maxPendingSessionsPerIp > 0 ==> Pendings(c, s, who) <= c.maxPendingSessionsPerIp)
  }

  lemma InitiateCharges(c: Config, s: State, n: Node, id: Id, args: InitiateArgs, who: Option<string>)
    requires id !in s.uploads && ArgsOk(c, args)
    ensures var s', session := DoInitiate(c, s, n, id, args), NewSession(c, s.clock, args);
            var mine := Counts(c, who, Upload(session, session, NEW_LEDGER, Unclaimed));
            && Used(c, s', who) <= Used(c, s, who) + (if mine then args.totalSize else 0)
            && Pendings(c, s', who) <= Pendings(c, s, who) + (if mine then 1 else 0)
  {
    hide Remember;
    var session := NewSession(c, s.clock, args);
    var u := Upload(session, session, NEW_LEDGER, Unclaimed);
    TotalWith(s.uploads, CompletedBytes(c, who), id, u);
    TotalWith(s.uploads, ActiveBytes(c, who, s.clock), id, u);
    TotalWith(s.uploads, PendingCount(c, who, s.clock), id, u);
  }

  /** Initiate checks the limits before it adds. */
  lemma InitiateWithin(c: Config, s: State, n: Node, id: Id, args: InitiateArgs, who: Option<string>)
    requires id !in s.uploads && ArgsOk(c, args) && WithinLimits(c, s, args) && Within(c, s, who)
    requires who.Some? ==> AddressKey(c, who.value)
    ensures Within(c, DoInitiate(c, s, n, id, args), who)
  {
    hide Used, Pendings, DoInitiate, ArgsOk;
    InitiateCharges(c, s, n, id, args, who);
    LimitsOf(c, s, args);
  }

  lemma LimitsOf(c: Config, s: State, args: InitiateArgs)
    requires WithinLimits(c, s, args)
    ensures c.maxTotalStoredBytes > 0 ==> Used(c, s, None) + args.totalSize <= c.maxTotalStoredBytes
    ensures args.clientIp.Some? && Trim(args.clientIp.value) != "" ==>
              var who := Some(c.ipKey(args.clientIp.value));
              && (c.maxPendingSessionsPerIp > 0 ==> Pendings(c, s, who) < c.maxPendingSessionsPerIp)
              && (c.maxStoredBytesPerIp > 0 ==> Used(c, s, who) + args.totalSize <= c.maxStoredBytesPerIp)
  {
  }

  lemma CheapWithin(c: Config, s: State, s': State, who: Option<string>)
    requires Within(c, s, who) && NoDearer(c, s, s', who)
    ensures Within(c, s', who)
  {
    hide Used, Pendings;
  }

  lemma AmbientWithin(c: Config, s: State, step: AmbientStep, who: Option<string>)
    requires AmbientEnabled(c, s, step) && Within(c, s, who) && (who.Some? ==> AddressKey(c, who.value))
    ensures Within(c, ApplyAmbient(c, s, step), who)
  {
    hide Within, NoDearer, AddressKey, LookupResult, WithinLimits, ArgsOk, HotSession, Admits, DoAdmit, StillThere, DoInitiate, Remember, Forget, PartsOf;
    if step.Initiate? {
      InitiateWithin(c, s, step.n, step.id, step.args, who);
    } else {
      if step.Tick? {
        TickStep(c, s, step.now, who);
      } else {
        AmbientQuiet(c, s, step);
        SameUploadsStep(c, s, ApplyAmbient(c, s, step), who);
      }
      CheapWithin(c, s, ApplyAmbient(c, s, step), who);
    }
  }

  lemma StepWithin(c: Config, be: Backend, s: State, step: Step, who: Option<string>)
    requires Enabled(c, s, step) && Timely(s, step) && Within(c, s, who) && (who.Some? ==> AddressKey(c, who.value))
    ensures Within(c, Apply(c, be, s, step), who)
  {
    hide Within, NoDearer, AddressKey, Timely, AmbientEnabled, CallEnabled, WorkEnabled, CleanEnabled, ApplyAmbient, ApplyCall, ApplyWork, ApplyClean;
    match step
    case Ambient(ambient) => AmbientWithin(c, s, ambient, who);
    case Calling(r, calling) => CallCheap(c, s, r, calling, who); CheapWithin(c, s, Apply(c, be, s, step), who);
    case Working(n, working) => WorkCheap(c, be, s, n, working, who); CheapWithin(c, s, Apply(c, be, s, step), who);
    case Cleaning(n, cleaning) => CleanCheap(c, s, n, cleaning, who); CheapWithin(c, s, Apply(c, be, s, step), who);
  }

  /** What initiate counts stays within the limits, globally for `who` None and for each client address key. */
  lemma {:induction false} CountedStaysWithin(c: Config, be: Backend, states: seq<State>, steps: seq<Step>, k: nat, who: Option<string>)
    requires IsRun(c, be, states, steps) && k < |states| && (who.Some? ==> AddressKey(c, who.value))
    requires forall j :: 0 <= j < |steps| ==> Timely(states[j], steps[j])
    ensures Within(c, states[k], who)
  {
    hide Enabled, Apply, Timely, AddressKey;
    if k > 0 {
      CountedStaysWithin(c, be, states, steps, k - 1, who);
      hide Within;
      StepWithin(c, be, states[k - 1], steps[k - 1], who);
    }
  }

  // ---- What is counted, as sets of sessions ------------------------------------------------------------

  /** The sizes of these uploads together. */
  ghost function Sizes(uploads: map<Id, Upload>, ids: set<Id>): nat
    requires ids <= uploads.Keys
  {
    if ids == {} then 0
    else
      var id :| id in ids;
      uploads[id].row.totalSize + Sizes(uploads, ids - {id})
  }

  lemma {:induction false} SizesWithout(uploads: map<Id, Upload>, ids: set<Id>, id: Id)
    requires ids <= uploads.Keys && id in ids
    ensures Sizes(uploads, ids) == uploads[id].row.totalSize + Sizes(uploads, ids - {id})
    decreases |ids|
  {
    var j :| j in ids && Sizes(uploads, ids) == uploads[j].row.totalSize + Sizes(uploads, ids - {j});
    if j != id {
      SizesWithout(uploads, ids - {j}, id);
      SizesWithout(uploads, ids - {id}, j);
      assert (ids - {j}) - {id} == (ids - {id}) - {j};
    }
  }

  lemma {:induction false} SizesElsewhere(uploads: map<Id, Upload>, less: map<Id, Upload>, ids: set<Id>)
    requires ids <= uploads.Keys && ids <= less.Keys && forall id :: id in ids ==> less[id].row.totalSize == uploads[id].row.totalSize
    ensures Sizes(uploads, ids) == Sizes(less, ids)
    decreases |ids|
  {
    if ids != {} {
      var id :| id in ids;
      SizesWithout(uploads, ids, id);
      SizesWithout(less, ids, id);
      SizesElsewhere(uploads, less, ids - {id});
    }
  }

  /** Two weights that add up to the size on some ids and to nothing elsewhere total the sizes of those ids. */
  lemma {:induction false} TotalsAreSizes(m: map<Id, Upload>, f: Upload -> nat, g: Upload -> nat, ids: set<Id>)
    requires ids <= m.Keys
    requires forall id :: id in m ==> f(m[id]) + g(m[id]) == if id in ids then m[id].row.totalSize else 0
    ensures Total(m, f) + Total(m, g) == Sizes(m, ids)
    decreases |m|
  {
    if m == map[] {
      assert ids == {};
    } else {
      var id :| id in m;
      var rest := m - {id};
      TotalWithout(m, f, id);
      TotalWithout(m, g, id);
      TotalsAreSizes(rest, f, g, ids - {id});
      SizesElsewhere(m, rest, ids - {id});
      if id in ids {
        SizesWithout(m, ids, id);
      } else {
        assert ids - {id} == ids;
      }
    }
  }

  /** A weight of one on some ids and of nothing elsewhere totals their number. */
  lemma {:induction false} TotalIsNumber(m: map<Id, Upload>, f: Upload -> nat, ids: set<Id>)
    requires ids <= m.Keys && forall id :: id in m ==> f(m[id]) == if id in ids then 1 else 0
    ensures Total(m, f) == |ids|
    decreases |m|
  {
    if m == map[] {
      assert ids == {};
    } else {
      var id :| id in m;
      TotalWithout(m, f, id);
      TotalIsNumber(m - {id}, f, ids - {id});
      if id !in ids {
        assert ids - {id} == ids;
      }
    }
  }

  /** The row is of this client address. */
  predicate From(c: Config, row: Session, key: string) { row.clientIp.Some? && c.ipKey(row.clientIp.value) == key }

  /** The row takes up storage: Completed, or Pending or Completing and not yet expired. */
  predicate Stored(row: Session, now: int) {
    row.status == Status.Completed || ((row.status == Pending || row.status == Completing) && now < row.expiresAt)
  }

  lemma UsedByAll(c: Config, s: State)
    ensures Used(c, s, None) == Sizes(s.uploads, set id | id in s.uploads && Stored(s.uploads[id].row, s.clock))
  {
    var ids := set id | id in s.uploads && Stored(s.uploads[id].row, s.clock);
    TotalsAreSizes(s.uploads, CompletedBytes(c, None), ActiveBytes(c, None, s.clock), ids);
  }

  lemma UsedByAddress(c: Config, s: State, key: string)
    ensures Used(c, s, Some(key))
         == Sizes(s.uploads, set id | id in s.uploads && Stored(s.uploads[id].row, s.clock) && From(c, s.uploads[id].row, key))
  {
    var ids := set id | id in s.uploads && Stored(s.uploads[id].row, s.clock) && From(c, s.uploads[id].row, key);
    TotalsAreSizes(s.uploads, CompletedBytes(c, Some(key)), ActiveBytes(c, Some(key), s.clock), ids);
  }

  lemma PendingsAreNumber(c: Config, s: State, key: string)
    ensures Pendings(c, s, Some(key))
         == |set id | id in s.uploads && s.uploads[id].row.status == Pending && s.clock < s.uploads[id].row.expiresAt && From(c, s.uploads[id].row, key)|
  {
    var ids := set id | id in s.uploads && s.uploads[id].row.status == Pending && s.clock < s.uploads[id].row.expiresAt && From(c, s.uploads[id].row, key);
    TotalIsNumber(s.uploads, PendingCount(c, Some(key), s.clock), ids);
  }

  /** In every state of a timely run the stored sessions together stay within the global limit. */
  lemma QuotaHolds(c: Config, be: Backend, states: seq<State>, steps: seq<Step>, k: nat)
    requires IsRun(c, be, states, steps) && k < |states| && forall j :: 0 <= j < |steps| ==> Timely(states[j], steps[j])
    ensures var s := states[k];
            c.maxTotalStoredBytes > 0 ==>
              Sizes(s.uploads, set id | id in s.uploads && Stored(s.uploads[id].row, s.clock)) <= c.maxTotalStoredBytes
  {
    hide Enabled, Apply, Timely, Used, Stored;
    var s := states[k];
    CountedStaysWithin(c, be, states, steps, k, None);
    UsedByAll(c, s);
  }

  /** And so do those of each address within its limit, and the number of its pending sessions within theirs. */
  lemma QuotaHoldsPerAddress(c: Config, be: Backend, states: seq<State>, steps: seq<Step>, k: nat, key: string)
    requires IsRun(c, be, states, steps) && k < |states| && forall j :: 0 <= j < |steps| ==> Timely(states[j], steps[j])
    requires AddressKey(c, key)
    ensures var s := states[k];
            && (c.maxStoredBytesPerIp > 0 ==>
                  Sizes(s.uploads, set id | id in s.uploads && Stored(s.uploads[id].row, s.clock) && From(c, s.uploads[id].row, key)) <= c.maxStoredBytesPerIp)
            && (c.maxPendingSessionsPerIp > 0 ==>
                  |set id | id in s.uploads && s.uploads[id].row.status == Pending && s.clock < s.uploads[id].row.expiresAt
                            && From(c, s.uploads[id].row, key)| <= c.maxPendingSessionsPerIp)
  {
    hide Enabled, Apply, Timely, Used, Stored, From, AddressKey;
    var s := states[k];
    CountedStaysWithin(c, be, states, steps, k, Some(key));
    UsedByAddress(c, s, key);
    PendingsAreNumber(c, s, key);
  }

  /** An initiate adds exactly its session to what is stored and pending, of everyone and of its address. */
  lemma InitiateCountsExactly(c: Config, s: State, n: Node, id: Id, args: InitiateArgs)
    requires id !in s.uploads && ArgsOk(c, args) && c.pendingTtl > 0
    ensures var s' := DoInitiate(c, s, n, id, args);
            && Used(c, s', None) == Used(c, s, None) + args.totalSize
            && (args.clientIp.Some? ==>
                  var who := Some(c.ipKey(args.clientIp.value));
                  Used(c, s', who) == Used(c, s, who) + args.totalSize && Pendings(c, s', who) == Pendings(c, s, who) + 1)
            && forall key :: !(args.clientIp.Some? && c.ipKey(args.clientIp.value) == key) ==>
                 Used(c, s', Some(key)) == Used(c, s, Some(key)) && Pendings(c, s', Some(key)) == Pendings(c, s, Some(key))
  {
    hide DoInitiate, NormalizeChecksum, CompletedBytes, ActiveBytes, PendingCount;
    var s' := DoInitiate(c, s, n, id, args);
    var u := InitiateWrites(c, s, n, id, args);
    InitiateAdds(c, s, id, u, None);
    if args.clientIp.Some? {
      InitiateAdds(c, s, id, u, Some(c.ipKey(args.clientIp.value)));
    }
    forall key | !From(c, u.row, key)
      ensures Used(c, s', Some(key)) == Used(c, s, Some(key)) && Pendings(c, s', Some(key)) == Pendings(c, s, Some(key))
    {
      InitiateAddsNone(c, s, id, u, key);
    }
  }

  lemma InitiateWrites(c: Config, s: State, n: Node, id: Id, args: InitiateArgs) returns (u: Upload)
    requires ArgsOk(c, args) && c.pendingTtl > 0
    ensures var s' := DoInitiate(c, s, n, id, args); s'.uploads == s.uploads[id := u] && s'.clock == s.clock
    ensures u.row.status == Pending && s.clock < u.row.expiresAt && u.row.totalSize == args.totalSize && u.row.clientIp == args.clientIp
  {
    hide Remember, NormalizeChecksum, IntCount;
    var session := NewSession(c, s.clock, args);
    u := Upload(session, session, NEW_LEDGER, Unclaimed);
  }

  lemma InitiateAddsNone(c: Config, s: State, id: Id, u: Upload, key: string)
    requires id !in s.uploads && !From(c, u.row, key)
    ensures Total(s.uploads[id := u], CompletedBytes(c, Some(key))) == Total(s.uploads, CompletedBytes(c, Some(key)))
    ensures Total(s.uploads[id := u], ActiveBytes(c, Some(key), s.clock)) == Total(s.uploads, ActiveBytes(c, Some(key), s.clock))
    ensures Total(s.uploads[id := u], PendingCount(c, Some(key), s.clock)) == Total(s.uploads, PendingCount(c, Some(key), s.clock))
  {
    TotalWith(s.uploads, CompletedBytes(c, Some(key)), id, u);
    TotalWith(s.uploads, ActiveBytes(c, Some(key), s.clock), id, u);
    TotalWith(s.uploads, PendingCount(c, Some(key), s.clock), id, u);
  }

  lemma InitiateAdds(c: Config, s: State, id: Id, u: Upload, who: Option<string>)
    requires id !in s.uploads && u.row.status == Pending && s.clock < u.row.expiresAt
    requires who.None? || From(c, u.row, who.value)
    ensures Total(s.uploads[id := u], CompletedBytes(c, who)) == Total(s.uploads, CompletedBytes(c, who))
    ensures Total(s.uploads[id := u], ActiveBytes(c, who, s.clock)) == Total(s.uploads, ActiveBytes(c, who, s.clock)) + u.row.totalSize
    ensures Total(s.uploads[id := u], PendingCount(c, who, s.clock)) == Total(s.uploads, PendingCount(c, who, s.clock)) + 1
  {
    TotalWith(s.uploads, CompletedBytes(c, who), id, u);
    TotalWith(s.uploads, ActiveBytes(c, who, s.clock), id, u);
    TotalWith(s.uploads, PendingCount(c, who, s.clock), id, u);
  }

  /** The byte limit on everyone, or on one address; zero stands for none. */
  function Limit(c: Config, who: Option<string>): nat { if who.None? then c.maxTotalStoredBytes else c.maxStoredBytesPerIp }

  lemma FinishPendings(c: Config, be: Backend, s: State, n: Node, who: Option<string>)
    requires Busy(s, n) && s.workers[n].phase.Finishing? && s.uploads[s.workers[n].job.id].row.status == Completing
    ensures Pendings(c, DoFinish(be, s, n), who) == Pendings(c, s, who)
  {
    hide Used, Forget, Pendings;
    UsedOne(c, s, DoFinish(be, s, n), s.workers[n].job.id, who);
  }

  /**
   A winning finish stays within a limit, global or of one address, exactly when it is in time, does not count towards
   it, or leaves room for its bytes once more.
   */
  lemma FinishStaysWithinExactlyWhen(c: Config, be: Backend, s: State, n: Node, who: Option<string>)
    requires Busy(s, n) && s.workers[n].phase.Finishing? && s.uploads[s.workers[n].job.id].row.status == Completing
    requires Within(c, s, who)
    ensures var u := s.uploads[s.workers[n].job.id];
            Within(c, DoFinish(be, s, n), who)
            <==> Limit(c, who) == 0 || !Counts(c, who, u) || s.clock < u.row.expiresAt
                 || Used(c, s, who) + u.row.totalSize <= Limit(c, who)
  {
    hide Used, DoFinish, Pendings;
    FinishCharges(c, be, s, n, who);
    FinishPendings(c, be, s, n, who);
  }
}
