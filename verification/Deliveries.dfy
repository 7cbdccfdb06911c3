/** Jobs driven to their end beside other uploads, and the theorem that every admitted file can be uploaded. */
module Deliveries {
  import opened Base
  import opened Checksums
  import opened Doubles
  import opened EndToEnd
  import opened Effects
  import opened Failures
  import opened FinalNames
  import opened Guarantees
  import History
  import opened Jobs
  import opened Leases
  import opened Merge
  import opened Protocol
  import opened Reach
  import opened Repository
  import opened Slots
  import opened Totals

  // ---- What a job's steps leave alone ------------------------------------------------------------------

  ghost predicate Still(s: State, s': State) {
    s'.calls == s.calls && s'.queues == s.queues && s'.clock == s.clock && s'.cleaners == s.cleaners
  }

  lemma PhaseStill(s: State, n: Node, phase: Phase)
    requires n in s.workers
    ensures Still(s, SetPhase(s, n, phase))
  {
  }

  lemma EndStill(s: State, n: Node)
    requires Busy(s, n)
    ensures Still(s, EndJob(s, n))
  {
  }

  lemma ReadStill(s: State, n: Node)
    requires Busy(s, n)
    ensures Still(s, DoRead(s, n))
  {
    hide Still, SetPhase, EndJob;
    EndStill(s, n);
    PhaseStill(s, n, HasRead(s.uploads[s.workers[n].job.id].row));
  }

  lemma VerifyStill(s: State, n: Node)
    requires Busy(s, n) && s.workers[n].phase.HasRead?
    ensures Still(s, DoVerify(s, n))
  {
    hide Still, SetPhase, EndJob, AllPresent, BytesOnDisk, NormalizeChecksum, PartsOf;
    var Worker(job, HasRead(snap)) := s.workers[n];
    EndStill(s, n);
    PhaseStill(s, n, Failing(snap, snap.checksum));
    var sum := NormalizeChecksum(job.checksum);
    if sum.Success? {
      PhaseStill(s, n, Verified(snap, if sum.value.Some? then sum.value else snap.checksum));
    }
  }

  lemma MergeStill(c: Config, s: State, n: Node, raced: Option<Bytes>)
    requires WorkEnabled(c, s, n, MergeParts(raced))
    ensures Still(s, DoMerge(c, s, n, raced))
  {
    hide MergeOf, ResolveFinal;
  }

  lemma MergeThrowsStill(s: State, n: Node, junk: Option<Bytes>)
    requires Busy(s, n) && s.workers[n].phase.Verified?
    ensures Still(s, DoMergeThrows(s, n, junk))
  {
    hide ResolveFinal;
  }

  lemma CheckStill(s: State, n: Node, fp: Option<string>, throws: bool)
    requires Busy(s, n) && s.workers[n].phase.HasMerged?
    ensures Still(s, DoCheck(s, n, fp, throws))
    ensures !Mismatch(s.workers[n].phase.expected, s.workers[n].phase.m.hex) ==> DoCheck(s, n, fp, throws).finals == s.finals
  {
    hide Mismatch;
  }

  lemma FinishStill(be: Backend, s: State, n: Node)
    requires Busy(s, n) && s.workers[n].phase.Finishing?
    ensures Still(s, DoFinish(be, s, n))
  {
    hide FinishRow, Forget;
  }

  lemma FailStill(be: Backend, s: State, n: Node)
    requires Busy(s, n) && s.workers[n].phase.Failing?
    ensures Still(s, DoFail(be, s, n))
  {
    hide FailRow, Forget;
  }

  lemma PublishStill(s: State, n: Node, lost: bool)
    requires Busy(s, n) && s.workers[n].phase.Publishing?
    ensures Still(s, DoPublish(s, n, lost))
  {
  }

  lemma WorkStill(c: Config, be: Backend, s: State, n: Node, step: WorkStep)
    requires WorkEnabled(c, s, n, step) && !step.TakeJob?
    ensures Still(s, ApplyWork(c, be, s, n, step))
  {
    hide Still, DoRead, DoVerify, DoMerge, DoMergeThrows, DoCheck, DoFinish, DoFail, DoPublish, EndJob, MergeOf;
    match step
    case ReadRow => ReadStill(s, n);
    case VerifyParts => VerifyStill(s, n);
    case MergeParts(raced) => MergeStill(c, s, n, raced);
    case MergeThrows(junk) => MergeThrowsStill(s, n, junk);
    case CheckDigest(fp, throws) => CheckStill(s, n, fp, throws);
    case TryFinish => FinishStill(be, s, n);
    case TryFail => FailStill(be, s, n);
    case Publish(lost) => PublishStill(s, n, lost);
    case JobDies => EndStill(s, n);
  }

  /** Beside node `n`'s worker and the upload `id`, nothing that matters here has changed. */
  ghost predicate Aside(s: State, s': State, n: Node, id: Id) {
    && Still(s, s') && s'.workers - {n} == s.workers - {n}
    && s'.uploads.Keys == s.uploads.Keys && forall o :: o in s.uploads && o != id ==> s'.uploads[o] == s.uploads[o]
  }

  lemma WorkAside(c: Config, be: Backend, s: State, n: Node, step: WorkStep)
    requires WorkEnabled(c, s, n, step) && !step.TakeJob?
    ensures var s' := ApplyWork(c, be, s, n, step);
            Aside(s, s', n, s.workers[n].job.id) && (n in s'.workers ==> s'.workers[n].job == s.workers[n].job)
  {
    hide ApplyWork, WorkEnabled, MergeOf;
    WorkStill(c, be, s, n, step);
    WorkShifts(c, be, s, n, step);
    History.WorkAddsNone(c, be, s, n, step);
    var s', id := ApplyWork(c, be, s, n, step), s.workers[n].job.id;
    forall o | o in s.uploads && o != id
      ensures s'.uploads[o] == s.uploads[o]
    {
      WorkLeavesOthers(c, be, s, n, step, o);
    }
  }

  lemma AsideTwice(s: State, t: State, u: State, n: Node, id: Id)
    requires Aside(s, t, n, id) && Aside(t, u, n, id)
    ensures Aside(s, u, n, id)
  {
  }

  lemma {:induction false} DriveAside(c: Config, be: Backend, s: State, n: Node, fp: Option<string>)
    requires Busy(s, n)
    ensures var s' := Drive(c, be, s, n, fp); Aside(s, s', n, s.workers[n].job.id) && n !in s'.workers
    decreases Left(s, n)
  {
    hide ApplyWork, WorkEnabled, Left, Aside;
    var step, id := NextStep(c, s, n, fp), s.workers[n].job.id;
    var t := ApplyWork(c, be, s, n, step);
    JobsEnd(c, be, s, n, step);
    WorkAside(c, be, s, n, step);
    AsideKeys(s, t, n, id);
    if n in t.workers {
      DriveAside(c, be, t, n, fp);
      AsideTwice(s, t, Drive(c, be, t, n, fp), n, id);
    }
  }

  lemma AsideKeys(s: State, s': State, n: Node, id: Id)
    requires Aside(s, s', n, id)
    ensures s'.uploads.Keys == s.uploads.Keys
  {
  }

  // ---- What a job writes -------------------------------------------------------------------------------

  lemma BooksMerges(s: State, s': State, id: Id, l: Ledger)
    requires Books(s, s', id, l)
    ensures MergesOf(s', id) == l.merges
  {
  }

  /** What is on record of an upload's merges, and the final objects, are as they were. */
  ghost predicate Written(s: State, s': State, id: Id) { MergesOf(s', id) == MergesOf(s, id) && s'.finals == s.finals }

  lemma PublishingKeeps(c: Config, be: Backend, s: State, n: Node, fp: Option<string>, job: Job, event: Event, row: Session, events: seq<Event>)
    requires At(s, n, job, Publishing(event), row, events)
    ensures Written(s, Drive(c, be, s, n, fp), job.id)
  {
    hide At, Ends, DoPublish, Books;
    AtIs(s, n, job, Publishing(event), row, events);
    EndsPublish(s, n, job, event, row, events, false);
    var s' := DoPublish(s, n, false);
    DriveEnded(c, be, s', n, fp, job.id, row.status, events + [event]);
    PublishEffect(s, n, false);
    var l := s.uploads[job.id].ledger;
    BooksMerges(s, s', job.id, l.(events := l.events + [event]));
  }

  lemma FinishingKeeps(c: Config, be: Backend, s: State, n: Node, fp: Option<string>, job: Job, phase: Phase, row: Session, events: seq<Event>)
    requires phase.Finishing? && At(s, n, job, phase, row, events) && row.status == Completing
    ensures Written(s, Drive(c, be, s, n, fp), job.id)
  {
    hide At, Ends, DoFinish, Books;
    AtIs(s, n, job, phase, row, events);
    AtFinish(be, s, n, job, phase, row, events);
    var s', next := DoFinish(be, s, n), FinishRow(be, row, phase.m.name, phase.checksum, phase.fingerprint, s.clock);
    FinishEffect(be, s, n);
    var l := s.uploads[job.id].ledger;
    BooksMerges(s, s', job.id, l.(finishes := l.finishes + 1));
    PublishingKeeps(c, be, s', n, fp, job, CompletedEvent, next.value, events);
  }

  lemma MergedKeeps(c: Config, be: Backend, s: State, n: Node, fp: Option<string>, job: Job, phase: Phase, row: Session, events: seq<Event>)
    requires phase.HasMerged? && At(s, n, job, phase, row, events) && row.status == Completing && !Mismatch(phase.expected, phase.m.hex)
    ensures Written(s, Drive(c, be, s, n, fp), job.id)
  {
    hide At, DoCheck, Mismatch, Books;
    AtIs(s, n, job, phase, row, events);
    var HasMerged(snap, expected, m) := phase;
    AtCheck(s, n, job, snap, expected, m, row, events, fp, false);
    var s' := DoCheck(s, n, fp, false);
    CheckEffect(s, n, fp, false);
    CheckStill(s, n, fp, false);
    BooksMerges(s, s', job.id, s.uploads[job.id].ledger);
    FinishingKeeps(c, be, s', n, fp, job, Finishing(snap, m, if m.hex != "" then Some(m.hex) else expected,
                                                    if fp.Some? then fp else snap.fingerprint), row, events);
  }

  /** The job has put one merge of `bytes` on record, under the name it resolved, and that object is there. */
  ghost predicate Wrote(s: State, s': State, id: Id, fileName: string, bytes: Bytes) {
    var name, ms := ResolveFinal(s.finals.Keys, id, fileName), MergesOf(s', id);
    && |ms| == |MergesOf(s, id)| + 1 && ms[|ms| - 1].name == name && ms[|ms| - 1].bytes == bytes
    && s'.finals == s.finals[name := Final(bytes, id)]
  }

  /** A merge without a mismatch is on record when the job is over. */
  lemma VerifiedWrites(c: Config, be: Backend, s: State, n: Node, fp: Option<string>, job: Job, phase: Phase, row: Session, events: seq<Event>)
    requires phase.Verified? && At(s, n, job, phase, row, events) && row.status == Completing && Busy(s, n)
    requires MergeOf(c, s, n, None).Some? && !Mismatch(phase.expected, MergeOf(c, s, n, None).value.hex)
    ensures Wrote(s, Drive(c, be, s, n, fp), job.id, phase.snap.fileName, MergeOf(c, s, n, None).value.bytes)
  {
    hide At, DoMerge, MergeOf, Mismatch, ResolveFinal, Books;
    AtIs(s, n, job, phase, row, events);
    AtMerge(c, s, n, None, job, phase.snap, phase.expected, row, events);
    var s', merged := DoMerge(c, s, n, None), MergeOf(c, s, n, None).value;
    var m := MergeRecord(ResolveFinal(s.finals.Keys, job.id, phase.snap.fileName), merged.bytes, merged.hex);
    MergeEffect(c, s, n, None);
    var l := s.uploads[job.id].ledger;
    BooksMerges(s, s', job.id, l.(mergeTries := l.mergeTries + 1, merges := l.merges + [m]));
    MergedKeeps(c, be, s', n, fp, job, HasMerged(phase.snap, phase.expected, m), row, events);
  }

  lemma WroteFrom(s: State, t: State, s': State, id: Id, fileName: string, bytes: Bytes)
    requires Written(s, t, id) && Wrote(t, s', id, fileName, bytes)
    ensures Wrote(s, s', id, fileName, bytes)
  {
  }

  lemma ReadWrites(c: Config, be: Backend, s: State, n: Node, fp: Option<string>, job: Job, row: Session, events: seq<Event>)
    requires ValidConfig(c) && At(s, n, job, HasRead(row), row, events)
    requires row.status == Completing && (row.checksum.Some? ==> Digest64(row.checksum.value))
    requires Succeeds(c, PartsOf(s, job.id), job, row)
    ensures Wrote(s, Drive(c, be, s, n, fp), job.id, row.fileName, JoinParts(PartsOf(s, job.id), row.totalChunks))
  {
    hide At, Ends, DoVerify, Mismatch, MergeSpec, NormalizeChecksum, SlotsFilled, ValidConfig, PartsOf, Books, BytesOnDisk, Wrote;
    AtIs(s, n, job, HasRead(row), row, events);
    AtVerify(s, n, job, row, row, events);
    var s', parts, expected := DoVerify(s, n), PartsOf(s, job.id), Expected(job.checksum, row);
    VerifyEffect(s, n);
    BooksMerges(s, s', job.id, s.uploads[job.id].ledger);
    AtIs(s', n, job, Verified(row, expected), row, events);
    VerifiedMerge(c, parts, row, c.alwaysComputeFullChecksum || expected.Some?);
    NoMismatchExactlyWhen(c, job, row, JoinParts(parts, row.totalChunks));
    VerifiedWrites(c, be, s', n, fp, job, Verified(row, expected), row, events);
    WroteFrom(s, s', Drive(c, be, s', n, fp), job.id, row.fileName, JoinParts(parts, row.totalChunks));
  }

  lemma SuccessIsPresent(c: Config, parts: Parts, job: Job, row: Session)
    requires Succeeds(c, parts, job, row)
    ensures AllPresent(parts, row.totalChunks)
  {
  }

  /** A job that succeeds has put the join of the parts on record. */
  lemma JobWrites(c: Config, be: Backend, s: State, n: Node, fp: Option<string>, job: Job, row: Session, events: seq<Event>)
    requires ValidConfig(c) && At(s, n, job, Taken, row, events)
    requires row.status == Completing && (row.checksum.Some? ==> Digest64(row.checksum.value))
    requires Succeeds(c, PartsOf(s, job.id), job, row)
    ensures Wrote(s, Drive(c, be, s, n, fp), job.id, row.fileName, JoinParts(PartsOf(s, job.id), row.totalChunks))
  {
    hide At, Ends, DoRead, Succeeds, PartsOf, ValidConfig, Books, JoinParts, Wrote;
    AtIs(s, n, job, Taken, row, events);
    AtRead(s, n, job, row, events);
    ReadEffect(s, n);
    BooksMerges(s, DoRead(s, n), job.id, s.uploads[job.id].ledger);
    SuccessIsPresent(c, PartsOf(s, job.id), job, row);
    ReadWrites(c, be, DoRead(s, n), n, fp, job, row, events);
    WroteFrom(s, DoRead(s, n), Drive(c, be, DoRead(s, n), n, fp), job.id, row.fileName, JoinParts(PartsOf(s, job.id), row.totalChunks));
  }

  // ---- The theorem -------------------------------------------------------------------------------------

  /** The checksums a client may send with a file: none, or one that normalizes to the server's digest of it. */
  ghost predicate Honest(c: Config, checksum: Option<string>, file: Bytes) {
    NormalizeChecksum(checksum) == Success(None) || NormalizeChecksum(checksum) == Success(Some(c.sha(file)))
  }

  lemma SlicesSucceed(c: Config, file: Bytes, chunk: nat, n: nat, parts: Parts, job: Job, row: Session)
    requires Geometry(|file|, chunk, n) && Uploaded(file, chunk, n, parts)
    requires row.totalSize == |file| && row.chunkSize == chunk && row.totalChunks == n
    requires Honest(c, job.checksum, file) && (row.checksum.Some? ==> row.checksum.value == c.sha(file))
    ensures Succeeds(c, parts, job, row) && JoinParts(parts, n) == file
  {
    hide NormalizeChecksum, Geometry, Slice;
    UploadedFills(file, chunk, n, parts);
    UploadedJoins(file, chunk, n, parts);
    BytesOnDiskAreJoined(parts, n);
  }

  /**
   `s` is `base` with the upload `id` completed: its one merge wrote exactly the file, the row names the object, the
   object is there, one Completed event was published, and no other upload or object changed.
   */
  ghost predicate Delivered(base: State, s: State, id: Id, fileName: string, file: Bytes) {
    var name := ResolveFinal(base.finals.Keys, id, fileName);
    && id in s.uploads && s.uploads == base.uploads[id := s.uploads[id]]
    && s.uploads[id].row.status == Status.Completed && s.uploads[id].ledger.events == [CompletedEvent]
    && s.uploads[id].row.finalFileName == Some(name)
    && |s.uploads[id].ledger.merges| == 1 && s.uploads[id].ledger.merges[0].bytes == file
    && s.finals == base.finals[name := Final(file, id)] && s.clock == base.clock
  }

  lemma EndsIs(s: State, n: Node, id: Id, status: Status, events: seq<Event>)
    requires Ends(s, n, id, status, events)
    ensures id in s.uploads && s.uploads[id].row.status == status && s.uploads[id].ledger.events == events
  {
  }

  lemma NotStranded(c: Config, parts: Parts, job: Job, row: Session)
    requires Succeeds(c, parts, job, row)
    ensures !Stranded(parts, job, row)
  {
  }

  lemma JobSucceeds(at: Seat, c: Config, be: Backend, s: State, job: Job, row: Session)
    requires ValidConfig(c) && At(s, at.node, job, Taken, row, [])
    requires row.status == Completing && (row.checksum.Some? ==> Digest64(row.checksum.value))
    requires Succeeds(c, PartsOf(s, job.id), job, row)
    ensures Ends(Drive(c, be, s, at.node, None), at.node, job.id, Status.Completed, [CompletedEvent])
  {
    hide At, Ends, Succeeds, Stranded, PartsOf, ValidConfig, Drive;
    AtIs(s, at.node, job, Taken, row, []);
    JobOutcome(c, be, s, at.node, None);
    NotStranded(c, PartsOf(s, job.id), job, row);
    var none: seq<Event> := [];
    assert none + [EndEvent(true)] == [CompletedEvent];
  }

  /** The row of a Completed session names its merge. */
  lemma NamesItsMerge(c: Config, be: Backend, s: State, id: Id)
    requires ValidConfig(c) && Reachable(c, be, s) && id in s.uploads && s.uploads[id].row.status == Status.Completed
    ensures |s.uploads[id].ledger.merges| == 1 && s.uploads[id].row.finalFileName == Some(s.uploads[id].ledger.merges[0].name)
  {
    hide Enabled, Apply, ValidConfig;
    var states, steps :| IsRun(c, be, states, steps) && states[|steps|] == s;
    CompletedMeansVerifiedBytes(c, be, states, steps, |steps|, id);
  }

  /** A taken job that succeeds delivers. */
  lemma JobDelivers(at: Seat, c: Config, be: Backend, from: State, base: State, s: State, id: Id, row: Session, asked: Option<string>, file: Bytes)
    returns (end: State)
    requires ValidConfig(c) && Reaches(c, be, from, s) && Idle(at, base) && JobTaken(at, base, s, id, row, asked) && row.status == Pending
    requires row.checksum.Some? ==> Digest64(row.checksum.value)
    requires Succeeds(c, PartsOf(s, id), Job(id, asked), Leased(row)) && JoinParts(PartsOf(s, id), row.totalChunks) == file
    ensures Reaches(c, be, from, end) && Idle(at, end) && Delivered(base, end, id, row.fileName, file)
  {
    hide At, Ends, Succeeds, PartsOf, JoinParts, ValidConfig, Drive, Reaches, ResolveFinal;
    var job, leased := Job(id, asked), Leased(row);
    AtIs(s, at.node, job, Taken, leased, []);
    end := Drive(c, be, s, at.node, None);
    JobSucceeds(at, c, be, s, job, leased);
    JobWrites(c, be, s, at.node, None, job, leased, []);
    ReachDrive(c, be, from, s, at.node, None);
    ReachedIsReachable(c, be, from, end);
    DriveAside(c, be, s, at.node, None);
    EndsIs(end, at.node, id, Status.Completed, [CompletedEvent]);
    NamesItsMerge(c, be, end, id);
    SameQueue(at, end, s);
    OthersSame(at, base, s, end, id);
  }

  lemma OthersSame(at: Seat, base: State, s: State, end: State, id: Id)
    requires id in s.uploads && s.uploads == base.uploads[id := s.uploads[id]] && Aside(s, end, at.node, id)
    ensures end.uploads == base.uploads[id := end.uploads[id]]
  {
  }

  lemma ShaIsDigest(c: Config, file: Bytes)
    requires ValidConfig(c)
    ensures Digest64(c.sha(file))
  {
  }

  lemma AllCollected(at: Seat, base: State, s: State, id: Id, row: Session, file: Bytes, chunk: nat, n: nat)
    requires Collecting(at, base, s, id, row, file, chunk, n, n)
    ensures Uploaded(file, chunk, n, PartsOf(s, id))
  {
    hide Slice;
  }

  /** A waiting upload can be completed with any file of its size, beside whatever other uploads there are. */
  lemma CanBeCompleted(at: Seat, c: Config, be: Backend, from: State, base: State, id: Id, row: Session, file: Bytes, chunk: nat, n: nat, asked: Option<string>)
    returns (end: State)
    requires ValidConfig(c) && Reaches(c, be, from, base) && Idle(at, base) && id in base.uploads && base.uploads[id] == Newborn(row)
    requires Geometry(|file|, chunk, n) && Fits(row, base.clock, |file|, chunk, n)
    requires Honest(c, asked, file) && (row.checksum.Some? ==> row.checksum.value == c.sha(file))
    ensures Reaches(c, be, from, end) && Idle(at, end) && Delivered(base, end, id, row.fileName, file)
  {
    hide Reaches, NormalizeChecksum, Geometry, At, Succeeds, PartsOf, JoinParts, ValidConfig, Uploaded, Delivered, Idle;
    var s := Collects(at, c, be, from, base, id, row, file, chunk, n);
    s := Send(at, c, be, from, base, s, id, row, file, chunk, n, 0, n);
    AllCollected(at, base, s, id, row, file, chunk, n);
    s := AskToComplete(at, c, be, from, base, s, id, row, asked);
    SlicesSucceed(c, file, chunk, n, PartsOf(s, id), Job(id, asked), Leased(row));
    ShaIsDigest(c, file);
    end := JobDelivers(at, c, be, from, base, s, id, row, asked, file);
  }

  /**
   Every file can be uploaded: from every reachable state, at every idle node, for every file that initiate admits and
   whose chunk count fits its size, whatever its content, chunk size and honest checksums, some continuation completes
   the session with exactly that file. CountIsRightExactlyWhen says when the count fits.
   */
  lemma EveryFileCanBeUploaded(at: Seat, c: Config, be: Backend, base: State, id: Id, args: InitiateArgs, hit: Option<Id>, file: Bytes,
                               asked: Option<string>) returns (end: State)
    requires ValidConfig(c) && c.pendingTtl > 0 && Reachable(c, be, base) && Idle(at, base)
    requires Enabled(c, base, Ambient(Initiate(at.node, id, args, hit))) && |file| == args.totalSize
    requires args.chunkSize > 0 && Geometry(|file|, args.chunkSize, IntCount(|file|, args.chunkSize))
    requires Honest(c, args.checksum, file) && Honest(c, asked, file)
    ensures Reaches(c, be, base, end) && Idle(at, end) && Delivered(base, end, id, args.fileName, file)
  {
    hide Reaches, Reachable, NormalizeChecksum, Geometry, ValidConfig, IntCount, Enabled;
    ReachesItself(c, be, base);
    var s := Initiated(at, c, be, base, base, id, args, hit);
    NewSessionFits(c, base.clock, args);
    var row, n := NewSession(c, base.clock, args), IntCount(args.totalSize, args.chunkSize);
    SameQueue(at, s, base);
    end := CanBeCompleted(at, c, be, base, s, id, row, file, args.chunkSize, n, asked);
    DeliveredBeside(base, s, end, id, row, args.fileName, file);
  }

  lemma DeliveredBeside(base: State, s: State, end: State, id: Id, row: Session, fileName: string, file: Bytes)
    requires Only(base, s, id, Newborn(row)) && Delivered(s, end, id, fileName, file)
    ensures Delivered(base, end, id, fileName, file)
  {
    hide ResolveFinal;
  }

  /** The first upload of all: what the limits must allow. */
  ghost predicate Allowed(c: Config, args: InitiateArgs) {
    && ArgsOk(c, args)
    && (c.maxTotalStoredBytes > 0 ==> args.totalSize <= c.maxTotalStoredBytes)
    && (args.clientIp.Some? && Trim(args.clientIp.value) != "" && c.maxStoredBytesPerIp > 0 ==> args.totalSize <= c.maxStoredBytesPerIp)
  }

  lemma NothingUsed(c: Config, who: Option<string>, now: int)
    ensures Used(c, EMPTY, who) == 0 && Total(EMPTY.uploads, PendingCount(c, who, now)) == 0
  {
    assert EMPTY.uploads == map[];
  }

  lemma FirstInitiate(at: Seat, c: Config, id: Id, args: InitiateArgs)
    requires GuidText(id) && Allowed(c, args)
    ensures Enabled(c, EMPTY, Ambient(Initiate(at.node, id, args, None))) && Idle(at, EMPTY)
  {
    hide GuidText, NormalizeChecksum, Used, Trim;
    assert EMPTY.uploads == map[];
    NothingUsed(c, None, EMPTY.clock);
    if args.clientIp.Some? {
      NothingUsed(c, Some(c.ipKey(args.clientIp.value)), EMPTY.clock);
    }
  }
}
