/**
 Runs that show what the theorems' provisos are for: a malformed checksum strands a good upload, a Failed event can
 belong to an Expired session, a late finish overruns a quota, and a client name with an upload id in it overwrites a
 Completed object.
 */
module Witnesses {
  import opened Base
  import opened Checksums
  import opened Deliveries
  import opened Doubles
  import opened EndToEnd
  import opened FinalNames
  import History
  import opened Jobs
  import opened Leases
  import opened Merge
  import opened Protocol
  import opened Quota
  import opened Reach
  import opened Repository
  import opened Slots
  import opened Totals

  /** These runs are all served by one node. */
  const HOME := Seat(0, 0)

  /** The count that initiate stores fits the size. */
  predicate CountFits(args: InitiateArgs) {
    args.chunkSize > 0 && Geometry(args.totalSize, args.chunkSize, IntCount(args.totalSize, args.chunkSize))
  }

  // ---- A malformed checksum ----------------------------------------------------------------------------

  lemma SlicesVerify(file: Bytes, chunk: nat, n: nat, parts: Parts, row: Session)
    requires Geometry(|file|, chunk, n) && Uploaded(file, chunk, n, parts) && row.totalSize == |file| && row.totalChunks == n
    ensures PartsVerify(parts, row)
  {
    hide Geometry, Slice;
    UploadedJoins(file, chunk, n, parts);
    BytesOnDiskAreJoined(parts, n);
  }

  lemma EndedJob(s: State, n: Node, id: Id)
    requires Busy(s, n) && s.workers[n].job.id == id
    ensures var t := EndJob(s, n);
            id in t.uploads && t.uploads[id].stage == Spent && t.parts == s.parts && n !in t.workers
  {
  }

  /** The job of a stranded session just ends after verification: its parts stay, and its right is spent. */
  lemma StrandedDrive(c: Config, be: Backend, s: State, job: Job, row: Session)
    requires At(s, 0, job, Taken, row, []) && row.status == Completing && Stranded(PartsOf(s, job.id), job, row)
    ensures var t := Drive(c, be, s, 0, None);
            Ends(t, 0, job.id, Completing, []) && PartsOf(t, job.id) == PartsOf(s, job.id) && t.uploads[job.id].stage == Spent
  {
    hide At, Ends, DoRead, PartsOf, EndJob, NormalizeChecksum, PartsVerify, AllPresent, BytesOnDisk;
    AtIs(s, 0, job, Taken, row, []);
    AtRead(s, 0, job, row, []);
    var s1 := DoRead(s, 0);
    AtIs(s1, 0, job, HasRead(row), row, []);
    AtVerify(s1, 0, job, row, row, []);
    VerifyGivesUp(s1, job, row);
    var t := EndJob(s1, 0);
    EndedJob(s1, 0, job.id);
    DriveEnded(c, be, t, 0, None, job.id, Completing, []);
    EndsIs(t, 0, job.id, Completing, []);
    SameParts(t, s1, job.id);
  }

  lemma VerifyGivesUp(s: State, job: Job, row: Session)
    requires Busy(s, 0) && s.workers[0] == Worker(job, HasRead(row)) && Stranded(PartsOf(s, job.id), job, row)
    ensures DoVerify(s, 0) == EndJob(s, 0)
  {
    hide EndJob, SetPhase, NormalizeChecksum, AllPresent, BytesOnDisk, PartsOf;
  }

  lemma SameParts(s: State, t: State, id: Id)
    requires s.parts == t.parts
    ensures PartsOf(s, id) == PartsOf(t, id)
  {
  }

  /**
   A malformed checksum at complete strands a perfectly good upload, for every file: from a state in which node 0 has
   taken the job, driving that job to its end leaves the session Completing with all its slices stored, no event, and
   the right to finish it spent. StrandedForGood says that this is for good.
   */
  lemma MalformedChecksumStrands(c: Config, be: Backend, base: State, id: Id, args: InitiateArgs, file: Bytes, asked: Option<string>)
    returns (s: State, t: State, n: nat)
    requires c.pendingTtl > 0 && Reachable(c, be, base) && Idle(HOME, base)
    requires Enabled(c, base, Ambient(Initiate(0, id, args, None))) && |file| == args.totalSize && CountFits(args) && NormalizeChecksum(asked).Failure?
    ensures args.chunkSize > 0 && NormalizeChecksum(args.checksum).Success? && Geometry(|file|, args.chunkSize, n)
    ensures Reaches(c, be, base, s) && JobTaken(HOME, base, s, id, NewSession(c, base.clock, args), asked)
    ensures t == Drive(c, be, s, 0, None) && Reaches(c, be, s, t)
    ensures Ends(t, 0, id, Completing, []) && t.uploads[id].stage == Spent && Uploaded(file, args.chunkSize, n, PartsOf(t, id))
  {
    hide Reaches, Reachable, NormalizeChecksum, IntCount, Geometry, At, Ends, PartsOf, Drive, Uploaded, PartsVerify, Enabled;
    ReachesItself(c, be, base);
    var s0 := Initiated(HOME, c, be, base, base, id, args, None);
    NewSessionFits(c, base.clock, args);
    n := IntCount(args.totalSize, args.chunkSize);
    var row, chunk := NewSession(c, base.clock, args), args.chunkSize;
    SameQueue(HOME, s0, base);
    s := Collects(HOME, c, be, base, s0, id, row, file, chunk, n);
    s := Send(HOME, c, be, base, s0, s, id, row, file, chunk, n, 0, n);
    AllCollected(HOME, s0, s, id, row, file, chunk, n);
    s := AskToComplete(HOME, c, be, base, s0, s, id, row, asked);
    SlicesVerify(file, chunk, n, PartsOf(s, id), Leased(row));
    StrandedDrive(c, be, s, Job(id, asked), Leased(row));
    t := Drive(c, be, s, 0, None);
    ReachedIsReachable(c, be, base, s);
    ReachesItself(c, be, s);
    ReachDrive(c, be, s, s, 0, None);
    TakenBeside(base, s0, s, id, row, asked);
  }

  lemma TakenBeside(base: State, s0: State, s: State, id: Id, row: Session, asked: Option<string>)
    requires Only(base, s0, id, Newborn(row)) && s0.calls == base.calls && JobTaken(HOME, s0, s, id, row, asked)
    ensures JobTaken(HOME, base, s, id, row, asked)
  {
    hide At;
    AtIs(s, 0, Job(id, asked), Taken, Leased(row), []);
  }

  // ---- A Failed event for an Expired session -----------------------------------------------------------

  /** Node 0's worker is at `phase` of the only upload's job, whose row is `row`, at time `now`. */
  ghost predicate Midway(s: State, job: Job, phase: Phase, row: Session, now: int) {
    At(s, 0, job, phase, row, []) && s.uploads.Keys == {job.id} && s.clock == now && 0 !in s.cleaners
  }

  lemma StillMidway(s: State, s': State, job: Job, phase: Phase, row: Session, now: int)
    requires At(s', 0, job, phase, row, []) && s.uploads.Keys == {job.id} && s.clock == now && 0 !in s.cleaners
    requires Still(s, s') && s'.uploads.Keys == s.uploads.Keys
    ensures Midway(s', job, phase, row, now)
  {
    hide At;
  }

  /** One worker step towards the last compare-and-set. */
  lemma StepsOn(c: Config, be: Backend, from: State, s: State, job: Job, phase: Phase, row: Session, now: int, step: WorkStep, next: Phase)
    requires Reaches(c, be, from, s) && Midway(s, job, phase, row, now) && WorkEnabled(c, s, 0, step) && !step.TakeJob?
    requires At(ApplyWork(c, be, s, 0, step), 0, job, next, row, [])
    ensures var s' := ApplyWork(c, be, s, 0, step); Reaches(c, be, from, s') && Midway(s', job, next, row, now)
  {
    hide Reaches, At, ApplyWork, WorkEnabled;
    ReachStep(c, be, from, s, Working(0, step));
    WorkStill(c, be, s, 0, step);
    History.WorkAddsNone(c, be, s, 0, step);
    StillMidway(s, ApplyWork(c, be, s, 0, step), job, next, row, now);
  }

  lemma JobReads(c: Config, be: Backend, from: State, s: State, job: Job, row: Session, now: int) returns (s': State)
    requires Reaches(c, be, from, s) && Midway(s, job, Taken, row, now) && row.status == Completing
    ensures Reaches(c, be, from, s') && Midway(s', job, HasRead(row), row, now) && PartsOf(s', job.id) == PartsOf(s, job.id)
  {
    hide Reaches, At, DoRead, PartsOf;
    AtIs(s, 0, job, Taken, row, []);
    AtRead(s, 0, job, row, []);
    s' := DoRead(s, 0);
    StepsOn(c, be, from, s, job, Taken, row, now, ReadRow, HasRead(row));
  }

  /** The first upload of all, completed with nothing stored: the job finds its parts missing. */
  lemma JobFindsNothing(c: Config, be: Backend, id: Id, args: InitiateArgs, asked: Option<string>) returns (s: State, row: Session)
    requires GuidText(id) && c.pendingTtl > 0 && Allowed(c, args)
    ensures Reaches(c, be, EMPTY, s) && row.status == Completing && row.expiresAt > 0
    ensures Midway(s, Job(id, asked), Failing(row, row.checksum), row, 0)
  {
    hide Reaches, NormalizeChecksum, IntCount, At, PartsOf, Enabled, GuidText, Allowed, ArgsOk, DoVerify, Geometry, PartsVerify;
    FirstInitiate(HOME, c, id, args);
    EmptyIsReachable(c, be);
    ReachesItself(c, be, EMPTY);
    var s0 := Initiated(HOME, c, be, EMPTY, EMPTY, id, args, None);
    NewSessionFits(c, 0, args);
    SameQueue(HOME, s0, EMPTY);
    var born := NewSession(c, 0, args);
    s := AskToComplete(HOME, c, be, EMPTY, EMPTY, s0, id, born, asked);
    row := Leased(born);
    var job := Job(id, asked);
    s := JobReads(c, be, EMPTY, s, job, row, 0);
    AtIs(s, 0, job, HasRead(row), row, []);
    NothingVerifies(row);
    AtVerify(s, 0, job, row, row, []);
    StepsOn(c, be, EMPTY, s, job, HasRead(row), row, 0, VerifyParts, Failing(row, row.checksum));
    s := DoVerify(s, 0);
  }

  lemma NothingVerifies(row: Session)
    requires row.totalChunks > 0
    ensures !PartsVerify(map[], row)
  {
    var none: Parts := map[];
    assert 0 !in none;
  }

  /** The clock moves to the session's expiry. */
  lemma Expires(c: Config, be: Backend, from: State, s: State, job: Job, phase: Phase, row: Session) returns (s': State)
    requires Reaches(c, be, from, s) && Midway(s, job, phase, row, 0) && row.expiresAt > 0
    ensures Reaches(c, be, from, s') && Midway(s', job, phase, row, row.expiresAt)
  {
    hide Reaches;
    ReachStep(c, be, from, s, Ambient(Tick(row.expiresAt)));
    s' := s.(clock := row.expiresAt);
  }

  /** Node 0's cleanup lists the session and claims it, under the worker's hands. */
  lemma Claimed(c: Config, be: Backend, from: State, s: State, job: Job, phase: Phase, row: Session) returns (s': State)
    requires Reaches(c, be, from, s) && Midway(s, job, phase, row, row.expiresAt) && row.status == Completing
    ensures Reaches(c, be, from, s') && At(s', 0, job, phase, row.(status := Expired, version := row.version + 1), [])
  {
    hide Reaches;
    var list := Cleaning(0, CleanStep.ListExpired([job.id]));
    assert Enabled(c, s, list);
    ReachStep(c, be, from, s, list);
    var listed := Apply(c, be, s, list);
    assert listed.cleaners[0].listed == [job.id] && listed.cleaners[0].next == 0;
    ReachStep(c, be, from, listed, Cleaning(0, TryClaim));
    s' := DoClaim(listed, 0);
  }

  /**
   A Failed event can belong to an Expired session: for every admitted request some run ends so. FailedEventExactlyWhen
   says when.
   */
  lemma FailedEventOnExpired(c: Config, be: Backend, id: Id, args: InitiateArgs, asked: Option<string>) returns (end: State)
    requires GuidText(id) && c.pendingTtl > 0 && Allowed(c, args)
    ensures Reachable(c, be, end) && id in end.uploads
    ensures end.uploads[id].row.status == Expired && end.uploads[id].ledger.events == [FailedEvent]
  {
    hide Reaches, At, Ends, GuidText, Allowed, Drive, Midway;
    var s, row := JobFindsNothing(c, be, id, args, asked);
    var job, phase := Job(id, asked), Failing(row, row.checksum);
    s := Expires(c, be, EMPTY, s, job, phase, row);
    s := Claimed(c, be, EMPTY, s, job, phase, row);
    DriveFailing(c, be, s, 0, None, job, row, row.checksum, row.(status := Expired, version := row.version + 1), []);
    end := Drive(c, be, s, 0, None);
    ReachDrive(c, be, EMPTY, s, 0, None);
    ReachedIsReachable(c, be, EMPTY, end);
    var none: seq<Event> := [];
    assert none + [FailedEvent] == [FailedEvent];
    EndsIs(end, 0, id, Expired, [FailedEvent]);
  }

  // ---- The quota, overrun ------------------------------------------------------------------------------

  lemma JobVerifies(c: Config, be: Backend, from: State, s: State, job: Job, row: Session, now: int) returns (s': State)
    requires Reaches(c, be, from, s) && Midway(s, job, HasRead(row), row, now) && Succeeds(c, PartsOf(s, job.id), job, row)
    ensures Reaches(c, be, from, s') && Midway(s', job, Verified(row, Expected(job.checksum, row)), row, now)
    ensures PartsOf(s', job.id) == PartsOf(s, job.id)
  {
    hide Reaches, At, DoVerify, PartsOf, PartsVerify, SlotsFilled, NormalizeChecksum, JoinParts;
    AtIs(s, 0, job, HasRead(row), row, []);
    AtVerify(s, 0, job, row, row, []);
    s' := DoVerify(s, 0);
    StepsOn(c, be, from, s, job, HasRead(row), row, now, VerifyParts, Verified(row, Expected(job.checksum, row)));
  }

  lemma JobMerges(c: Config, be: Backend, from: State, s: State, job: Job, row: Session, expected: Option<string>, now: int)
    returns (s': State, m: MergeRecord)
    requires Reaches(c, be, from, s) && Midway(s, job, Verified(row, expected), row, now) && Busy(s, 0) && MergeOf(c, s, 0, None).Some?
    ensures Reaches(c, be, from, s') && Midway(s', job, HasMerged(row, expected, m), row, now) && m.hex == MergeOf(c, s, 0, None).value.hex
  {
    hide Reaches, At, DoMerge, MergeOf, ResolveFinal;
    AtIs(s, 0, job, Verified(row, expected), row, []);
    AtMerge(c, s, 0, None, job, row, expected, row, []);
    s' := DoMerge(c, s, 0, None);
    m := MergeRecord(ResolveFinal(s.finals.Keys, job.id, row.fileName), MergeOf(c, s, 0, None).value.bytes, MergeOf(c, s, 0, None).value.hex);
    StepsOn(c, be, from, s, job, Verified(row, expected), row, now, MergeParts(None), HasMerged(row, expected, m));
  }

  lemma JobChecks(c: Config, be: Backend, from: State, s: State, job: Job, row: Session, expected: Option<string>, m: MergeRecord, now: int)
    returns (s': State, phase: Phase)
    requires Reaches(c, be, from, s) && Midway(s, job, HasMerged(row, expected, m), row, now) && !Mismatch(expected, m.hex)
    ensures Reaches(c, be, from, s') && phase.Finishing? && Midway(s', job, phase, row, now)
  {
    hide Reaches, At, DoCheck, Mismatch;
    AtIs(s, 0, job, HasMerged(row, expected, m), row, []);
    AtCheck(s, 0, job, row, expected, m, row, [], None, false);
    s' := DoCheck(s, 0, None, false);
    phase := Finishing(row, m, if m.hex != "" then Some(m.hex) else expected, row.fingerprint);
    StepsOn(c, be, from, s, job, HasMerged(row, expected, m), row, now, CheckDigest(None, false), phase);
  }

  /** A job that succeeds gets as far as its last compare-and-set. */
  lemma JobGetsToFinish(c: Config, be: Backend, from: State, s: State, job: Job, row: Session, now: int) returns (s': State, phase: Phase)
    requires ValidConfig(c) && Reaches(c, be, from, s) && Midway(s, job, Taken, row, now)
    requires row.status == Completing && (row.checksum.Some? ==> Digest64(row.checksum.value))
    requires Succeeds(c, PartsOf(s, job.id), job, row)
    ensures Reaches(c, be, from, s') && phase.Finishing? && Midway(s', job, phase, row, now)
  {
    hide Reaches, At, Mismatch, MergeSpec, NormalizeChecksum, SlotsFilled, ValidConfig, PartsOf, BytesOnDisk;
    var parts, expected := PartsOf(s, job.id), Expected(job.checksum, row);
    var s1 := JobReads(c, be, from, s, job, row, now);
    var s2 := JobVerifies(c, be, from, s1, job, row, now);
    AtIs(s2, 0, job, Verified(row, expected), row, []);
    VerifiedMerge(c, parts, row, c.alwaysComputeFullChecksum || expected.Some?);
    var s3, m := JobMerges(c, be, from, s2, job, row, expected, now);
    NoMismatchExactlyWhen(c, job, row, JoinParts(parts, row.totalChunks));
    s', phase := JobChecks(c, be, from, s3, job, row, expected, m, now);
  }

  /** With one upload that is Completing and past its expiry, nothing is used and nobody is pending. */
  lemma NothingCharged(c: Config, s: State, id: Id, who: Option<string>)
    requires s.uploads.Keys == {id} && s.uploads[id].row.status == Completing && s.uploads[id].row.expiresAt <= s.clock
    ensures Used(c, s, who) == 0 && Total(s.uploads, PendingCount(c, who, s.clock)) == 0
  {
    var m := s.uploads;
    assert m - {id} == map[];
    TotalWithout(m, CompletedBytes(c, who), id);
    TotalWithout(m, ActiveBytes(c, who, s.clock), id);
    TotalWithout(m, PendingCount(c, who, s.clock), id);
  }

  lemma InitiateUses(c: Config, s: State, id: Id, args: InitiateArgs, who: Option<string>)
    requires id !in s.uploads && ArgsOk(c, args) && c.pendingTtl > 0 && CountsFor(c, args, who)
    ensures Used(c, DoInitiate(c, s, 0, id, args), who) == Used(c, s, who) + args.totalSize
  {
    hide Remember, NormalizeChecksum, IntCount;
    var u := Newborn(NewSession(c, s.clock, args));
    TotalWith(s.uploads, CompletedBytes(c, who), id, u);
    TotalWith(s.uploads, ActiveBytes(c, who, s.clock), id, u);
  }

  /** The request counts for everyone's limit, or for its address's. */
  predicate CountsFor(c: Config, args: InitiateArgs, who: Option<string>) {
    who.None? || (args.clientIp.Some? && who == Some(c.ipKey(args.clientIp.value)))
  }

  lemma NoneCompleted(c: Config, s: State, args: InitiateArgs, sum: Option<string>)
    requires forall o :: o in s.uploads ==> s.uploads[o].row.status != Status.Completed
    ensures LookupResult(c, s, args, sum, None)
  {
  }

  lemma LetInEnabled(c: Config, s: State, job: Job, phase: Phase, row: Session, id: Id, args: InitiateArgs)
    requires Midway(s, job, phase, row, row.expiresAt) && row.status == Completing && GuidText(id) && id != job.id && Allowed(c, args)
    ensures Enabled(c, s, Ambient(Initiate(0, id, args, None)))
  {
    hide GuidText, NormalizeChecksum, LookupResult, Used, Trim;
    NothingCharged(c, s, job.id, None);
    if args.clientIp.Some? {
      NothingCharged(c, s, job.id, Some(c.ipKey(args.clientIp.value)));
    }
    NoneCompleted(c, s, args, NormalizeChecksum(args.checksum).value);
  }

  /** Another request is let in on the bytes that the expired upload no longer counts for. */
  lemma LetIn(c: Config, be: Backend, from: State, s: State, job: Job, phase: Phase, row: Session, id: Id, args: InitiateArgs, who: Option<string>)
    returns (s': State)
    requires Reaches(c, be, from, s) && Midway(s, job, phase, row, row.expiresAt) && row.status == Completing
    requires GuidText(id) && id != job.id && c.pendingTtl > 0 && Allowed(c, args) && CountsFor(c, args, who)
    ensures Reaches(c, be, from, s') && At(s', 0, job, phase, row, []) && s'.clock == row.expiresAt && Used(c, s', who) == args.totalSize
  {
    hide Reaches, Used, GuidText, NormalizeChecksum, IntCount, LookupResult, Remember, WithinLimits;
    LetInEnabled(c, s, job, phase, row, id, args);
    ReachStep(c, be, from, s, Ambient(Initiate(0, id, args, None)));
    s' := DoInitiate(c, s, 0, id, args);
    NothingCharged(c, s, job.id, who);
    InitiateUses(c, s, id, args, who);
  }

  /** Node 0 has taken the job of the first upload of all, with every slice of the file stored. */
  lemma FirstJob(c: Config, be: Backend, id: Id, args: InitiateArgs, file: Bytes, asked: Option<string>) returns (s: State)
    requires ValidConfig(c) && GuidText(id) && c.pendingTtl > 0 && Allowed(c, args) && |file| == args.totalSize && CountFits(args)
    requires Honest(c, args.checksum, file) && Honest(c, asked, file)
    ensures args.chunkSize > 0 && NormalizeChecksum(args.checksum).Success?
    ensures var row := Leased(NewSession(c, 0, args));
            Reaches(c, be, EMPTY, s) && Midway(s, Job(id, asked), Taken, row, 0) && Succeeds(c, PartsOf(s, id), Job(id, asked), row)
            && row.expiresAt > 0 && s.uploads[id].row.clientIp == args.clientIp
  {
    hide Reaches, NormalizeChecksum, IntCount, Geometry, At, PartsOf, Enabled, GuidText, Allowed, ArgsOk, Succeeds, Uploaded, ValidConfig;
    FirstInitiate(HOME, c, id, args);
    EmptyIsReachable(c, be);
    ReachesItself(c, be, EMPTY);
    var s0 := Initiated(HOME, c, be, EMPTY, EMPTY, id, args, None);
    NewSessionFits(c, 0, args);
    SameQueue(HOME, s0, EMPTY);
    var born, n, chunk := NewSession(c, 0, args), IntCount(args.totalSize, args.chunkSize), args.chunkSize;
    s := Collects(HOME, c, be, EMPTY, s0, id, born, file, chunk, n);
    s := Send(HOME, c, be, EMPTY, s0, s, id, born, file, chunk, n, 0, n);
    AllCollected(HOME, s0, s, id, born, file, chunk, n);
    s := AskToComplete(HOME, c, be, EMPTY, s0, s, id, born, asked);
    SlicesSucceed(c, file, chunk, n, PartsOf(s, id), Job(id, asked), Leased(born));
    AtIs(s, 0, Job(id, asked), Taken, Leased(born), []);
  }

  /**
   The proviso of QuotaHolds is needed, for everyone's limit and for an address's: for every file that fits the limit
   once but not twice, some run ends over it, with a finish that comes after its session's expiry.
   */
  lemma LateFinishIsReachable(c: Config, be: Backend, id: Id, other: Id, args: InitiateArgs, file: Bytes, who: Option<string>)
    returns (end: State)
    requires ValidConfig(c) && GuidText(id) && GuidText(other) && id != other && c.pendingTtl > 0
    requires Allowed(c, args) && |file| == args.totalSize && CountFits(args) && Honest(c, args.checksum, file) && CountsFor(c, args, who)
    requires 0 < Limit(c, who) < 2 * |file|
    ensures Reachable(c, be, end) && !Within(c, end, who)
  {
    hide Reaches, Reachable, GuidText, At, Succeeds, PartsOf, ValidConfig, ArgsOk, Used, DoFinish, Midway, Allowed, NormalizeChecksum, IntCount;
    assert NormalizeChecksum(None) == Success(None) by { NoChecksum(); }
    var s := FirstJob(c, be, id, args, file, None);
    var row, job := Leased(NewSession(c, 0, args)), Job(id, None);
    ShaIsDigest(c, file);
    var phase: Phase;
    s, phase := JobGetsToFinish(c, be, EMPTY, s, job, row, 0);
    s := Expires(c, be, EMPTY, s, job, phase, row);
    s := LetIn(c, be, EMPTY, s, job, phase, row, other, args, who);
    AtIs(s, 0, job, phase, row, []);
    ReachStep(c, be, EMPTY, s, Working(0, TryFinish));
    end := DoFinish(be, s, 0);
    ReachedIsReachable(c, be, EMPTY, end);
    FinishCharges(c, be, s, 0, who);
  }

  lemma NoChecksum()
    ensures NormalizeChecksum(None) == Success(None)
  {
  }

  // ---- An upload id in a client's file name ------------------------------------------------------------

  /** A request without checksums or an address. */
  function Plain(name: string, size: nat, chunk: nat): InitiateArgs { InitiateArgs(name, size, chunk, None, None, None) }

  lemma PlainEnabled(c: Config, s: State, id: Id, args: InitiateArgs)
    requires id !in s.uploads && GuidText(id) && ArgsOk(c, args) && c.maxTotalStoredBytes == 0
    requires args.checksum.None? && args.fingerprint.None? && args.clientIp.None?
    ensures Enabled(c, s, Ambient(Initiate(0, id, args, None)))
  {
    hide GuidText, Used, Trim;
  }

  lemma SuffixedIsLonger(name: string, id: string)
    requires GuidText(id)
    ensures |Suffixed(name, id)| > |name|
  {
  }

  /** Both uploads are Completed under one name, and the object there has changed from the first one's bytes to the second's. */
  ghost predicate Overwritten(s: State, t: State, first: Id, second: Id, name: string, before: Bytes, after: Bytes) {
    && first in s.uploads && s.uploads[first].row.status == Status.Completed && s.uploads[first].row.finalFileName == Some(name)
    && first in t.uploads && t.uploads[first] == s.uploads[first]
    && second in t.uploads && t.uploads[second].row.status == Status.Completed && t.uploads[second].row.finalFileName == Some(name)
    && name in s.finals && s.finals[name].bytes == before && name in t.finals && t.finals[name].bytes == after
  }

  /**
   A merge can overwrite: `b` is initiated, then `a` completes under the same client name, then `d` completes under
   the name that `b` will fall back to, and then `b` completes. The object of `d`, Completed, is overwritten, and two
   Completed sessions share a name, for all names and contents.
   */
  lemma AnIdInANameOverwrites(c: Config, be: Backend, a: Id, b: Id, d: Id, name: string, fa: Bytes, fb: Bytes, fd: Bytes, chunk: nat)
    returns (s: State, t: State)
    requires ValidConfig(c) && c.pendingTtl > 0 && c.maxTotalStoredBytes == 0
    requires GuidText(a) && GuidText(b) && GuidText(d) && a != b && a != d && b != d
    requires ArgsOk(c, Plain(name, |fa|, chunk)) && ArgsOk(c, Plain(name, |fb|, chunk)) && ArgsOk(c, Plain(Suffixed(name, b), |fd|, chunk))
    requires CountFits(Plain(name, |fa|, chunk)) && CountFits(Plain(name, |fb|, chunk)) && CountFits(Plain(Suffixed(name, b), |fd|, chunk))
    ensures Reaches(c, be, s, t) && Overwritten(s, t, d, b, Suffixed(name, b), fd, fb)
  {
    hide Reaches, Reachable, GuidText, ValidConfig, ArgsOk, NormalizeChecksum, IntCount, Geometry, Enabled, Suffixed;
    var argsA, argsB, argsD := Plain(name, |fa|, chunk), Plain(name, |fb|, chunk), Plain(Suffixed(name, b), |fd|, chunk);
    assert NormalizeChecksum(None) == Success(None) by { NoChecksum(); }
    EmptyIsReachable(c, be);
    ReachesItself(c, be, EMPTY);
    PlainEnabled(c, EMPTY, b, argsB);
    var s0 := Initiated(HOME, c, be, EMPTY, EMPTY, b, argsB, None);
    NewSessionFits(c, 0, argsB);
    SameQueue(HOME, s0, EMPTY);
    ReachedIsReachable(c, be, EMPTY, s0);
    PlainEnabled(c, s0, a, argsA);
    var s1 := EveryFileCanBeUploaded(HOME, c, be, s0, a, argsA, None, fa, None);
    ReachedIsReachable(c, be, s0, s1);
    PlainEnabled(c, s1, d, argsD);
    s := EveryFileCanBeUploaded(HOME, c, be, s1, d, argsD, None, fd, None);
    SuffixedIsLonger(name, b);
    ReachedIsReachable(c, be, s1, s);
    ReachesItself(c, be, s);
    var n := IntCount(|fb|, chunk);
    t := CanBeCompleted(HOME, c, be, s, s, b, NewSession(c, 0, argsB), fb, chunk, n, None);
  }
}
