/**
 One lease, one job, one merge, one event, and verified bytes: the invariant of the upload-session protocol, kept by
 every step of every node, and what it says about whole runs.
 */
module Leases {
  import opened Base
  import opened Checksums
  import opened Doubles
  import opened Merge
  import opened Protocol
  import opened Repository
  import opened Slots

  // ---- What holds of one upload ------------------------------------------------------------------------

  /** What initiate wrote. */
  ghost predicate BornOk(b: Session) {
    && b.status == Pending && b.version == 0 && b.finalFileName.None? && b.completedAt.None?
    && b.totalSize > 0 && b.chunkSize > 0 && b.totalChunks > 0
    && (b.checksum.Some? ==> Digest64(b.checksum.value))
  }

  /** What initiate promised: within the limits, cut into the stored number of chunks, good for the configured time. */
  ghost predicate AsAsked(c: Config, b: Session) {
    && Trim(b.fileName) != ""
    && (c.maxFileSizeBytes > 0 ==> b.totalSize <= c.maxFileSizeBytes)
    && (c.maxChunkSizeBytes > 0 ==> b.chunkSize <= c.maxChunkSizeBytes)
    && b.chunkSize > 0 && b.totalChunks == IntCount(b.totalSize, b.chunkSize) && b.expiresAt == b.createdAt + c.pendingTtl
  }

  /** No step changes the shape of a session after initiate. */
  predicate SameShape(r: Session, b: Session) {
    && r.fileName == b.fileName && r.totalSize == b.totalSize && r.chunkSize == b.chunkSize
    && r.totalChunks == b.totalChunks && r.createdAt == b.createdAt && r.expiresAt == b.expiresAt && r.clientIp == b.clientIp
  }

  function Leased(b: Session): Session { b.(status := Completing, version := 1) }

  ghost predicate Wins(l: Ledger, begins: nat, finishes: nat, fails: nat, claims: nat, aborts: nat) {
    l.begins == begins && l.finishes == finishes && l.fails == fails && l.claims == claims && l.aborts == aborts
  }

  /** The digest that must be stored: of the merged bytes when one was asked for or is always computed. */
  ghost function StoredChecksum(c: Config, u: Upload, bytes: Bytes): Option<string> {
    if c.alwaysComputeFullChecksum || Expected(u.ledger.asked, u.born).Some? then Some(c.sha(bytes)) else None
  }

  ghost predicate MeetsExpectation(c: Config, u: Upload, bytes: Bytes) {
    && NormalizeChecksum(u.ledger.asked).Success?
    && (Expected(u.ledger.asked, u.born).Some? ==> Expected(u.ledger.asked, u.born).value == c.sha(bytes))
  }

  /** A merge of this upload produced `m`, of the right size. */
  ghost predicate MergedAs(u: Upload, m: MergeRecord) {
    u.ledger.merges == [m] && |m.bytes| == u.born.totalSize
  }

  /** Completed means verified bytes. */
  ghost predicate VerifiedBytes(c: Config, u: Upload) {
    && |u.ledger.merges| == 1
    && var m := u.ledger.merges[0];
       && MergedAs(u, m) && MeetsExpectation(c, u, m.bytes)
       && u.row.finalFileName == Some(m.name)
       && u.row.checksum == StoredChecksum(c, u, m.bytes)
  }

  /** The checksum a failing job writes: initiate's when no merge succeeded, else the digest that was not the expected one. */
  ghost predicate FailedFor(c: Config, u: Upload, checksum: Option<string>) {
    if u.ledger.merges == [] then checksum == u.born.checksum
    else
      && |u.ledger.merges| == 1 && MergedAs(u, u.ledger.merges[0])
      && var sum := c.sha(u.ledger.merges[0].bytes);
         var expected := Expected(u.ledger.asked, u.born);
         checksum == Some(sum) && expected.Some? && expected.value != sum
  }

  ghost predicate StatusOk(c: Config, u: Upload) {
    var r, b, l := u.row, u.born, u.ledger;
    match r.status
    case Pending => Wins(l, 0, 0, 0, 0, 0) && u.stage.Unclaimed? && r == b
    case Completing => Wins(l, 1, 0, 0, 0, 0) && (u.stage.WonBy? || u.stage.QueuedAt? || u.stage.HeldBy? || u.stage.Spent?) && r == Leased(b)
    case Completed => Wins(l, 1, 1, 0, 0, 0) && (u.stage.HeldBy? || u.stage.Spent?) && VerifiedBytes(c, u)
    case Failed => Wins(l, 1, 0, 1, 0, 0) && (u.stage.HeldBy? || u.stage.Spent?) && FailedFor(c, u, r.checksum)
    case Expired =>
      && (Wins(l, 0, 0, 0, 1, 0) || Wins(l, 1, 0, 0, 1, 0))
      && (l.begins == 0 <==> u.stage.Unclaimed?) && !u.stage.AbortingBy?
      && r == b.(status := Expired, version := l.begins + 1)
    case Aborted => Wins(l, 0, 0, 0, 0, 1) && (u.stage.AbortingBy? || u.stage.Spent?) && r == b.(status := Aborted, version := 1)
  }

  ghost predicate WorkOk(u: Upload) {
    var l := u.ledger;
    && (u.stage.Unclaimed? || u.stage.WonBy? || u.stage.AbortingBy? ==> l.jobs == 0)
    && (u.stage.QueuedAt? || u.stage.HeldBy? ==> l.jobs == 1)
    && l.jobs <= l.begins && l.jobs <= 1
    && l.mergeTries <= l.jobs && |l.merges| <= l.mergeTries
    && (u.stage.QueuedAt? ==> l.mergeTries == 0)
  }

  ghost predicate EventsOk(u: Upload) {
    var l, status := u.ledger, u.row.status;
    && |l.events| <= 1
    && (l.events != [] ==> u.stage.Spent?)
    && (CompletedEvent in l.events ==> status == Status.Completed)
    && (FailedEvent in l.events ==> status == Failed || status == Expired)
    && (AbortedEvent in l.events ==> status == Aborted)
  }

  ghost predicate UploadOk(c: Config, u: Upload) {
    && BornOk(u.born) && AsAsked(c, u.born) && SameShape(u.row, u.born)
    && u.row.version == u.ledger.begins + u.ledger.finishes + u.ledger.fails + u.ledger.claims + u.ledger.aborts
    && StatusOk(c, u) && WorkOk(u) && EventsOk(u)
  }

  // ---- What holds of whoever works on an upload --------------------------------------------------------

  ghost predicate CallOk(r: Request, call: Call, u: Upload) {
    && (call.MustEnqueue? ==> u.stage == WonBy(r))
    && (call.MustDelete? || call.MustPublish? ==> u.stage == AbortingBy(r))
  }

  ghost predicate JobOk(n: Node, job: Job, u: Upload) {
    u.stage == QueuedAt(n) && u.ledger.asked == job.checksum
  }

  ghost predicate InProgress(u: Upload) { u.row.status == Completing || u.row.status == Expired }

  ghost predicate WorkerOk(c: Config, n: Node, w: Worker, u: Upload) {
    && u.stage == HeldBy(n) && u.ledger.asked == w.job.checksum
    && match w.phase
       case Taken => InProgress(u) && u.ledger.mergeTries == 0
       case HasRead(snap) => InProgress(u) && u.ledger.mergeTries == 0 && snap == Leased(u.born)
       case Verified(snap, expected) =>
         && InProgress(u) && u.ledger.mergeTries == 0 && snap == Leased(u.born)
         && NormalizeChecksum(w.job.checksum).Success? && expected == Expected(w.job.checksum, u.born)
       case HasMerged(snap, expected, m) =>
         && InProgress(u) && snap == Leased(u.born) && MergedAs(u, m)
         && NormalizeChecksum(w.job.checksum).Success? && expected == Expected(w.job.checksum, u.born)
         && m.hex == (if c.alwaysComputeFullChecksum || expected.Some? then c.sha(m.bytes) else "")
       case Finishing(snap, m, checksum, fingerprint) =>
         && InProgress(u) && MergedAs(u, m) && MeetsExpectation(c, u, m.bytes) && checksum == StoredChecksum(c, u, m.bytes)
         && (fingerprint.None? ==> u.born.fingerprint.None?)
       case Failing(snap, checksum) => InProgress(u) && FailedFor(c, u, checksum)
       case Publishing(event) =>
         match event
         case CompletedEvent => u.row.status == Status.Completed
         case FailedEvent => u.row.status == Failed || u.row.status == Expired
         case AbortedEvent => false
  }

  ghost predicate UploadsOk(c: Config, s: State) {
    forall id :: id in s.uploads ==> UploadOk(c, s.uploads[id])
  }

  ghost predicate CallsOk(s: State) {
    forall r :: r in s.calls ==> s.calls[r].id in s.uploads && CallOk(r, s.calls[r], s.uploads[s.calls[r].id])
  }

  ghost predicate QueuesOk(s: State) {
    && (forall n, k :: n in s.queues && 0 <= k < |s.queues[n]| ==>
          s.queues[n][k].id in s.uploads && JobOk(n, s.queues[n][k], s.uploads[s.queues[n][k].id]))
    && (forall n, j, k :: n in s.queues && 0 <= j < k < |s.queues[n]| ==> s.queues[n][j].id != s.queues[n][k].id)
  }

  ghost predicate WorkersOk(c: Config, s: State) {
    forall n :: n in s.workers ==> s.workers[n].job.id in s.uploads && WorkerOk(c, n, s.workers[n], s.uploads[s.workers[n].job.id])
  }

  ghost predicate Inv(c: Config, s: State) {
    UploadsOk(c, s) && CallsOk(s) && QueuesOk(s) && WorkersOk(c, s)
  }

  // ---- Steps of one upload -----------------------------------------------------------------------------

  lemma NewUploadOk(c: Config, now: int, args: InitiateArgs)
    requires ArgsOk(c, args)
    ensures var session := NewSession(c, now, args); UploadOk(c, Upload(session, session, NEW_LEDGER, Unclaimed))
  {
    hide IntCount;
    NormalizedIsDigest(args.checksum);
    IntCountIsPositive(args.totalSize, args.chunkSize);
  }

  lemma BeginOk(c: Config, u: Upload, r: Request)
    requires UploadOk(c, u) && u.row.status == Pending
    ensures u.stage.Unclaimed?
    ensures UploadOk(c, u.(row := BeginRow(u.row).value, stage := WonBy(r), ledger := u.ledger.(begins := u.ledger.begins + 1)))
  {
  }

  lemma AbortOk(c: Config, u: Upload, r: Request)
    requires UploadOk(c, u) && u.row.status == Pending
    ensures u.stage.Unclaimed?
    ensures UploadOk(c, u.(row := AbortRow(u.row).value, stage := AbortingBy(r), ledger := u.ledger.(aborts := u.ledger.aborts + 1)))
  {
  }

  lemma EnqueueOk(c: Config, u: Upload, r: Request, n: Node, checksum: Option<string>)
    requires UploadOk(c, u) && u.stage == WonBy(r)
    ensures UploadOk(c, u.(stage := QueuedAt(n), ledger := u.ledger.(jobs := u.ledger.jobs + 1, asked := checksum)))
  {
  }

  lemma SpentOk(c: Config, u: Upload)
    requires UploadOk(c, u) && !u.stage.Unclaimed?
    ensures UploadOk(c, u.(stage := Spent))
  {
  }

  lemma TakeOk(c: Config, u: Upload, n: Node)
    requires UploadOk(c, u) && u.stage == QueuedAt(n)
    ensures InProgress(u) && u.ledger.mergeTries == 0
    ensures UploadOk(c, u.(stage := HeldBy(n)))
  {
  }

  lemma ClaimOk(c: Config, u: Upload, now: int)
    requires UploadOk(c, u) && ClaimRow(u.row, now).Some?
    ensures UploadOk(c, u.(row := ClaimRow(u.row, now).value, ledger := u.ledger.(claims := u.ledger.claims + 1)))
  {
  }

  lemma AbortEventOk(c: Config, u: Upload, r: Request, events: seq<Event>)
    requires UploadOk(c, u) && u.stage == AbortingBy(r)
    requires events == u.ledger.events || events == u.ledger.events + [AbortedEvent]
    ensures UploadOk(c, u.(stage := Spent, ledger := u.ledger.(events := events)))
  {
  }

  lemma MergeSpecSize(c: Config, parts: Parts, snap: Session, computeHash: bool)
    requires snap.chunkSize > 0 && snap.totalChunks > 0
    requires MergeSpec(c, parts, snap, computeHash).Some?
    ensures var merged := MergeSpec(c, parts, snap, computeHash).value;
            |merged.bytes| == snap.totalSize && merged.hex == if computeHash then c.sha(merged.bytes) else ""
  {
    if !(computeHash && c.singlePassMergeAndHash) {
      JoinLength(parts, snap.totalChunks, snap.totalSize, snap.chunkSize, snap.totalChunks);
    }
  }

  /** The specification the protocol merges by is what the engines compute. */
  lemma MergeSpecIsWhatTheEnginesDo(c: Config, parts: Parts, snap: Session, computeHash: bool, r: Outcome)
    requires if computeHash && c.singlePassMergeAndHash
             then SinglePassOutcome(parts, snap.totalChunks, snap.totalSize, c.sha, r)
             else ParallelOutcome(parts, snap.totalChunks, snap.totalSize, snap.chunkSize, computeHash, c.sha, r)
    ensures MergeSpec(c, parts, snap, computeHash) == if r.Success? then Some(r.value) else None
  {
  }

  lemma TriedOk(c: Config, u: Upload, n: Node, merges: seq<MergeRecord>)
    requires UploadOk(c, u) && u.stage == HeldBy(n) && InProgress(u) && u.ledger.mergeTries == 0
    requires |merges| <= 1
    ensures u.ledger.merges == []
    ensures UploadOk(c, u.(ledger := u.ledger.(mergeTries := u.ledger.mergeTries + 1, merges := merges)))
  {
  }

  lemma CheckOk(c: Config, w: Worker, u: Upload, n: Node)
    requires ValidConfig(c) && w.phase.HasMerged? && WorkerOk(c, n, w, u) && BornOk(u.born)
    ensures !Mismatch(w.phase.expected, w.phase.m.hex) ==>
              && MeetsExpectation(c, u, w.phase.m.bytes)
              && (if w.phase.m.hex != "" then Some(w.phase.m.hex) else w.phase.expected) == StoredChecksum(c, u, w.phase.m.bytes)
    ensures Mismatch(w.phase.expected, w.phase.m.hex) ==> FailedFor(c, u, Some(w.phase.m.hex))
  {
    var m, expected := w.phase.m, w.phase.expected;
    assert Digest64(c.sha(m.bytes));
    NormalizedIsDigest(w.job.checksum);
    if expected.Some? {
      assert Digest64(expected.value);
      DigestsCompareExactly(m.hex, expected.value);
    }
  }

  lemma FinishOk(c: Config, be: Backend, w: Worker, u: Upload, n: Node, now: int)
    requires UploadOk(c, u) && WorkerOk(c, n, w, u) && w.phase.Finishing?
    requires FinishRow(be, u.row, w.phase.m.name, w.phase.checksum, w.phase.fingerprint, now).Some?
    ensures UploadOk(c, u.(row := FinishRow(be, u.row, w.phase.m.name, w.phase.checksum, w.phase.fingerprint, now).value,
                           ledger := u.ledger.(finishes := u.ledger.finishes + 1)))
  {
  }

  lemma FailOk(c: Config, be: Backend, u: Upload, n: Node, checksum: Option<string>)
    requires UploadOk(c, u) && u.stage == HeldBy(n) && FailRow(be, u.row, checksum).Some? && FailedFor(c, u, checksum)
    ensures UploadOk(c, u.(row := FailRow(be, u.row, checksum).value, ledger := u.ledger.(fails := u.ledger.fails + 1)))
  {
  }

  lemma PublishOk(c: Config, w: Worker, u: Upload, n: Node, lost: bool)
    requires UploadOk(c, u) && WorkerOk(c, n, w, u) && w.phase.Publishing?
    ensures var l := if lost then u.ledger else u.ledger.(events := u.ledger.events + [w.phase.event]);
            UploadOk(c, u.(ledger := l, stage := Spent))
  {
  }

  /** A claim by the cleanup loop disturbs no worker: it may finish the job and lose the last compare-and-set. */
  lemma ClaimDisturbsNoWorker(c: Config, u: Upload, now: int, n: Node, w: Worker)
    requires ClaimRow(u.row, now).Some?
    ensures WorkerOk(c, n, w, u) ==> WorkerOk(c, n, w, u.(row := ClaimRow(u.row, now).value, ledger := u.ledger.(claims := u.ledger.claims + 1)))
  {
  }
}
