/**
 The upload-session protocol as interleaved steps.  Any number of API nodes share one table of session rows, one
 part store and one directory of final objects; each node also has a session cache, a queue of complete jobs, one
 merge worker and one cleanup loop.  A step is what one of them does between two awaits: a repository call is one
 step, a storage call is one step, and between any two steps every other node may move.

 Beside its row each upload carries a ledger that no node reads: what has happened to it so far.  The ledger is what
 the theorems talk about.
 */
module Protocol {
  import opened Base
  import opened Checksums
  import opened Doubles
  import opened FinalNames
  import opened Merge
  import opened Repository
  import opened SessionCaching
  import opened Slots
  import opened Totals

  type Node = nat
  type Request = nat
  type Bytes = seq<Byte>

  /** The options the service reads, and the digest and address comparison it is built on. */
  datatype Config = Config(
    alwaysComputeFullChecksum: bool, singlePassMergeAndHash: bool, deduplicateByContent: bool,
    maxFileSizeBytes: nat, maxChunkSizeBytes: nat,
    maxTotalStoredBytes: nat, maxStoredBytesPerIp: nat, maxPendingSessionsPerIp: nat,
    pendingTtl: nat, cacheTtl: nat,
    sha: Bytes -> string, ipKey: string -> string)

  ghost predicate ValidConfig(c: Config) {
    forall b :: Digest64(c.sha(b))
  }

  datatype Job = Job(id: Id, checksum: Option<string>)

  datatype Event = CompletedEvent | FailedEvent | AbortedEvent

  /** One successful merge: the name it wrote, the bytes it wrote, the digest text it returned. */
  datatype MergeRecord = MergeRecord(name: string, bytes: Bytes, hex: string)

  /** Where the right to finish an upload is. */
  datatype Stage =
    | Unclaimed
    | WonBy(request: Request)
    | QueuedAt(node: Node)
    | HeldBy(node: Node)
    | AbortingBy(request: Request)
    | Spent

  /** What has happened to an upload: winning transitions, jobs, merges, published events. */
  datatype Ledger = Ledger(
    begins: nat, finishes: nat, fails: nat, claims: nat, aborts: nat,
    jobs: nat, asked: Option<string>, mergeTries: nat, merges: seq<MergeRecord>, events: seq<Event>)

  const NEW_LEDGER := Ledger(0, 0, 0, 0, 0, 0, None, 0, [], [])

  datatype Upload = Upload(row: Session, born: Session, ledger: Ledger, stage: Stage)

  /** A service call between two of its awaits. */
  datatype Call =
    | WillBegin(node: Node, id: Id, checksum: Option<string>)
    | MustEnqueue(node: Node, id: Id, checksum: Option<string>)
    | WillAbort(node: Node, id: Id)
    | MustDelete(node: Node, id: Id)
    | MustPublish(node: Node, id: Id)

  /** How far ProcessCompleteJobAsync has got. */
  datatype Phase =
    | Taken
    | HasRead(snap: Session)
    | Verified(snap: Session, expected: Option<string>)
    | HasMerged(snap: Session, expected: Option<string>, m: MergeRecord)
    | Finishing(snap: Session, m: MergeRecord, checksum: Option<string>, fingerprint: Option<string>)
    | Failing(snap: Session, checksum: Option<string>)
    | Publishing(event: Event)

  datatype Worker = Worker(job: Job, phase: Phase)

  /** One cleanup cycle: what it listed, what it still has to claim, what it is deleting, what it has dealt with. */
  datatype Cleaner = Cleaner(listed: seq<Id>, next: nat, deleting: Option<Id>, settled: set<Id>, skipped: set<Id>)

  /** An object in the final directory and the upload whose merge wrote it. */
  datatype Final = Final(bytes: Bytes, writer: Id)

  datatype State = State(
    uploads: map<Id, Upload>,
    clock: int,
    calls: map<Request, Call>,
    queues: map<Node, seq<Job>>,
    workers: map<Node, Worker>,
    cleaners: map<Node, Cleaner>,
    caches: map<Node, Entries>,
    admitted: set<(Id, nat)>,
    parts: map<Id, Parts>,
    finals: map<string, Final>)

  ghost predicate Init(s: State) {
    && s.uploads == map[] && s.calls == map[] && s.queues == map[] && s.workers == map[] && s.cleaners == map[]
    && s.caches == map[] && s.admitted == {} && s.parts == map[] && s.finals == map[]
  }

  // ---- Small helpers -----------------------------------------------------------------------------------

  function CacheOf(s: State, n: Node): Entries { if n in s.caches then s.caches[n] else map[] }

  function QueueOf(s: State, n: Node): seq<Job> { if n in s.queues then s.queues[n] else [] }

  function PartsOf(s: State, id: Id): Parts { if id in s.parts then s.parts[id] else map[] }

  function Remember(c: Config, s: State, n: Node, id: Id, session: Session): map<Node, Entries> {
    s.caches[n := Put(CacheOf(s, n), id, session, s.clock, c.cacheTtl)]
  }

  function Forget(s: State, n: Node, id: Id): map<Node, Entries> {
    s.caches[n := CacheOf(s, n) - {id}]
  }

  function SetUpload(s: State, id: Id, u: Upload): State { s.(uploads := s.uploads[id := u]) }

  /** Deletes an upload's part folder, if it is there. */
  function DeleteParts(s: State, id: Id): State { s.(parts := s.parts - {id}) }

  // ---- Initiate ----------------------------------------------------------------------------------------

  datatype InitiateArgs = InitiateArgs(
    fileName: string, totalSize: nat, chunkSize: nat, checksum: Option<string>, fingerprint: Option<string>, clientIp: Option<string>)

  ghost predicate MatchesContent(u: Upload, hash: string, size: nat) {
    && u.row.status == Status.Completed && u.row.totalSize == size
    && u.row.checksum == Some(hash) && u.row.finalFileName.Some?
  }

  ghost predicate MatchesFingerprint(u: Upload, fp: string, size: nat) {
    && u.row.status == Status.Completed && u.row.totalSize == size
    && u.row.fingerprint == Some(fp) && u.row.finalFileName.Some?
  }

  /** The newest match comes first; rows completed at the same moment come in any order. */
  ghost predicate Newest(s: State, hit: Id, matches: Upload -> bool) {
    && hit in s.uploads && matches(s.uploads[hit])
    && forall o :: o in s.uploads && matches(s.uploads[o]) ==> CompletedAt(s.uploads[o]) <= CompletedAt(s.uploads[hit])
  }

  function CompletedAt(u: Upload): int { if u.row.completedAt.Some? then u.row.completedAt.value else 0 }

  ghost predicate NoMatch(s: State, matches: Upload -> bool) {
    forall o :: o in s.uploads ==> !matches(s.uploads[o])
  }

  /** What the dedupe lookup may return for a request with normalized checksum `sum`. */
  ghost predicate LookupResult(c: Config, s: State, args: InitiateArgs, sum: Option<string>, hit: Option<Id>) {
    if !c.deduplicateByContent then hit.None?
    else if sum.Some? && !NoMatch(s, u => MatchesContent(u, sum.value, args.totalSize)) then
      hit.Some? && Newest(s, hit.value, u => MatchesContent(u, sum.value, args.totalSize))
    else if args.fingerprint.Some? && !NoMatch(s, u => MatchesFingerprint(u, args.fingerprint.value, args.totalSize)) then
      hit.Some? && Newest(s, hit.value, u => MatchesFingerprint(u, args.fingerprint.value, args.totalSize))
    else hit.None?
  }

  /** FinalObjectExistsAsync with the requested size. */
  ghost predicate StillThere(s: State, hit: Id, size: nat) {
    && hit in s.uploads && s.uploads[hit].row.finalFileName.Some?
    && s.uploads[hit].row.finalFileName.value in s.finals
    && |s.finals[s.uploads[hit].row.finalFileName.value].bytes| == size
  }

  /** Everyone when `who` is None, otherwise the sessions of one client address. */
  ghost predicate Counts(c: Config, who: Option<string>, u: Upload) {
    who.None? || (u.row.clientIp.Some? && c.ipKey(u.row.clientIp.value) == who.value)
  }

  ghost function CompletedBytes(c: Config, who: Option<string>): Upload -> nat {
    u => if Counts(c, who, u) && u.row.status == Status.Completed then u.row.totalSize else 0
  }

  ghost function ActiveBytes(c: Config, who: Option<string>, now: int): Upload -> nat {
    u => if Counts(c, who, u) && u.row.Active() && u.row.expiresAt > now then u.row.totalSize else 0
  }

  ghost function PendingCount(c: Config, who: Option<string>, now: int): Upload -> nat {
    u => if Counts(c, who, u) && u.row.status == Pending && u.row.expiresAt > now then 1 else 0
  }

  /** The bytes EnforceQuotaAsync counts: SumCompletedBytes plus SumActivePendingBytes. */
  ghost function Used(c: Config, s: State, who: Option<string>): nat {
    Total(s.uploads, CompletedBytes(c, who)) + Total(s.uploads, ActiveBytes(c, who, s.clock))
  }

  ghost predicate WithinLimits(c: Config, s: State, args: InitiateArgs) {
    && (c.maxTotalStoredBytes > 0 ==> Used(c, s, None) + args.totalSize <= c.maxTotalStoredBytes)
    && (args.clientIp.Some? && Trim(args.clientIp.value) != "" ==>
          var who := Some(c.ipKey(args.clientIp.value));
          && (c.maxPendingSessionsPerIp > 0 ==> Total(s.uploads, PendingCount(c, who, s.clock)) < c.maxPendingSessionsPerIp)
          && (c.maxStoredBytesPerIp > 0 ==> Used(c, s, who) + args.totalSize <= c.maxStoredBytesPerIp))
  }

  ghost predicate ArgsOk(c: Config, args: InitiateArgs) {
    && Trim(args.fileName) != "" && args.totalSize > 0 && args.chunkSize > 0
    && (c.maxFileSizeBytes > 0 ==> args.totalSize <= c.maxFileSizeBytes)
    && (c.maxChunkSizeBytes > 0 ==> args.chunkSize <= c.maxChunkSizeBytes)
    && NormalizeChecksum(args.checksum).Success?
  }

  function NewSession(c: Config, now: int, args: InitiateArgs): Session
    requires args.chunkSize > 0 && NormalizeChecksum(args.checksum).Success?
  {
    var n := IntCount(args.totalSize, args.chunkSize);
    Session(args.fileName, None, args.totalSize, args.chunkSize, n, Pending, 0, now, None,
            now + c.pendingTtl, NormalizeChecksum(args.checksum).value, args.fingerprint, args.clientIp)
  }

  // ---- Merging -----------------------------------------------------------------------------------------

  /** What MergeAsync returns on the parts as they are; None stands for its exception. */
  ghost function MergeSpec(c: Config, parts: Parts, snap: Session, computeHash: bool): Option<Merged> {
    var n, total, chunk := snap.totalChunks, snap.totalSize, snap.chunkSize;
    if computeHash && c.singlePassMergeAndHash then
      if AllPresent(parts, n) && |JoinParts(parts, n)| == total
      then Some(Merged(JoinParts(parts, n), c.sha(JoinParts(parts, n)))) else None
    else
      if SlotsFilled(parts, n, total, chunk) && AllPresent(parts, n)
      then Some(Merged(JoinParts(parts, n), if computeHash then c.sha(JoinParts(parts, n)) else "")) else None
  }

  /** The checksum a job must meet: the one given at complete, or else the one given at initiate. */
  function Expected(asked: Option<string>, born: Session): Option<string> {
    match NormalizeChecksum(asked)
    case Success(Some(sum)) => Some(sum)
    case _ => born.checksum
  }

  // ---- Steps -------------------------------------------------------------------------------------------

  /** Time, requests that only read or add, and chunk traffic. */
  datatype AmbientStep =
    | Tick(now: int)
    | Initiate(n: Node, id: Id, args: InitiateArgs, hit: Option<Id>)
    | Refresh(n: Node, id: Id)
    | Evict(n: Node, id: Id)
    | AdmitChunk(n: Node, id: Id, index: nat)
    | SavePart(id: Id, index: nat, data: Bytes)
    | DropPart(id: Id, index: nat)

  /** CompleteAsync and AbortAsync, await by await. */
  datatype CallStep =
    | CompleteCall(n: Node, id: Id, checksum: Option<string>)
    | TryBegin
    | Enqueue
    | AbortCall(n: Node, id: Id)
    | TryAbort
    | DeleteAborted
    | PublishAborted(lost: bool)
    | CallDies

  /** CompleteBackgroundService and ProcessCompleteJobAsync, await by await. */
  datatype WorkStep =
    | TakeJob
    | ReadRow
    | VerifyParts
    | MergeParts(raced: Option<Bytes>)
    | MergeThrows(junk: Option<Bytes>)
    | CheckDigest(fingerprint: Option<string>, deleteThrows: bool)
    | TryFinish
    | TryFail
    | Publish(lost: bool)
    | JobDies

  /** OrphanCleanupService, await by await. */
  datatype CleanStep =
    | ListExpired(listed: seq<Id>)
    | TryClaim
    | SkipClaim
    | DeleteClaimed(throws: bool)
    | EndCycle

  datatype Step =
    | Ambient(ambient: AmbientStep)
    | Calling(r: Request, calling: CallStep)
    | Working(n: Node, working: WorkStep)
    | Cleaning(n: Node, cleaning: CleanStep)

  /** The cached session a node would serve for chunk admission: Pending and not expired. */
  ghost predicate ServedFromCache(s: State, n: Node, id: Id) {
    var found := Fresh(CacheOf(s, n), id, s.clock);
    found.Some? && found.value.status == Pending && !found.value.IsExpired(s.clock)
  }

  /** The session EnsureCanAcceptChunkAsync looks at. */
  ghost function HotSession(s: State, n: Node, id: Id): Session
    requires id in s.uploads
  {
    if ServedFromCache(s, n, id) then Fresh(CacheOf(s, n), id, s.clock).value else s.uploads[id].row
  }

  ghost predicate Admits(session: Session, now: int, index: nat) {
    session.status == Pending && !session.IsExpired(now) && index < session.totalChunks
  }

  /** Node `n`'s worker holds a job. */
  predicate Busy(s: State, n: Node) { n in s.workers && s.workers[n].job.id in s.uploads }

  ghost predicate AmbientEnabled(c: Config, s: State, step: AmbientStep) {
    match step
    case Tick(now) => s.clock <= now
    case Initiate(n, id, args, hit) =>
      && id !in s.uploads && GuidText(id) && ArgsOk(c, args)
      && LookupResult(c, s, args, NormalizeChecksum(args.checksum).value, hit)
      && (hit.Some? ==> !StillThere(s, hit.value, args.totalSize))
      && WithinLimits(c, s, args)
    case Refresh(n, id) => id in s.uploads
    case Evict(n, id) => true
    case AdmitChunk(n, id, index) => id in s.uploads && Admits(HotSession(s, n, id), s.clock, index)
    case SavePart(id, index, data) => id in s.uploads && (id, index) in s.admitted
    case DropPart(id, index) => id in s.uploads && (id, index) in s.admitted
  }

  ghost predicate CallEnabled(s: State, r: Request, step: CallStep) {
    if step.CompleteCall? then
      r !in s.calls && step.id in s.uploads && s.uploads[step.id].row.status == Pending && !s.uploads[step.id].row.IsExpired(s.clock)
    else if step.AbortCall? then
      r !in s.calls && step.id in s.uploads && s.uploads[step.id].row.status == Pending
    else
      && r in s.calls && s.calls[r].id in s.uploads
      && match step
         case TryBegin => s.calls[r].WillBegin?
         case Enqueue => s.calls[r].MustEnqueue?
         case TryAbort => s.calls[r].WillAbort?
         case DeleteAborted => s.calls[r].MustDelete?
         case PublishAborted(_) => s.calls[r].MustPublish?
         case _ => true
  }

  ghost predicate WorkEnabled(c: Config, s: State, n: Node, step: WorkStep) {
    if step.TakeJob? then n !in s.workers && QueueOf(s, n) != [] && QueueOf(s, n)[0].id in s.uploads
    else
      && Busy(s, n)
      && var phase := s.workers[n].phase;
         match step
         case ReadRow => phase.Taken?
         case VerifyParts => phase.HasRead?
         case MergeParts(raced) => phase.Verified? && MergeOf(c, s, n, raced).Some?
         case MergeThrows(_) => phase.Verified?
         case CheckDigest(_, _) => phase.HasMerged?
         case TryFinish => phase.Finishing?
         case TryFail => phase.Failing?
         case Publish(_) => phase.Publishing?
         case _ => true
  }

  ghost predicate CleanEnabled(s: State, n: Node, step: CleanStep) {
    if step.ListExpired? then
      n !in s.cleaners && forall id :: id in step.listed <==> id in s.uploads && s.uploads[id].row.IsExpired(s.clock)
    else
      && n in s.cleaners
      && var k := s.cleaners[n];
         match step
         case TryClaim => k.deleting.None? && k.next < |k.listed| && k.listed[k.next] in s.uploads
         case SkipClaim => k.deleting.None? && k.next < |k.listed|
         case DeleteClaimed(_) => k.deleting.Some? && k.deleting.value in s.uploads
         case _ => k.deleting.None? && k.next >= |k.listed|
  }

  ghost predicate Enabled(c: Config, s: State, step: Step) {
    match step
    case Ambient(ambient) => AmbientEnabled(c, s, ambient)
    case Calling(r, calling) => CallEnabled(s, r, calling)
    case Working(n, working) => WorkEnabled(c, s, n, working)
    case Cleaning(n, cleaning) => CleanEnabled(s, n, cleaning)
  }

  /**
   What node `n`'s merge returns: on the parts as they are, or, when they change while it reads them, any bytes of the
   right number with their digest. Both engines check the number, and hash what they wrote.
   */
  ghost function MergeOf(c: Config, s: State, n: Node, raced: Option<Bytes>): Option<Merged>
    requires Busy(s, n) && s.workers[n].phase.Verified?
  {
    var w := s.workers[n];
    var computeHash := c.alwaysComputeFullChecksum || w.phase.expected.Some?;
    if raced.None? then MergeSpec(c, PartsOf(s, w.job.id), w.phase.snap, computeHash)
    else if |raced.value| != w.phase.snap.totalSize then None
    else Some(Merged(raced.value, if computeHash then c.sha(raced.value) else ""))
  }

  /** A call that ends or dies gives up whatever right it held. */
  function EndCall(s: State, r: Request): State
    requires r in s.calls && s.calls[r].id in s.uploads
  {
    var call := s.calls[r];
    var u := s.uploads[call.id];
    var held := call.MustEnqueue? || call.MustDelete? || call.MustPublish?;
    s.(calls := s.calls - {r}, uploads := s.uploads[call.id := if held then u.(stage := Spent) else u])
  }

  /** A job that ends or dies is over for good. */
  function EndJob(s: State, n: Node): State
    requires n in s.workers && s.workers[n].job.id in s.uploads
  {
    var id := s.workers[n].job.id;
    s.(workers := s.workers - {n}, uploads := s.uploads[id := s.uploads[id].(stage := Spent)])
  }

  function SetPhase(s: State, n: Node, phase: Phase): State
    requires n in s.workers
  {
    s.(workers := s.workers[n := s.workers[n].(phase := phase)])
  }

  ghost function DoInitiate(c: Config, s: State, n: Node, id: Id, args: InitiateArgs): State
    requires args.chunkSize > 0 && NormalizeChecksum(args.checksum).Success?
  {
    var session := NewSession(c, s.clock, args);
    s.(uploads := s.uploads[id := Upload(session, session, NEW_LEDGER, Unclaimed)],
       parts := s.parts[id := map[]],
       caches := Remember(c, s, n, id, session))
  }

  ghost function DoAdmit(c: Config, s: State, n: Node, id: Id, index: nat): State
    requires id in s.uploads
  {
    var seen := s.(admitted := s.admitted + {(id, index)});
    if ServedFromCache(s, n, id) then seen else seen.(caches := Remember(c, s, n, id, s.uploads[id].row))
  }

  function DoBegin(s: State, r: Request): State
    requires r in s.calls && s.calls[r].WillBegin? && s.calls[r].id in s.uploads
  {
    var WillBegin(n, id, checksum) := s.calls[r];
    var u := s.uploads[id];
    match BeginRow(u.row)
    case None => s.(calls := s.calls - {r})
    case Some(row) =>
      SetUpload(s, id, u.(row := row, stage := WonBy(r), ledger := u.ledger.(begins := u.ledger.begins + 1)))
      .(calls := s.calls[r := MustEnqueue(n, id, checksum)])
  }

  function DoEnqueue(s: State, r: Request): State
    requires r in s.calls && s.calls[r].MustEnqueue? && s.calls[r].id in s.uploads
  {
    var MustEnqueue(n, id, checksum) := s.calls[r];
    var u := s.uploads[id];
    SetUpload(s, id, u.(stage := QueuedAt(n), ledger := u.ledger.(jobs := u.ledger.jobs + 1, asked := checksum)))
    .(queues := s.queues[n := QueueOf(s, n) + [Job(id, checksum)]], calls := s.calls - {r})
  }

  function DoAbort(s: State, r: Request): State
    requires r in s.calls && s.calls[r].WillAbort? && s.calls[r].id in s.uploads
  {
    var WillAbort(n, id) := s.calls[r];
    var u := s.uploads[id];
    match AbortRow(u.row)
    case None => s.(calls := s.calls - {r})
    case Some(row) =>
      SetUpload(s, id, u.(row := row, stage := AbortingBy(r), ledger := u.ledger.(aborts := u.ledger.aborts + 1)))
      .(calls := s.calls[r := MustDelete(n, id)])
  }

  function DoAbortPublish(s: State, r: Request, lost: bool): State
    requires r in s.calls && s.calls[r].MustPublish? && s.calls[r].id in s.uploads
  {
    var id := s.calls[r].id;
    var u := s.uploads[id];
    var events := if lost then u.ledger.events else u.ledger.events + [AbortedEvent];
    s.(calls := s.calls - {r}, uploads := s.uploads[id := u.(stage := Spent, ledger := u.ledger.(events := events))])
  }

  function DoTake(s: State, n: Node): State
    requires QueueOf(s, n) != [] && QueueOf(s, n)[0].id in s.uploads
  {
    var q := QueueOf(s, n);
    SetUpload(s, q[0].id, s.uploads[q[0].id].(stage := HeldBy(n)))
    .(queues := s.queues[n := q[1..]], workers := s.workers[n := Worker(q[0], Taken)])
  }

  function DoRead(s: State, n: Node): State
    requires n in s.workers && s.workers[n].job.id in s.uploads
  {
    var row := s.uploads[s.workers[n].job.id].row;
    if row.status == Completing then SetPhase(s, n, HasRead(row)) else EndJob(s, n)
  }

  ghost function DoVerify(s: State, n: Node): State
    requires n in s.workers && s.workers[n].job.id in s.uploads && s.workers[n].phase.HasRead?
  {
    var Worker(job, HasRead(snap)) := s.workers[n];
    var parts := PartsOf(s, job.id);
    if !AllPresent(parts, snap.totalChunks) || BytesOnDisk(parts, snap.totalChunks) != snap.totalSize then
      SetPhase(s, n, Failing(snap, snap.checksum))
    else match NormalizeChecksum(job.checksum)
      case Failure(_) => EndJob(s, n)
      case Success(sum) => SetPhase(s, n, Verified(snap, if sum.Some? then sum else snap.checksum))
  }

  /** The merge writes its object, deletes the part folder and returns. */
  ghost function DoMerge(c: Config, s: State, n: Node, raced: Option<Bytes>): State
    requires Busy(s, n) && s.workers[n].phase.Verified? && MergeOf(c, s, n, raced).Some?
  {
    var Worker(job, Verified(snap, expected)) := s.workers[n];
    var merged := MergeOf(c, s, n, raced).value;
    var name := ResolveFinal(s.finals.Keys, job.id, snap.fileName);
    var m := MergeRecord(name, merged.bytes, merged.hex);
    var u := s.uploads[job.id];
    var l := u.ledger.(mergeTries := u.ledger.mergeTries + 1, merges := u.ledger.merges + [m]);
    var wrote := SetUpload(s, job.id, u.(ledger := l)).(finals := s.finals[name := Final(merged.bytes, job.id)]);
    SetPhase(DeleteParts(wrote, job.id), n, HasMerged(snap, expected, m))
  }

  /** A merge that throws may leave a half-written object under the name it resolved. */
  ghost function DoMergeThrows(s: State, n: Node, junk: Option<Bytes>): State
    requires Busy(s, n) && s.workers[n].phase.Verified?
  {
    var Worker(job, Verified(snap, expected)) := s.workers[n];
    var name := ResolveFinal(s.finals.Keys, job.id, snap.fileName);
    var u := s.uploads[job.id];
    var tried := SetUpload(s, job.id, u.(ledger := u.ledger.(mergeTries := u.ledger.mergeTries + 1)));
    SetPhase(if junk.Some? then tried.(finals := s.finals[name := Final(junk.value, job.id)]) else tried,
             n, Failing(snap, snap.checksum))
  }

  predicate Mismatch(expected: Option<string>, hex: string) {
    expected.Some? && hex != "" && !EqualsIgnoreCase(hex, expected.value)
  }

  /** Compares digests; on a match computes the fingerprint, keeping the client's when that throws. */
  ghost function DoCheck(s: State, n: Node, fingerprint: Option<string>, deleteThrows: bool): State
    requires Busy(s, n) && s.workers[n].phase.HasMerged?
  {
    var Worker(job, HasMerged(snap, expected, m)) := s.workers[n];
    if Mismatch(expected, m.hex) then
      SetPhase(if deleteThrows then s else s.(finals := s.finals - {m.name}), n, Failing(snap, Some(m.hex)))
    else
      SetPhase(s, n, Finishing(snap, m, if m.hex != "" then Some(m.hex) else expected,
                               if fingerprint.Some? then fingerprint else snap.fingerprint))
  }

  ghost function DoFinish(be: Backend, s: State, n: Node): State
    requires Busy(s, n) && s.workers[n].phase.Finishing?
  {
    var Worker(job, Finishing(snap, m, checksum, fingerprint)) := s.workers[n];
    var u := s.uploads[job.id];
    match FinishRow(be, u.row, m.name, checksum, fingerprint, s.clock)
    case None => EndJob(s, n)
    case Some(row) =>
      SetPhase(SetUpload(s, job.id, u.(row := row, ledger := u.ledger.(finishes := u.ledger.finishes + 1))),
               n, Publishing(CompletedEvent))
      .(caches := Forget(s, n, job.id))
  }

  /** The result of the failing compare-and-set is not looked at: the event follows either way. */
  ghost function DoFail(be: Backend, s: State, n: Node): State
    requires Busy(s, n) && s.workers[n].phase.Failing?
  {
    var Worker(job, Failing(snap, checksum)) := s.workers[n];
    var u := s.uploads[job.id];
    var u' := match FailRow(be, u.row, checksum)
              case None => u
              case Some(row) => u.(row := row, ledger := u.ledger.(fails := u.ledger.fails + 1));
    SetPhase(SetUpload(s, job.id, u'), n, Publishing(FailedEvent)).(caches := Forget(s, n, job.id))
  }

  ghost function DoPublish(s: State, n: Node, lost: bool): State
    requires Busy(s, n) && s.workers[n].phase.Publishing?
  {
    var Worker(job, Publishing(event)) := s.workers[n];
    var u := s.uploads[job.id];
    var l := if lost then u.ledger else u.ledger.(events := u.ledger.events + [event]);
    EndJob(SetUpload(s, job.id, u.(ledger := l)), n)
  }

  function DoClaim(s: State, n: Node): State
    requires n in s.cleaners && s.cleaners[n].next < |s.cleaners[n].listed|
    requires s.cleaners[n].listed[s.cleaners[n].next] in s.uploads
  {
    var k := s.cleaners[n];
    var id := k.listed[k.next];
    var u := s.uploads[id];
    match ClaimRow(u.row, s.clock)
    case None => s.(cleaners := s.cleaners[n := k.(next := k.next + 1, settled := k.settled + {id})])
    case Some(row) =>
      SetUpload(s, id, u.(row := row, ledger := u.ledger.(claims := u.ledger.claims + 1)))
      .(cleaners := s.cleaners[n := k.(next := k.next + 1, deleting := Some(id))])
  }

  function DoCleanDelete(s: State, n: Node, throws: bool): State
    requires n in s.cleaners && s.cleaners[n].deleting.Some? && s.cleaners[n].deleting.value in s.uploads
  {
    var k := s.cleaners[n];
    var id := k.deleting.value;
    (if throws then s else DeleteParts(s, id))
    .(cleaners := s.cleaners[n := k.(deleting := None, settled := k.settled + {id})])
  }

  ghost function ApplyAmbient(c: Config, s: State, step: AmbientStep): State
    requires AmbientEnabled(c, s, step)
  {
    match step
    case Tick(now) => s.(clock := now)
    case Initiate(n, id, args, _) => DoInitiate(c, s, n, id, args)
    case Refresh(n, id) => s.(caches := Remember(c, s, n, id, s.uploads[id].row))
    case Evict(n, id) => s.(caches := Forget(s, n, id))
    case AdmitChunk(n, id, index) => DoAdmit(c, s, n, id, index)
    case SavePart(id, index, data) => s.(parts := s.parts[id := PartsOf(s, id)[index := data]])
    case DropPart(id, index) => s.(parts := s.parts[id := PartsOf(s, id) - {index}])
  }

  ghost function ApplyCall(s: State, r: Request, step: CallStep): State
    requires CallEnabled(s, r, step)
  {
    match step
    case CompleteCall(n, id, checksum) => s.(caches := Forget(s, n, id), calls := s.calls[r := WillBegin(n, id, checksum)])
    case TryBegin => DoBegin(s, r)
    case Enqueue => DoEnqueue(s, r)
    case AbortCall(n, id) => s.(caches := Forget(s, n, id), calls := s.calls[r := WillAbort(n, id)])
    case TryAbort => DoAbort(s, r)
    case DeleteAborted =>
      var MustDelete(n, id) := s.calls[r];
      DeleteParts(s, id).(calls := s.calls[r := MustPublish(n, id)], caches := Forget(s, n, id))
    case PublishAborted(lost) => DoAbortPublish(s, r, lost)
    case CallDies => EndCall(s, r)
  }

  ghost function ApplyWork(c: Config, be: Backend, s: State, n: Node, step: WorkStep): State
    requires WorkEnabled(c, s, n, step)
  {
    match step
    case TakeJob => DoTake(s, n)
    case ReadRow => DoRead(s, n)
    case VerifyParts => DoVerify(s, n)
    case MergeParts(raced) => DoMerge(c, s, n, raced)
    case MergeThrows(junk) => DoMergeThrows(s, n, junk)
    case CheckDigest(fingerprint, deleteThrows) => DoCheck(s, n, fingerprint, deleteThrows)
    case TryFinish => DoFinish(be, s, n)
    case TryFail => DoFail(be, s, n)
    case Publish(lost) => DoPublish(s, n, lost)
    case JobDies => EndJob(s, n)
  }

  ghost function ApplyClean(s: State, n: Node, step: CleanStep): State
    requires CleanEnabled(s, n, step)
  {
    match step
    case ListExpired(listed) => s.(cleaners := s.cleaners[n := Cleaner(listed, 0, None, {}, {})])
    case TryClaim => DoClaim(s, n)
    case SkipClaim =>
      var k := s.cleaners[n];
      s.(cleaners := s.cleaners[n := k.(next := k.next + 1, skipped := k.skipped + {k.listed[k.next]})])
    case DeleteClaimed(throws) => DoCleanDelete(s, n, throws)
    case EndCycle => s.(cleaners := s.cleaners - {n})
  }

  ghost function Apply(c: Config, be: Backend, s: State, step: Step): State
    requires Enabled(c, s, step)
  {
    match step
    case Ambient(ambient) => ApplyAmbient(c, s, ambient)
    case Calling(r, calling) => ApplyCall(s, r, calling)
    case Working(n, working) => ApplyWork(c, be, s, n, working)
    case Cleaning(n, cleaning) => ApplyClean(s, n, cleaning)
  }

  /** A run: states and the steps between them, from an initial state. */
  ghost predicate IsRun(c: Config, be: Backend, states: seq<State>, steps: seq<Step>) {
    && |states| == |steps| + 1 && Init(states[0])
    && forall k :: 0 <= k < |steps| ==> Enabled(c, states[k], steps[k]) && states[k + 1] == Apply(c, be, states[k], steps[k])
  }
}
