/**
 What the protocol can reach: from every reachable state and at every idle node, every file that initiate admits can be
 uploaded, whatever its content, its chunk size and the other uploads around it.
 */
module Reach {
  import opened Base
  import opened Checksums
  import opened Doubles
  import opened EndToEnd
  import opened Jobs
  import opened Leases
  import opened Protocol
  import opened Repository

  ghost predicate Reachable(c: Config, be: Backend, s: State) {
    exists states, steps :: IsRun(c, be, states, steps) && states[|steps|] == s
  }

  /** Some run passes through `from` and ends in `s`. */
  ghost predicate Reaches(c: Config, be: Backend, from: State, s: State) {
    exists states, steps, j: nat :: IsRun(c, be, states, steps) && j <= |steps| && states[j] == from && states[|steps|] == s
  }

  lemma ReachesItself(c: Config, be: Backend, s: State)
    requires Reachable(c, be, s)
    ensures Reaches(c, be, s, s)
  {
    hide Enabled, Apply;
    var states, steps :| IsRun(c, be, states, steps) && states[|steps|] == s;
    assert states[|steps|] == s;
  }

  lemma ReachedIsReachable(c: Config, be: Backend, from: State, s: State)
    requires Reaches(c, be, from, s)
    ensures Reachable(c, be, s)
  {
    hide Enabled, Apply;
  }

  const EMPTY := State(map[], 0, map[], map[], map[], map[], map[], {}, map[], map[])

  lemma EmptyIsReachable(c: Config, be: Backend)
    ensures Reachable(c, be, EMPTY)
  {
    hide Enabled, Apply;
    assert IsRun(c, be, [EMPTY], []);
  }

  lemma ReachStep(c: Config, be: Backend, from: State, s: State, step: Step)
    requires Reaches(c, be, from, s) && Enabled(c, s, step)
    ensures Reaches(c, be, from, Apply(c, be, s, step))
  {
    hide Enabled, Apply;
    var states, steps, j: nat :| IsRun(c, be, states, steps) && j <= |steps| && states[j] == from && states[|steps|] == s;
    var states', steps' := states + [Apply(c, be, s, step)], steps + [step];
    forall k | 0 <= k < |steps'|
      ensures Enabled(c, states'[k], steps'[k]) && states'[k + 1] == Apply(c, be, states'[k], steps'[k])
    {
      if k < |steps| {
        assert Enabled(c, states[k], steps[k]);
      }
    }
    assert IsRun(c, be, states', steps') && j <= |steps'| && states'[j] == from && states'[|steps'|] == Apply(c, be, s, step);
  }

  lemma {:induction false} ReachDrive(c: Config, be: Backend, from: State, s: State, n: Node, fp: Option<string>)
    requires Reaches(c, be, from, s)
    ensures Reaches(c, be, from, Drive(c, be, s, n, fp))
    decreases Left(s, n)
  {
    hide Reaches, Left, ApplyWork, WorkEnabled;
    if Busy(s, n) {
      var step := NextStep(c, s, n, fp);
      JobsEnd(c, be, s, n, step);
      ReachStep(c, be, from, s, Working(n, step));
      ReachDrive(c, be, from, ApplyWork(c, be, s, n, step), n, fp);
    }
  }

  // ---- Where an upload is served -----------------------------------------------------------------------

  /** The node that serves an upload, and the number of its complete request. */
  datatype Seat = Seat(node: Node, request: Request)

  /** The node has nothing to do and the request number is free. */
  ghost predicate Idle(at: Seat, s: State) { QueueOf(s, at.node) == [] && at.node !in s.workers && at.request !in s.calls }

  /** Time, final objects and cleanup cycles are as in `base`. */
  ghost predicate Calm(base: State, s: State) { s.clock == base.clock && s.finals == base.finals && s.cleaners == base.cleaners }

  /** As `base`, but for the upload `id`, which is now `u`. */
  ghost predicate Only(base: State, s: State, id: Id, u: Upload) {
    s.uploads == base.uploads[id := u] && Calm(base, s) && s.workers == base.workers
  }

  function Newborn(row: Session): Upload { Upload(row, row, NEW_LEDGER, Unclaimed) }

  // ---- Chunks ------------------------------------------------------------------------------------------

  /** The upload `id` is Pending as it was born, with the first `k` slices of the file stored. */
  ghost predicate Collecting(at: Seat, base: State, s: State, id: Id, row: Session, file: Bytes, chunk: nat, n: nat, k: nat)
  {
    && Only(base, s, id, Newborn(row)) && s.calls == base.calls && s.queues == base.queues
    && (id in CacheOf(s, at.node) ==> CacheOf(s, at.node)[id].session == row)
    && forall i :: 0 <= i < k ==> i in PartsOf(s, id) && PartsOf(s, id)[i] == Slice(file, chunk, i)
  }

  predicate Fits(row: Session, now: int, total: nat, chunk: nat, n: nat) {
    && row.status == Pending && row.expiresAt > now && row.totalSize == total && row.chunkSize == chunk && row.totalChunks == n
    && row.version == 0
  }

  lemma AdmitOne(at: Seat, c: Config, be: Backend, from: State, base: State, s: State, id: Id, row: Session, file: Bytes, chunk: nat, n: nat, k: nat)
    requires k < n && Fits(row, base.clock, |file|, chunk, n)
    requires Reaches(c, be, from, s) && Collecting(at, base, s, id, row, file, chunk, n, k)
    ensures var s' := Apply(c, be, s, Ambient(AdmitChunk(at.node, id, k)));
            Enabled(c, s, Ambient(AdmitChunk(at.node, id, k))) && Reaches(c, be, from, s')
            && Collecting(at, base, s', id, row, file, chunk, n, k) && (id, k) in s'.admitted
  {
    hide Reaches, Collecting, Enabled, Apply, Fits;
    var step := Ambient(AdmitChunk(at.node, id, k));
    AdmitEnabled(at, c, base, s, id, row, file, chunk, n, k);
    ReachStep(c, be, from, s, step);
    AdmitApplies(c, be, s, at.node, id, k);
    AdmitCollects(at, c, base, s, id, row, file, chunk, n, k);
  }

  lemma AdmitEnabled(at: Seat, c: Config, base: State, s: State, id: Id, row: Session, file: Bytes, chunk: nat, n: nat, k: nat)
    requires k < n && Fits(row, base.clock, |file|, chunk, n) && Collecting(at, base, s, id, row, file, chunk, n, k)
    ensures Enabled(c, s, Ambient(AdmitChunk(at.node, id, k)))
  {
    hide Slice, CacheOf, PartsOf;
    HotIsRow(at, s, id, row);
    hide HotSession;
  }

  lemma AdmitApplies(c: Config, be: Backend, s: State, n: Node, id: Id, k: nat)
    requires Enabled(c, s, Ambient(AdmitChunk(n, id, k)))
    ensures id in s.uploads && Apply(c, be, s, Ambient(AdmitChunk(n, id, k))) == DoAdmit(c, s, n, id, k)
  {
    hide DoAdmit, HotSession, Admits;
  }

  lemma AdmitCollects(at: Seat, c: Config, base: State, s: State, id: Id, row: Session, file: Bytes, chunk: nat, n: nat, k: nat)
    requires k < n && Collecting(at, base, s, id, row, file, chunk, n, k)
    ensures id in s.uploads && Collecting(at, base, DoAdmit(c, s, at.node, id, k), id, row, file, chunk, n, k)
    ensures (id, k) in DoAdmit(c, s, at.node, id, k).admitted
  {
    hide Slice, DoAdmit, CacheOf;
    AdmitFrame(at, c, s, id, k);
    AdmitCache(at, c, s, id, k);
    assert PartsOf(DoAdmit(c, s, at.node, id, k), id) == PartsOf(s, id);
  }

  lemma HotIsRow(at: Seat, s: State, id: Id, row: Session)
    requires id in s.uploads && s.uploads[id].row == row && (id in CacheOf(s, at.node) ==> CacheOf(s, at.node)[id].session == row)
    ensures HotSession(s, at.node, id) == row
  {
  }

  lemma Remembered(at: Seat, c: Config, s: State, id: Id, row: Session)
    ensures id in CacheOf(s.(caches := Remember(c, s, at.node, id, row)), at.node)
    ensures CacheOf(s.(caches := Remember(c, s, at.node, id, row)), at.node)[id].session == row
  {
  }

  lemma AdmitFrame(at: Seat, c: Config, s: State, id: Id, k: nat)
    requires id in s.uploads
    ensures var s' := DoAdmit(c, s, at.node, id, k);
            && s'.uploads == s.uploads && s'.calls == s.calls && s'.queues == s.queues && s'.workers == s.workers
            && Calm(s, s') && s'.parts == s.parts && s'.admitted == s.admitted + {(id, k)}
            && s'.caches == if ServedFromCache(s, at.node, id) then s.caches else Remember(c, s, at.node, id, s.uploads[id].row)
  {
    hide ServedFromCache, Remember;
    var seen := s.(admitted := s.admitted + {(id, k)});
    if ServedFromCache(s, at.node, id) {
      assert DoAdmit(c, s, at.node, id, k) == seen;
    } else {
      assert DoAdmit(c, s, at.node, id, k) == seen.(caches := Remember(c, s, at.node, id, s.uploads[id].row));
    }
  }

  lemma AdmitCache(at: Seat, c: Config, s: State, id: Id, k: nat)
    requires id in s.uploads && (id in CacheOf(s, at.node) ==> CacheOf(s, at.node)[id].session == s.uploads[id].row)
    ensures var s' := DoAdmit(c, s, at.node, id, k);
            id in CacheOf(s', at.node) ==> CacheOf(s', at.node)[id].session == s.uploads[id].row
  {
    hide ServedFromCache, Remember, CacheOf, DoAdmit;
    AdmitFrame(at, c, s, id, k);
    if ServedFromCache(s, at.node, id) {
      SameCache(at, DoAdmit(c, s, at.node, id, k), s);
    } else {
      Remembered(at, c, s, id, s.uploads[id].row);
      SameCache(at, DoAdmit(c, s, at.node, id, k), s.(caches := Remember(c, s, at.node, id, s.uploads[id].row)));
    }
  }

  lemma SameCache(at: Seat, s: State, t: State)
    requires s.caches == t.caches
    ensures CacheOf(s, at.node) == CacheOf(t, at.node)
  {
  }

  lemma SaveOne(at: Seat, c: Config, be: Backend, from: State, base: State, s: State, id: Id, row: Session, file: Bytes, chunk: nat, n: nat, k: nat)
    requires k < n
    requires Reaches(c, be, from, s) && Collecting(at, base, s, id, row, file, chunk, n, k) && (id, k) in s.admitted
    ensures var s' := Apply(c, be, s, Ambient(SavePart(id, k, Slice(file, chunk, k))));
            Enabled(c, s, Ambient(SavePart(id, k, Slice(file, chunk, k))))
            && Reaches(c, be, from, s') && Collecting(at, base, s', id, row, file, chunk, n, k + 1)
  {
    hide Slice, Reaches;
    var step := Ambient(SavePart(id, k, Slice(file, chunk, k)));
    ReachStep(c, be, from, s, step);
    var s' := Apply(c, be, s, step);
    assert PartsOf(s', id) == PartsOf(s, id)[k := Slice(file, chunk, k)];
    SameCache(at, s', s);
  }

  /** The browser's slices up to any number of them can be stored. */
  lemma {:induction false} Send(at: Seat, c: Config, be: Backend, from: State, base: State, s: State, id: Id, row: Session, file: Bytes, chunk: nat, n: nat,
                                k: nat, upTo: nat) returns (s': State)
    requires k <= upTo <= n && Fits(row, base.clock, |file|, chunk, n)
    requires Reaches(c, be, from, s) && Collecting(at, base, s, id, row, file, chunk, n, k)
    ensures Reaches(c, be, from, s') && Collecting(at, base, s', id, row, file, chunk, n, upTo)
    ensures k == upTo ==> s' == s
    decreases upTo - k
  {
    hide Slice, Reaches, Collecting, Apply, Enabled, Fits;
    s' := s;
    if k < upTo {
      AdmitOne(at, c, be, from, base, s, id, row, file, chunk, n, k);
      var admitted := Apply(c, be, s, Ambient(AdmitChunk(at.node, id, k)));
      SaveOne(at, c, be, from, base, admitted, id, row, file, chunk, n, k);
      var saved := Apply(c, be, admitted, Ambient(SavePart(id, k, Slice(file, chunk, k))));
      s' := Send(at, c, be, from, base, saved, id, row, file, chunk, n, k + 1, upTo);
    }
  }

  // ---- Initiate ----------------------------------------------------------------------------------------

  /** Initiate adds the upload, with an empty part folder, and leaves the rest alone. */
  lemma Initiated(at: Seat, c: Config, be: Backend, from: State, base: State, id: Id, args: InitiateArgs, hit: Option<Id>) returns (s: State)
    requires Reaches(c, be, from, base) && Enabled(c, base, Ambient(Initiate(at.node, id, args, hit)))
    ensures args.chunkSize > 0 && args.totalSize > 0 && NormalizeChecksum(args.checksum).Success?
    ensures Reaches(c, be, from, s) && Only(base, s, id, Newborn(NewSession(c, base.clock, args)))
    ensures s.calls == base.calls && s.queues == base.queues && PartsOf(s, id) == map[]
  {
    hide Reaches, NormalizeChecksum, LookupResult, WithinLimits, Remember, NewSession, StillThere;
    ReachStep(c, be, from, base, Ambient(Initiate(at.node, id, args, hit)));
    s := DoInitiate(c, base, at.node, id, args);
  }

  lemma NewSessionFits(c: Config, now: int, args: InitiateArgs)
    requires args.chunkSize > 0 && args.totalSize > 0 && NormalizeChecksum(args.checksum).Success? && c.pendingTtl > 0
    ensures var n := IntCount(args.totalSize, args.chunkSize);
            n > 0 && Fits(NewSession(c, now, args), now, args.totalSize, args.chunkSize, n)
  {
    hide IntCount, NormalizeChecksum;
    IntCountIsPositive(args.totalSize, args.chunkSize);
  }

  /** The node forgets what it cached of an upload and starts collecting. */
  lemma Collects(at: Seat, c: Config, be: Backend, from: State, base: State, id: Id, row: Session, file: Bytes, chunk: nat, n: nat) returns (s: State)
    requires Reaches(c, be, from, base) && id in base.uploads && base.uploads[id] == Newborn(row)
    ensures Reaches(c, be, from, s) && Collecting(at, base, s, id, row, file, chunk, n, 0) && PartsOf(s, id) == PartsOf(base, id)
  {
    hide Reaches;
    ReachStep(c, be, from, base, Ambient(Evict(at.node, id)));
    s := base.(caches := Forget(base, at.node, id));
    assert s.uploads == base.uploads[id := Newborn(row)];
  }

  // ---- Complete ----------------------------------------------------------------------------------------

  /** The node's worker has just taken the job of `id`. */
  ghost predicate JobTaken(at: Seat, base: State, s: State, id: Id, row: Session, asked: Option<string>) {
    && At(s, at.node, Job(id, asked), Taken, Leased(row), []) && MergesOf(s, id) == []
    && s.uploads == base.uploads[id := s.uploads[id]] && Calm(base, s)
    && s.calls == base.calls && QueueOf(s, at.node) == [] && s.workers == base.workers[at.node := s.workers[at.node]]
  }

  /** The merges on record for an upload. */
  ghost function MergesOf(s: State, id: Id): seq<MergeRecord> { if id in s.uploads then s.uploads[id].ledger.merges else [] }

  lemma CompleteCalled(at: Seat, c: Config, be: Backend, from: State, base: State, s: State, id: Id, row: Session, asked: Option<string>)
    requires Reaches(c, be, from, s) && Only(base, s, id, Newborn(row)) && at.request !in s.calls
    requires row.status == Pending && row.expiresAt > base.clock
    ensures var s' := Apply(c, be, s, Calling(at.request, CompleteCall(at.node, id, asked)));
            Enabled(c, s, Calling(at.request, CompleteCall(at.node, id, asked))) && Reaches(c, be, from, s') && s'.parts == s.parts && s'.queues == s.queues
            && Only(base, s', id, Newborn(row)) && s'.calls == s.calls[at.request := WillBegin(at.node, id, asked)]
  {
    hide Reaches, Forget;
    ReachStep(c, be, from, s, Calling(at.request, CompleteCall(at.node, id, asked)));
  }

  lemma BeginTried(at: Seat, c: Config, be: Backend, from: State, base: State, s: State, id: Id, row: Session, asked: Option<string>)
    requires Reaches(c, be, from, s) && row.status == Pending && Only(base, s, id, Newborn(row))
    requires at.request in s.calls && s.calls[at.request] == WillBegin(at.node, id, asked)
    ensures var s' := Apply(c, be, s, Calling(at.request, TryBegin));
            Enabled(c, s, Calling(at.request, TryBegin)) && Reaches(c, be, from, s') && s'.parts == s.parts && s'.queues == s.queues
            && Only(base, s', id, Upload(BeginRow(row).value, row, NEW_LEDGER.(begins := 1), WonBy(at.request)))
            && s'.calls == s.calls[at.request := MustEnqueue(at.node, id, asked)]
  {
    hide Reaches;
    ReachStep(c, be, from, s, Calling(at.request, TryBegin));
  }

  lemma JobQueued(at: Seat, c: Config, be: Backend, from: State, base: State, s: State, id: Id, row: Session, leased: Session, asked: Option<string>)
    requires Reaches(c, be, from, s) && Only(base, s, id, Upload(leased, row, NEW_LEDGER.(begins := 1), WonBy(at.request)))
    requires at.request in s.calls && s.calls[at.request] == MustEnqueue(at.node, id, asked) && QueueOf(s, at.node) == []
    ensures var s' := Apply(c, be, s, Calling(at.request, Enqueue));
            Enabled(c, s, Calling(at.request, Enqueue)) && Reaches(c, be, from, s') && s'.parts == s.parts
            && Only(base, s', id, Upload(leased, row, NEW_LEDGER.(begins := 1, jobs := 1, asked := asked), QueuedAt(at.node)))
            && s'.calls == s.calls - {at.request} && QueueOf(s', at.node) == [Job(id, asked)]
  {
    hide Reaches;
    ReachStep(c, be, from, s, Calling(at.request, Enqueue));
    assert QueueOf(s, at.node) + [Job(id, asked)] == [Job(id, asked)];
  }

  lemma JobIsTaken(at: Seat, c: Config, be: Backend, from: State, base: State, s: State, id: Id, u: Upload, asked: Option<string>)
    requires Reaches(c, be, from, s) && Only(base, s, id, u) && QueueOf(s, at.node) == [Job(id, asked)] && at.node !in s.workers
    ensures var s' := Apply(c, be, s, Working(at.node, TakeJob));
            Enabled(c, s, Working(at.node, TakeJob)) && Reaches(c, be, from, s') && s'.parts == s.parts && s'.calls == s.calls
            && At(s', at.node, Job(id, asked), Taken, u.row, u.ledger.events) && MergesOf(s', id) == u.ledger.merges
            && s'.uploads == base.uploads[id := s'.uploads[id]] && Calm(base, s')
            && QueueOf(s', at.node) == [] && s'.workers == base.workers[at.node := s'.workers[at.node]]
  {
    hide Reaches;
    ReachStep(c, be, from, s, Working(at.node, TakeJob));
    var s' := DoTake(s, at.node);
    assert s'.uploads == s.uploads[id := u.(stage := HeldBy(at.node))];
    assert [Job(id, asked)][1..] == [];
  }

  /** A client asks to complete, whatever has been stored, and the node's worker takes the job. */
  lemma AskToComplete(at: Seat, c: Config, be: Backend, from: State, base: State, s: State, id: Id, row: Session, asked: Option<string>) returns (s': State)
    requires Reaches(c, be, from, s) && Idle(at, base) && Only(base, s, id, Newborn(row)) && s.calls == base.calls && s.queues == base.queues
    requires row.status == Pending && row.version == 0 && row.expiresAt > base.clock
    ensures Reaches(c, be, from, s') && JobTaken(at, base, s', id, row, asked) && PartsOf(s', id) == PartsOf(s, id)
  {
    hide Reaches, Apply, Enabled, At;
    SameQueue(at, s, base);
    CompleteCalled(at, c, be, from, base, s, id, row, asked);
    var s1 := Apply(c, be, s, Calling(at.request, CompleteCall(at.node, id, asked)));
    BeginTried(at, c, be, from, base, s1, id, row, asked);
    var s2 := Apply(c, be, s1, Calling(at.request, TryBegin));
    SameQueue(at, s2, base);
    JobQueued(at, c, be, from, base, s2, id, row, BeginRow(row).value, asked);
    var s3 := Apply(c, be, s2, Calling(at.request, Enqueue));
    JobIsTaken(at, c, be, from, base, s3, id, Upload(BeginRow(row).value, row, NEW_LEDGER.(begins := 1, jobs := 1, asked := asked), QueuedAt(at.node)), asked);
    s' := Apply(c, be, s3, Working(at.node, TakeJob));
    assert s'.calls == base.calls;
  }

  lemma SameQueue(at: Seat, s: State, t: State)
    requires s.queues == t.queues
    ensures QueueOf(s, at.node) == QueueOf(t, at.node)
  {
  }
}
