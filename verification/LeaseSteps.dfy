/** Every step of every node keeps the protocol's invariant. */
module LeaseSteps {
  import opened Base
  import opened Checksums
  import opened FinalNames
  import opened Leases
  import opened Merge
  import opened Protocol
  import opened Repository

  // ---- When one upload changes, whoever works on the others is undisturbed -----------------------------

  ghost predicate OnlyUpload(s: State, s': State, id: Id) {
    && id in s.uploads && id in s'.uploads && s'.clock == s.clock
    && s'.uploads == s.uploads[id := s'.uploads[id]]
  }

  lemma UploadsFrame(c: Config, s: State, s': State, id: Id)
    requires UploadsOk(c, s) && OnlyUpload(s, s', id) && UploadOk(c, s'.uploads[id])
    ensures UploadsOk(c, s')
  {
    hide UploadOk;
  }

  /** The upload's stage is kept, or no call but `r0` has a right to it. */
  ghost predicate CallsKeep(u: Upload, u': Upload, r0: Request) {
    u'.stage == u.stage || ((u.stage.WonBy? || u.stage.AbortingBy?) ==> u.stage.request == r0)
  }

  lemma CallsFrame(s: State, s': State, id: Id, r0: Request)
    requires CallsOk(s) && OnlyUpload(s, s', id) && CallsKeep(s.uploads[id], s'.uploads[id], r0)
    requires forall r :: r in s'.calls && r != r0 ==> r in s.calls && s'.calls[r] == s.calls[r]
    requires r0 in s'.calls ==> s'.calls[r0].id in s'.uploads && CallOk(r0, s'.calls[r0], s'.uploads[s'.calls[r0].id])
    ensures CallsOk(s')
  {
  }

  /** No call moves, and none has a right to the upload unless its stage is kept. */
  lemma CallsKept(s: State, s': State, id: Id)
    requires CallsOk(s) && OnlyUpload(s, s', id) && s'.calls == s.calls
    requires s'.uploads[id].stage == s.uploads[id].stage || !(s.uploads[id].stage.WonBy? || s.uploads[id].stage.AbortingBy?)
    ensures CallsOk(s')
  {
  }

  /** The upload is not queued, or what its job relies on is kept. */
  ghost predicate QueuesKeep(u: Upload, u': Upload) {
    !u.stage.QueuedAt? || (u'.stage == u.stage && u'.ledger.asked == u.ledger.asked)
  }

  lemma QueuesFrame(s: State, s': State, id: Id)
    requires QueuesOk(s) && OnlyUpload(s, s', id) && QueuesKeep(s.uploads[id], s'.uploads[id])
    requires s'.queues == s.queues
    ensures QueuesOk(s')
  {
  }

  /** Only worker `n0` moves, and no other worker holds the upload or it is undisturbed. */
  lemma WorkersFrame(c: Config, s: State, s': State, id: Id, n0: Node)
    requires WorkersOk(c, s) && OnlyUpload(s, s', id)
    requires forall n :: n in s'.workers && n != n0 ==> n in s.workers && s'.workers[n] == s.workers[n]
    requires s.uploads[id].stage.HeldBy? ==> s.uploads[id].stage.node == n0
    requires n0 in s'.workers ==> s'.workers[n0].job.id in s'.uploads && WorkerOk(c, n0, s'.workers[n0], s'.uploads[s'.workers[n0].job.id])
    ensures WorkersOk(c, s')
  {
    hide WorkerOk;
    forall n | n in s'.workers
      ensures s'.workers[n].job.id in s'.uploads && WorkerOk(c, n, s'.workers[n], s'.uploads[s'.workers[n].job.id])
    {
      if n != n0 {
        WorkerHolds(c, n, s.workers[n], s.uploads[s.workers[n].job.id]);
      }
    }
  }

  // ---- Time, initiate, caches, parts -------------------------------------------------------------------

  lemma InitKeeps(c: Config, s: State)
    requires Init(s)
    ensures Inv(c, s)
  {
  }

  lemma TickKeeps(c: Config, s: State, now: int)
    requires Inv(c, s)
    ensures Inv(c, s.(clock := now))
  {
    hide UploadOk, WorkerOk;
  }

  lemma InitiateKeeps(c: Config, s: State, n: Node, id: Id, args: InitiateArgs)
    requires Inv(c, s) && id !in s.uploads && ArgsOk(c, args)
    ensures Inv(c, DoInitiate(c, s, n, id, args))
  {
    hide UploadOk, WorkerOk, NewSession;
    NewUploadOk(c, s.clock, args);
  }

  /** Steps that touch neither uploads nor anyone's work. */
  lemma QuietKeeps(c: Config, s: State, s': State)
    requires Inv(c, s)
    requires s'.uploads == s.uploads && s'.clock == s.clock && s'.calls == s.calls && s'.queues == s.queues && s'.workers == s.workers
    ensures Inv(c, s')
  {
    hide UploadOk, WorkerOk;
  }

  // ---- Complete and abort calls ------------------------------------------------------------------------

  lemma NewCallKeeps(c: Config, s: State, s': State, r: Request, call: Call)
    requires Inv(c, s) && r !in s.calls && (call.WillBegin? || call.WillAbort?) && call.id in s.uploads
    requires s'.uploads == s.uploads && s'.clock == s.clock && s'.calls == s.calls[r := call]
    requires s'.queues == s.queues && s'.workers == s.workers
    ensures Inv(c, s')
  {
    hide UploadOk, WorkerOk;
  }

  lemma GoneCallKeeps(c: Config, s: State, r: Request)
    requires Inv(c, s)
    ensures Inv(c, s.(calls := s.calls - {r}))
  {
    hide UploadOk, WorkerOk;
  }

  lemma BeginKeeps(c: Config, s: State, r: Request)
    requires Inv(c, s) && r in s.calls && s.calls[r].WillBegin?
    ensures s.calls[r].id in s.uploads && Inv(c, DoBegin(s, r))
  {
    hide UploadOk, WorkerOk;
    var id, s' := s.calls[r].id, DoBegin(s, r);
    var u := s.uploads[id];
    if u.row.status == Pending {
      BeginOk(c, u, r);
      UploadsFrame(c, s, s', id);
      CallsFrame(s, s', id, r);
      QueuesFrame(s, s', id);
      WorkersKept(c, s, s', id);
    } else {
      GoneCallKeeps(c, s, r);
    }
  }

  /** No worker holds the upload, and none moves. */
  lemma WorkersKept(c: Config, s: State, s': State, id: Id)
    requires WorkersOk(c, s) && OnlyUpload(s, s', id) && s'.workers == s.workers && !s.uploads[id].stage.HeldBy?
    ensures WorkersOk(c, s')
  {
    hide WorkerOk;
    forall n | n in s'.workers
      ensures s'.workers[n].job.id in s'.uploads && WorkerOk(c, n, s'.workers[n], s'.uploads[s'.workers[n].job.id])
    {
      WorkerHolds(c, n, s.workers[n], s.uploads[s.workers[n].job.id]);
    }
  }

  lemma EnqueueKeeps(c: Config, s: State, r: Request)
    requires Inv(c, s) && r in s.calls && s.calls[r].MustEnqueue?
    ensures s.calls[r].id in s.uploads && Inv(c, DoEnqueue(s, r))
  {
    hide UploadOk, WorkerOk;
    var MustEnqueue(n, id, checksum) := s.calls[r];
    var s' := DoEnqueue(s, r);
    EnqueueOk(c, s.uploads[id], r, n, checksum);
    QueueGrows(s, s', n, Job(id, checksum));
    UploadsFrame(c, s, s', id);
    CallsFrame(s, s', id, r);
    WorkersKept(c, s, s', id);
  }

  lemma QueueGrows(s: State, s': State, n: Node, job: Job)
    requires QueuesOk(s) && OnlyUpload(s, s', job.id) && !s.uploads[job.id].stage.QueuedAt?
    requires s'.queues == s.queues[n := QueueOf(s, n) + [job]] && JobOk(n, job, s'.uploads[job.id])
    ensures QueuesOk(s')
  {
    forall m, k | m in s'.queues && 0 <= k < |s'.queues[m]|
      ensures s'.queues[m][k].id in s'.uploads && JobOk(m, s'.queues[m][k], s'.uploads[s'.queues[m][k].id])
      ensures m != n || k < |QueueOf(s, n)| ==> s'.queues[m][k].id != job.id
    {
      if m != n || k < |QueueOf(s, n)| {
        assert m in s.queues && s'.queues[m][k] == s.queues[m][k];
        assert JobOk(m, s.queues[m][k], s.uploads[s.queues[m][k].id]);
      }
    }
  }

  lemma AbortKeeps(c: Config, s: State, r: Request)
    requires Inv(c, s) && r in s.calls && s.calls[r].WillAbort?
    ensures s.calls[r].id in s.uploads && Inv(c, DoAbort(s, r))
  {
    hide UploadOk, WorkerOk;
    var id, s' := s.calls[r].id, DoAbort(s, r);
    var u := s.uploads[id];
    if u.row.status == Pending {
      AbortOk(c, u, r);
      UploadsFrame(c, s, s', id);
      CallsFrame(s, s', id, r);
      QueuesFrame(s, s', id);
      WorkersKept(c, s, s', id);
    } else {
      GoneCallKeeps(c, s, r);
    }
  }

  lemma AbortDeleteKeeps(c: Config, s: State, r: Request, s': State)
    requires Inv(c, s) && r in s.calls && s.calls[r].MustDelete?
    requires s'.uploads == s.uploads && s'.clock == s.clock && s'.queues == s.queues && s'.workers == s.workers
    requires s'.calls == s.calls[r := MustPublish(s.calls[r].node, s.calls[r].id)]
    ensures Inv(c, s')
  {
    hide UploadOk, WorkerOk, JobOk;
  }

  lemma AbortingIsAborted(c: Config, u: Upload, r: Request)
    requires UploadOk(c, u) && u.stage == AbortingBy(r)
    ensures u.row.status == Aborted
  {
  }

  lemma AbortPublishKeeps(c: Config, s: State, r: Request, lost: bool)
    requires Inv(c, s) && r in s.calls && s.calls[r].MustPublish?
    ensures s.calls[r].id in s.uploads && Inv(c, DoAbortPublish(s, r, lost))
  {
    hide UploadOk, WorkerOk;
    var id, s' := s.calls[r].id, DoAbortPublish(s, r, lost);
    AbortEventOk(c, s.uploads[id], r, s'.uploads[id].ledger.events);
    UploadsFrame(c, s, s', id);
    CallsFrame(s, s', id, r);
    QueuesFrame(s, s', id);
    WorkersKept(c, s, s', id);
  }

  lemma EndCallKeeps(c: Config, s: State, r: Request)
    requires Inv(c, s) && r in s.calls
    ensures s.calls[r].id in s.uploads && Inv(c, EndCall(s, r))
  {
    hide UploadOk, WorkerOk;
    var id, s' := s.calls[r].id, EndCall(s, r);
    if s.calls[r].WillBegin? || s.calls[r].WillAbort? {
      assert s'.uploads == s.uploads;
      GoneCallKeeps(c, s, r);
      QuietKeeps(c, s.(calls := s.calls - {r}), s');
    } else {
      SpentOk(c, s.uploads[id]);
      UploadsFrame(c, s, s', id);
      CallsFrame(s, s', id, r);
      QueuesFrame(s, s', id);
      WorkersKept(c, s, s', id);
    }
  }

  // ---- The merge worker --------------------------------------------------------------------------------

  lemma TakeKeeps(c: Config, s: State, n: Node)
    requires Inv(c, s) && n !in s.workers && QueueOf(s, n) != []
    ensures QueueOf(s, n)[0].id in s.uploads && Inv(c, DoTake(s, n))
  {
    hide UploadOk, WorkerOk;
    var q := QueueOf(s, n);
    var id := q[0].id;
    assert s.queues[n][0] == q[0];
    assert JobOk(n, q[0], s.uploads[id]);
    var s' := DoTake(s, n);
    TakeOk(c, s.uploads[id], n);
    QueueShrinks(s, s', n);
    TakenOk(c, n, s'.workers[n], s'.uploads[id]);
    UploadsFrame(c, s, s', id);
    CallsKept(s, s', id);
    WorkersFrame(c, s, s', id, n);
  }

  lemma TakenOk(c: Config, n: Node, w: Worker, u: Upload)
    requires u.stage == HeldBy(n) && u.ledger.asked == w.job.checksum && w.phase.Taken? && InProgress(u) && u.ledger.mergeTries == 0
    ensures WorkerOk(c, n, w, u)
  {
  }

  lemma WorkerHolds(c: Config, n: Node, w: Worker, u: Upload)
    requires WorkerOk(c, n, w, u)
    ensures u.stage == HeldBy(n)
  {
  }

  lemma QueueShrinks(s: State, s': State, n: Node)
    requires QueuesOk(s) && n in s.queues && s.queues[n] != [] && OnlyUpload(s, s', s.queues[n][0].id)
    requires s'.queues == s.queues[n := s.queues[n][1..]]
    ensures QueuesOk(s')
  {
    var id := s.queues[n][0].id;
    assert s.uploads[id].stage == QueuedAt(n) by {
      assert JobOk(n, s.queues[n][0], s.uploads[id]);
    }
    forall m, k | m in s'.queues && 0 <= k < |s'.queues[m]|
      ensures s'.queues[m][k].id in s'.uploads && JobOk(m, s'.queues[m][k], s'.uploads[s'.queues[m][k].id])
    {
      var j := if m == n then k + 1 else k;
      assert s'.queues[m][k] == s.queues[m][j];
      assert JobOk(m, s.queues[m][j], s.uploads[s.queues[m][j].id]);
      assert m == n ==> s.queues[n][0].id != s.queues[n][j].id;
    }
  }

  lemma EndJobKeeps(c: Config, s: State, n: Node)
    requires Inv(c, s) && n in s.workers
    ensures s.workers[n].job.id in s.uploads && Inv(c, EndJob(s, n))
  {
    hide UploadOk, WorkerOk;
    var id, s' := s.workers[n].job.id, EndJob(s, n);
    WorkerHolds(c, n, s.workers[n], s.uploads[id]);
    SpentOk(c, s.uploads[id]);
    UploadsFrame(c, s, s', id);
    CallsKept(s, s', id);
    QueuesFrame(s, s', id);
    WorkersFrame(c, s, s', id, n);
  }

  /** The worker moves on and its upload changes in ways only the worker relies on. */
  lemma WorkerMoves(c: Config, s: State, s': State, n: Node)
    requires Inv(c, s) && n in s.workers && s.workers[n].job.id in s.uploads
    requires OnlyUpload(s, s', s.workers[n].job.id)
    requires s'.calls == s.calls && s'.queues == s.queues
    requires n in s'.workers && s'.workers == s.workers[n := s'.workers[n]] && s'.workers[n].job == s.workers[n].job
    requires UploadOk(c, s'.uploads[s.workers[n].job.id])
    requires WorkerOk(c, n, s'.workers[n], s'.uploads[s.workers[n].job.id])
    ensures Inv(c, s')
  {
    hide UploadOk, WorkerOk;
    var id := s.workers[n].job.id;
    WorkerHolds(c, n, s.workers[n], s.uploads[id]);
    UploadsFrame(c, s, s', id);
    CallsKept(s, s', id);
    QueuesFrame(s, s', id);
    WorkersFrame(c, s, s', id, n);
  }

  lemma ReadKeeps(c: Config, s: State, n: Node)
    requires Inv(c, s) && Busy(s, n) && s.workers[n].phase.Taken?
    ensures Inv(c, DoRead(s, n))
  {
    hide UploadOk, WorkerOk;
    var w := s.workers[n];
    var u := s.uploads[w.job.id];
    if u.row.status == Completing {
      ReadOk(c, n, w, u);
      WorkerMoves(c, s, DoRead(s, n), n);
    } else {
      EndJobKeeps(c, s, n);
    }
  }

  lemma ReadOk(c: Config, n: Node, w: Worker, u: Upload)
    requires UploadOk(c, u) && WorkerOk(c, n, w, u) && w.phase.Taken? && u.row.status == Completing
    ensures WorkerOk(c, n, w.(phase := HasRead(u.row)), u)
  {
  }

  lemma VerifyKeeps(c: Config, s: State, n: Node)
    requires Inv(c, s) && Busy(s, n) && s.workers[n].phase.HasRead?
    ensures Inv(c, DoVerify(s, n))
  {
    hide UploadOk, WorkerOk, AllPresent, BytesOnDisk, NormalizeChecksum, Inv;
    var w, snap := s.workers[n], s.workers[n].phase.snap;
    var parts, n' := PartsOf(s, w.job.id), snap.totalChunks;
    WorkerIn(c, s, n);
    VerifyOk(c, n, w, s.uploads[w.job.id]);
    if !AllPresent(parts, n') || BytesOnDisk(parts, n') != snap.totalSize {
      PhaseMoves(c, s, n, Failing(snap, snap.checksum));
    } else if NormalizeChecksum(w.job.checksum).Failure? {
      EndJobKeeps(c, s, n);
    } else {
      var sum := NormalizeChecksum(w.job.checksum).value;
      PhaseMoves(c, s, n, Verified(snap, if sum.Some? then sum else snap.checksum));
    }
  }

  lemma WorkerIn(c: Config, s: State, n: Node)
    requires Inv(c, s) && Busy(s, n)
    ensures UploadOk(c, s.uploads[s.workers[n].job.id])
    ensures WorkerOk(c, n, s.workers[n], s.uploads[s.workers[n].job.id])
  {
    hide UploadOk, WorkerOk;
  }

  lemma PhaseMoves(c: Config, s: State, n: Node, phase: Phase)
    requires Inv(c, s) && Busy(s, n)
    requires WorkerOk(c, n, s.workers[n].(phase := phase), s.uploads[s.workers[n].job.id])
    ensures Inv(c, SetPhase(s, n, phase))
  {
    hide UploadOk, WorkerOk;
    WorkerMoves(c, s, SetPhase(s, n, phase), n);
  }

  lemma VerifyOk(c: Config, n: Node, w: Worker, u: Upload)
    requires UploadOk(c, u) && WorkerOk(c, n, w, u) && w.phase.HasRead?
    ensures WorkerOk(c, n, w.(phase := Failing(w.phase.snap, w.phase.snap.checksum)), u)
    ensures NormalizeChecksum(w.job.checksum).Success? ==>
              var sum := NormalizeChecksum(w.job.checksum).value;
              WorkerOk(c, n, w.(phase := Verified(w.phase.snap, if sum.Some? then sum else w.phase.snap.checksum)), u)
  {
  }

  lemma MergeKeeps(c: Config, s: State, n: Node, raced: Option<Bytes>)
    requires Busy(s, n) && s.workers[n].phase.Verified? && MergeOf(c, s, n, raced).Some? && Inv(c, s)
    ensures Inv(c, DoMerge(c, s, n, raced))
  {
    hide UploadOk, WorkerOk, MergeOf, ResolveFinal;
    var w, s' := s.workers[n], DoMerge(c, s, n, raced);
    var id := w.job.id;
    SnapIsSound(c, n, w, s.uploads[id]);
    MergeOfSize(c, s, n, raced);
    MergeOk(c, n, w, s.uploads[id], MergeOf(c, s, n, raced).value, ResolveFinal(s.finals.Keys, id, w.phase.snap.fileName));
    WorkerMoves(c, s, s', n);
  }

  lemma SnapIsSound(c: Config, n: Node, w: Worker, u: Upload)
    requires UploadOk(c, u) && WorkerOk(c, n, w, u) && w.phase.Verified?
    ensures w.phase.snap.chunkSize > 0 && w.phase.snap.totalChunks > 0
  {
  }

  /** Whatever a merge returns, it has written the right number of bytes, and its digest is theirs. */
  lemma MergeOfSize(c: Config, s: State, n: Node, raced: Option<Bytes>)
    requires Busy(s, n) && s.workers[n].phase.Verified? && MergeOf(c, s, n, raced).Some?
    requires s.workers[n].phase.snap.chunkSize > 0 && s.workers[n].phase.snap.totalChunks > 0
    ensures RightlyMerged(c, s.workers[n], MergeOf(c, s, n, raced).value)
  {
    hide MergeSpec;
    var w := s.workers[n];
    if raced.None? {
      MergeSpecSize(c, PartsOf(s, w.job.id), w.phase.snap, c.alwaysComputeFullChecksum || w.phase.expected.Some?);
    }
  }

  ghost predicate RightlyMerged(c: Config, w: Worker, merged: Merged)
    requires w.phase.Verified?
  {
    && |merged.bytes| == w.phase.snap.totalSize
    && merged.hex == if c.alwaysComputeFullChecksum || w.phase.expected.Some? then c.sha(merged.bytes) else ""
  }

  lemma MergeOk(c: Config, n: Node, w: Worker, u: Upload, merged: Merged, name: string)
    requires UploadOk(c, u) && WorkerOk(c, n, w, u) && w.phase.Verified? && RightlyMerged(c, w, merged)
    ensures var m := MergeRecord(name, merged.bytes, merged.hex);
            var l := u.ledger.(mergeTries := u.ledger.mergeTries + 1, merges := u.ledger.merges + [m]);
            && UploadOk(c, u.(ledger := l))
            && WorkerOk(c, n, w.(phase := HasMerged(w.phase.snap, w.phase.expected, m)), u.(ledger := l))
  {
    var m := MergeRecord(name, merged.bytes, merged.hex);
    assert u.ledger.merges + [m] == [m];
    TriedOk(c, u, n, u.ledger.merges + [m]);
  }

  lemma MergeThrowsKeeps(c: Config, s: State, n: Node, junk: Option<Bytes>)
    requires Inv(c, s) && Busy(s, n) && s.workers[n].phase.Verified?
    ensures Inv(c, DoMergeThrows(s, n, junk))
  {
    hide UploadOk, WorkerOk, ResolveFinal;
    var w := s.workers[n];
    MergeThrowsOk(c, n, w, s.uploads[w.job.id]);
    WorkerMoves(c, s, DoMergeThrows(s, n, junk), n);
  }

  lemma MergeThrowsOk(c: Config, n: Node, w: Worker, u: Upload)
    requires UploadOk(c, u) && WorkerOk(c, n, w, u) && w.phase.Verified?
    ensures var u' := u.(ledger := u.ledger.(mergeTries := u.ledger.mergeTries + 1));
            && UploadOk(c, u')
            && WorkerOk(c, n, w.(phase := Failing(w.phase.snap, w.phase.snap.checksum)), u')
  {
    TriedOk(c, u, n, u.ledger.merges);
  }

  lemma CheckKeeps(c: Config, s: State, n: Node, fingerprint: Option<string>, deleteThrows: bool)
    requires ValidConfig(c) && Inv(c, s) && Busy(s, n) && s.workers[n].phase.HasMerged?
    ensures Inv(c, DoCheck(s, n, fingerprint, deleteThrows))
  {
    hide UploadOk, WorkerOk, Mismatch, ValidConfig, Inv, SetPhase;
    var w := s.workers[n];
    var HasMerged(snap, expected, m) := w.phase;
    WorkerIn(c, s, n);
    CheckedOk(c, n, w, s.uploads[w.job.id], fingerprint);
    var phase := if Mismatch(expected, m.hex) then Failing(snap, Some(m.hex))
                 else Finishing(snap, m, if m.hex != "" then Some(m.hex) else expected,
                                if fingerprint.Some? then fingerprint else snap.fingerprint);
    PhaseMoves(c, s, n, phase);
    FinalsDoNotMatter(c, s, n, phase, s.finals - {m.name});
  }

  lemma FinalsDoNotMatter(c: Config, s: State, n: Node, phase: Phase, finals: map<string, Final>)
    requires n in s.workers && Inv(c, SetPhase(s, n, phase))
    ensures Inv(c, SetPhase(s.(finals := finals), n, phase))
  {
    hide Inv;
    QuietKeeps(c, SetPhase(s, n, phase), SetPhase(s.(finals := finals), n, phase));
  }

  lemma CheckedOk(c: Config, n: Node, w: Worker, u: Upload, fingerprint: Option<string>)
    requires ValidConfig(c) && UploadOk(c, u) && WorkerOk(c, n, w, u) && w.phase.HasMerged?
    ensures var HasMerged(snap, expected, m) := w.phase;
            if Mismatch(expected, m.hex) then WorkerOk(c, n, w.(phase := Failing(snap, Some(m.hex))), u)
            else WorkerOk(c, n, w.(phase := Finishing(snap, m, if m.hex != "" then Some(m.hex) else expected,
                                                      if fingerprint.Some? then fingerprint else snap.fingerprint)), u)
  {
    hide Mismatch, ValidConfig, FailedFor, MeetsExpectation, StoredChecksum, NormalizeChecksum, Expected, StatusOk, WorkOk, EventsOk;
    CheckOk(c, w, u, n);
  }

  lemma FinishKeeps(c: Config, be: Backend, s: State, n: Node)
    requires Inv(c, s) && Busy(s, n) && s.workers[n].phase.Finishing?
    ensures Inv(c, DoFinish(be, s, n))
  {
    hide UploadOk, WorkerOk;
    var w := s.workers[n];
    var u := s.uploads[w.job.id];
    if u.row.status == Completing {
      FinishOk(c, be, w, u, n, s.clock);
      FinishedOk(c, be, n, w, u, s.clock);
      WorkerMoves(c, s, DoFinish(be, s, n), n);
    } else {
      EndJobKeeps(c, s, n);
    }
  }

  lemma FinishedOk(c: Config, be: Backend, n: Node, w: Worker, u: Upload, now: int)
    requires WorkerOk(c, n, w, u) && w.phase.Finishing? && u.row.status == Completing
    ensures WorkerOk(c, n, w.(phase := Publishing(CompletedEvent)),
                     u.(row := FinishRow(be, u.row, w.phase.m.name, w.phase.checksum, w.phase.fingerprint, now).value,
                        ledger := u.ledger.(finishes := u.ledger.finishes + 1)))
  {
  }

  lemma FailKeeps(c: Config, be: Backend, s: State, n: Node)
    requires Inv(c, s) && Busy(s, n) && s.workers[n].phase.Failing?
    ensures Inv(c, DoFail(be, s, n))
  {
    hide UploadOk, WorkerOk;
    var w := s.workers[n];
    FailedOk(c, be, n, w, s.uploads[w.job.id]);
    WorkerMoves(c, s, DoFail(be, s, n), n);
  }

  lemma FailedOk(c: Config, be: Backend, n: Node, w: Worker, u: Upload)
    requires UploadOk(c, u) && WorkerOk(c, n, w, u) && w.phase.Failing?
    ensures var next := FailRow(be, u.row, w.phase.checksum);
            var u' := if next.None? then u else u.(row := next.value, ledger := u.ledger.(fails := u.ledger.fails + 1));
            UploadOk(c, u') && WorkerOk(c, n, w.(phase := Publishing(FailedEvent)), u')
  {
    if u.row.status == Completing {
      FailOk(c, be, u, n, w.phase.checksum);
    }
  }

  lemma PublishKeeps(c: Config, s: State, n: Node, lost: bool)
    requires Inv(c, s) && Busy(s, n) && s.workers[n].phase.Publishing?
    ensures Inv(c, DoPublish(s, n, lost))
  {
    hide UploadOk, WorkerOk;
    var w, s' := s.workers[n], DoPublish(s, n, lost);
    var id := w.job.id;
    PublishOk(c, w, s.uploads[id], n, lost);
    WorkerHolds(c, n, w, s.uploads[id]);
    UploadsFrame(c, s, s', id);
    CallsKept(s, s', id);
    QueuesFrame(s, s', id);
    WorkersFrame(c, s, s', id, n);
  }

  // ---- The cleanup loop --------------------------------------------------------------------------------

  lemma ClaimKeeps(c: Config, s: State, n: Node)
    requires Inv(c, s) && CleanEnabled(s, n, TryClaim)
    ensures Inv(c, DoClaim(s, n))
  {
    hide Inv, ClaimRow;
    var id := s.cleaners[n].listed[s.cleaners[n].next];
    var u, claimed := s.uploads[id], ClaimRow(s.uploads[id].row, s.clock);
    if claimed.Some? {
      assert DoClaim(s, n).uploads == s.uploads[id := u.(row := claimed.value, ledger := u.ledger.(claims := u.ledger.claims + 1))];
      ClaimWonKeeps(c, s, DoClaim(s, n), id);
    } else {
      QuietKeeps(c, s, DoClaim(s, n));
    }
  }

  lemma ClaimWonKeeps(c: Config, s: State, s': State, id: Id)
    requires Inv(c, s) && OnlyUpload(s, s', id) && ClaimRow(s.uploads[id].row, s.clock).Some?
    requires s'.calls == s.calls && s'.queues == s.queues && s'.workers == s.workers
    requires var u := s.uploads[id];
             s'.uploads[id] == u.(row := ClaimRow(u.row, s.clock).value, ledger := u.ledger.(claims := u.ledger.claims + 1))
    ensures Inv(c, s')
  {
    hide UploadOk, WorkerOk, CallOk, JobOk, ClaimRow, UploadsOk, CallsOk, QueuesOk, WorkersOk;
    UploadIn(c, s, id);
    ClaimOk(c, s.uploads[id], s.clock);
    UploadsFrame(c, s, s', id);
    CallsKept(s, s', id);
    QueuesFrame(s, s', id);
    ClaimWorkers(c, s, s', id);
  }

  lemma UploadIn(c: Config, s: State, id: Id)
    requires UploadsOk(c, s) && id in s.uploads
    ensures UploadOk(c, s.uploads[id])
  {
    hide UploadOk;
  }

  lemma ClaimWorkers(c: Config, s: State, s': State, id: Id)
    requires WorkersOk(c, s) && OnlyUpload(s, s', id) && s'.workers == s.workers && ClaimRow(s.uploads[id].row, s.clock).Some?
    requires var u := s.uploads[id];
             s'.uploads[id] == u.(row := ClaimRow(u.row, s.clock).value, ledger := u.ledger.(claims := u.ledger.claims + 1))
    ensures WorkersOk(c, s')
  {
    hide WorkerOk;
    forall m | m in s'.workers
      ensures s'.workers[m].job.id in s'.uploads && WorkerOk(c, m, s'.workers[m], s'.uploads[s'.workers[m].job.id])
    {
      ClaimDisturbsNoWorker(c, s.uploads[id], s.clock, m, s.workers[m]);
    }
  }
}
