/** What each action of the protocol does to the ledgers, and what it leaves alone. */
module Effects {
  import opened Base
  import opened Checksums
  import opened FinalNames
  import opened Merge
  import opened Protocol
  import opened Repository

  /** The cleanup cycles, the parts and the final objects are as they were. */
  predicate Elsewhere(s: State, s': State) {
    s'.cleaners == s.cleaners && s'.clock == s.clock && s'.parts == s.parts && s'.finals == s.finals
  }

  /** Among the uploads only `id` changes, and its ledger becomes `l`. */
  predicate Books(s: State, s': State, id: Id, l: Ledger) {
    && id in s.uploads && s'.uploads.Keys == s.uploads.Keys && s'.uploads[id].ledger == l
    && forall i :: i in s.uploads && i != id ==> s'.uploads[i] == s.uploads[i]
  }

  lemma BooksOne(s: State, s': State, id: Id)
    requires id in s.uploads && id in s'.uploads && s'.uploads == s.uploads[id := s'.uploads[id]]
    ensures Books(s, s', id, s'.uploads[id].ledger)
  {
  }

  lemma BooksNone(s: State, s': State, id: Id)
    requires id in s.uploads && s'.uploads == s.uploads
    ensures Books(s, s', id, s.uploads[id].ledger)
  {
  }

  lemma EndCallEffect(s: State, r: Request)
    requires r in s.calls && s.calls[r].id in s.uploads
    ensures var id, s' := s.calls[r].id, EndCall(s, r);
            var l := s.uploads[id].ledger;
            Elsewhere(s, s') && s'.caches == s.caches && Books(s, s', id, l)
  {
    hide Books;
    var s', id := EndCall(s, r), s.calls[r].id;
    if s.calls[r].MustEnqueue? || s.calls[r].MustDelete? || s.calls[r].MustPublish? {
      BooksOne(s, s', id);
    } else {
      BooksNone(s, s', id);
    }
  }

  lemma BeginEffect(s: State, r: Request)
    requires r in s.calls && s.calls[r].id in s.uploads && s.calls[r].WillBegin?
    ensures var id, s' := s.calls[r].id, DoBegin(s, r);
            var l := s.uploads[id].ledger;
            Elsewhere(s, s') && s'.caches == s.caches && Books(s, s', id, if BeginRow(s.uploads[id].row).Some? then l.(begins := l.begins + 1) else l)
  {
    hide Books;
    var s', id := DoBegin(s, r), s.calls[r].id;
    if BeginRow(s.uploads[id].row).Some? {
      BooksOne(s, s', id);
    } else {
      BooksNone(s, s', id);
    }
  }

  lemma EnqueueEffect(s: State, r: Request)
    requires r in s.calls && s.calls[r].id in s.uploads && s.calls[r].MustEnqueue?
    ensures var id, s' := s.calls[r].id, DoEnqueue(s, r);
            var l := s.uploads[id].ledger;
            Elsewhere(s, s') && s'.caches == s.caches && Books(s, s', id, l.(jobs := l.jobs + 1, asked := s.calls[r].checksum))
  {
  }

  lemma AbortEffect(s: State, r: Request)
    requires r in s.calls && s.calls[r].id in s.uploads && s.calls[r].WillAbort?
    ensures var id, s' := s.calls[r].id, DoAbort(s, r);
            var l := s.uploads[id].ledger;
            Elsewhere(s, s') && s'.caches == s.caches && Books(s, s', id, if AbortRow(s.uploads[id].row).Some? then l.(aborts := l.aborts + 1) else l)
  {
    hide Books;
    var s', id := DoAbort(s, r), s.calls[r].id;
    if AbortRow(s.uploads[id].row).Some? {
      BooksOne(s, s', id);
    } else {
      BooksNone(s, s', id);
    }
  }

  lemma AbortPublishEffect(s: State, r: Request, lost: bool)
    requires r in s.calls && s.calls[r].id in s.uploads && s.calls[r].MustPublish?
    ensures var id, s' := s.calls[r].id, DoAbortPublish(s, r, lost);
            var l := s.uploads[id].ledger;
            Elsewhere(s, s') && s'.caches == s.caches && Books(s, s', id, l.(events := if lost then l.events else l.events + [AbortedEvent]))
  {
  }

  lemma TakeEffect(s: State, n: Node)
    requires QueueOf(s, n) != [] && QueueOf(s, n)[0].id in s.uploads
    ensures var id, s' := QueueOf(s, n)[0].id, DoTake(s, n);
            var l := s.uploads[id].ledger;
            Elsewhere(s, s') && s'.caches == s.caches && Books(s, s', id, l)
  {
  }

  lemma EndJobEffect(s: State, n: Node)
    requires Busy(s, n)
    ensures var id, s' := s.workers[n].job.id, EndJob(s, n);
            var l := s.uploads[id].ledger;
            Elsewhere(s, s') && s'.caches == s.caches && Books(s, s', id, l)
  {
  }

  lemma ReadEffect(s: State, n: Node)
    requires Busy(s, n)
    ensures var id, s' := s.workers[n].job.id, DoRead(s, n);
            var l := s.uploads[id].ledger;
            Elsewhere(s, s') && s'.caches == s.caches && Books(s, s', id, l)
  {
    hide Books;
    var s', id := DoRead(s, n), s.workers[n].job.id;
    if s.uploads[id].row.status != Completing {
      BooksOne(s, s', id);
    } else {
      BooksNone(s, s', id);
    }
  }

  lemma SetPhaseEffect(s: State, n: Node, phase: Phase)
    requires Busy(s, n)
    ensures var id, s' := s.workers[n].job.id, SetPhase(s, n, phase);
            Elsewhere(s, s') && s'.caches == s.caches && Books(s, s', id, s.uploads[id].ledger)
  {
  }

  lemma SetPhaseKeeps(s: State, n: Node, phase: Phase)
    requires n in s.workers
    ensures var s' := SetPhase(s, n, phase);
            && s'.uploads == s.uploads && s'.cleaners == s.cleaners && s'.parts == s.parts && s'.caches == s.caches
            && s'.finals == s.finals && s'.clock == s.clock
  {
  }

  lemma VerifyEffect(s: State, n: Node)
    requires Busy(s, n) && s.workers[n].phase.HasRead?
    ensures var id, s' := s.workers[n].job.id, DoVerify(s, n);
            var l := s.uploads[id].ledger;
            Elsewhere(s, s') && s'.caches == s.caches && Books(s, s', id, l)
  {
    hide Books, AllPresent, BytesOnDisk, NormalizeChecksum, PartsOf, EndJob, SetPhase;
    var w, snap, id := s.workers[n], s.workers[n].phase.snap, s.workers[n].job.id;
    EndJobEffect(s, n);
    SetPhaseEffect(s, n, Failing(snap, snap.checksum));
    if NormalizeChecksum(w.job.checksum).Success? {
      var sum := NormalizeChecksum(w.job.checksum).value;
      SetPhaseEffect(s, n, Verified(snap, if sum.Some? then sum else snap.checksum));
    }
  }

  lemma MergeThrowsEffect(s: State, n: Node, junk: Option<Bytes>)
    requires Busy(s, n) && s.workers[n].phase.Verified?
    ensures var id, s' := s.workers[n].job.id, DoMergeThrows(s, n, junk);
            var l := s.uploads[id].ledger;
            s'.cleaners == s.cleaners && s'.parts == s.parts && s'.caches == s.caches && Books(s, s', id, l.(mergeTries := l.mergeTries + 1))
  {
    hide ResolveFinal;
  }

  lemma CheckEffect(s: State, n: Node, fingerprint: Option<string>, deleteThrows: bool)
    requires Busy(s, n) && s.workers[n].phase.HasMerged?
    ensures var id, s' := s.workers[n].job.id, DoCheck(s, n, fingerprint, deleteThrows);
            var l := s.uploads[id].ledger;
            s'.cleaners == s.cleaners && s'.parts == s.parts && s'.caches == s.caches && Books(s, s', id, l)
  {
    hide Books, Mismatch, SetPhase;
    var HasMerged(snap, expected, m) := s.workers[n].phase;
    var deleted := s.(finals := s.finals - {m.name});
    SetPhaseKeeps(s, n, Failing(snap, Some(m.hex)));
    SetPhaseKeeps(deleted, n, Failing(snap, Some(m.hex)));
    SetPhaseKeeps(s, n, Finishing(snap, m, if m.hex != "" then Some(m.hex) else expected,
                                  if fingerprint.Some? then fingerprint else snap.fingerprint));
    BooksNone(s, DoCheck(s, n, fingerprint, deleteThrows), s.workers[n].job.id);
  }

  lemma FinishEffect(be: Backend, s: State, n: Node)
    requires Busy(s, n) && s.workers[n].phase.Finishing?
    ensures var id, s' := s.workers[n].job.id, DoFinish(be, s, n);
            var l := s.uploads[id].ledger;
            Elsewhere(s, s') && Books(s, s', id, l.(finishes := l.finishes + if s.uploads[id].row.status == Completing then 1 else 0))
  {
    hide Books, Forget;
    var w := s.workers[n];
    var s', u := DoFinish(be, s, n), s.uploads[w.job.id];
    match FinishRow(be, u.row, w.phase.m.name, w.phase.checksum, w.phase.fingerprint, s.clock)
    case None => BooksOne(s, s', w.job.id);
    case Some(row) =>
      assert s'.uploads == s.uploads[w.job.id := u.(row := row, ledger := u.ledger.(finishes := u.ledger.finishes + 1))];
      BooksOne(s, s', w.job.id);
  }

  lemma FailEffect(be: Backend, s: State, n: Node)
    requires Busy(s, n) && s.workers[n].phase.Failing?
    ensures var id, s' := s.workers[n].job.id, DoFail(be, s, n);
            var l := s.uploads[id].ledger;
            Elsewhere(s, s') && Books(s, s', id, l.(fails := l.fails + if s.uploads[id].row.status == Completing then 1 else 0))
  {
    hide Books, Forget;
    var s', id := DoFail(be, s, n), s.workers[n].job.id;
    if s.uploads[id].row.status == Completing {
      BooksOne(s, s', id);
    } else {
      BooksOne(s, s', id);
    }
  }

  lemma PublishEffect(s: State, n: Node, lost: bool)
    requires Busy(s, n) && s.workers[n].phase.Publishing?
    ensures var id, s' := s.workers[n].job.id, DoPublish(s, n, lost);
            var l := s.uploads[id].ledger;
            Elsewhere(s, s') && s'.caches == s.caches && Books(s, s', id, l.(events := if lost then l.events else l.events + [s.workers[n].phase.event]))
  {
  }

  lemma MergeEffect(c: Config, s: State, n: Node, raced: Option<Bytes>)
    requires WorkEnabled(c, s, n, MergeParts(raced))
    ensures var id, s' := s.workers[n].job.id, DoMerge(c, s, n, raced);
            var w, m := s.workers[n], MergeOf(c, s, n, raced).value;
            var l := s.uploads[id].ledger;
            var name := ResolveFinal(s.finals.Keys, id, w.phase.snap.fileName);
            && s'.cleaners == s.cleaners && s'.caches == s.caches
            && s'.parts == s.parts - {id} && s'.finals == s.finals[name := Final(m.bytes, id)]
            && Books(s, s', id, l.(mergeTries := l.mergeTries + 1, merges := l.merges + [MergeRecord(name, m.bytes, m.hex)]))
  {
    hide MergeOf, ResolveFinal;
  }

  lemma ClaimEffect(s: State, n: Node)
    requires CleanEnabled(s, n, TryClaim)
    ensures var id, s' := s.cleaners[n].listed[s.cleaners[n].next], DoClaim(s, n);
            var l := s.uploads[id].ledger;
            && s'.caches == s.caches && s'.finals == s.finals
            && Books(s, s', id, if ClaimRow(s.uploads[id].row, s.clock).Some? then l.(claims := l.claims + 1) else l)
  {
    hide Books, ClaimRow;
    var s', id := DoClaim(s, n), s.cleaners[n].listed[s.cleaners[n].next];
    if ClaimRow(s.uploads[id].row, s.clock).Some? {
      var u := s.uploads[id];
      assert s'.uploads == s.uploads[id := u.(row := ClaimRow(u.row, s.clock).value, ledger := u.ledger.(claims := u.ledger.claims + 1))];
      BooksOne(s, s', id);
    } else {
      BooksNone(s, s', id);
    }
  }

  lemma CleanDeleteEffect(s: State, n: Node, throws: bool)
    requires CleanEnabled(s, n, DeleteClaimed(throws))
    ensures var s' := DoCleanDelete(s, n, throws);
            s'.caches == s.caches && s'.finals == s.finals && s'.uploads == s.uploads
  {
  }
}
