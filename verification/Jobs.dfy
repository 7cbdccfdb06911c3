/**
 What a complete job comes to when nothing disturbs it: the worker's steps driven to the end, with storage and
 repository calls that return. In particular, exactly when the session is left Completing.
 */
module Jobs {
  import opened Base
  import opened Checksums
  import opened FinalNames
  import opened Merge
  import opened Protocol
  import opened Repository
  import opened Slots

  /** The worker's next step when no call fails; `fp` is the fingerprint it will compute. */
  ghost function NextStep(c: Config, s: State, n: Node, fp: Option<string>): (step: WorkStep)
    requires Busy(s, n)
    ensures WorkEnabled(c, s, n, step)
  {
    match s.workers[n].phase
    case Taken => ReadRow
    case HasRead(_) => VerifyParts
    case Verified(_, _) => if MergeOf(c, s, n, None).Some? then MergeParts(None) else MergeThrows(None)
    case HasMerged(_, _, _) => CheckDigest(fp, false)
    case Finishing(_, _, _, _) => TryFinish
    case Failing(_, _) => TryFail
    case Publishing(_) => Publish(false)
  }

  function Rank(phase: Phase): nat {
    match phase
    case Taken => 6
    case HasRead(_) => 5
    case Verified(_, _) => 4
    case HasMerged(_, _, _) => 3
    case Finishing(_, _, _, _) => 2
    case Failing(_, _) => 2
    case Publishing(_) => 1
  }

  function Left(s: State, n: Node): nat { if Busy(s, n) then Rank(s.workers[n].phase) else 0 }

  /** The worker of node `n` is at `phase` of `job`, whose session has this row and has published these events. */
  predicate At(s: State, n: Node, job: Job, phase: Phase, row: Session, events: seq<Event>) {
    && n in s.workers && s.workers[n] == Worker(job, phase)
    && job.id in s.uploads && s.uploads[job.id].row == row && s.uploads[job.id].ledger.events == events
  }

  lemma AtSetPhase(s: State, n: Node, job: Job, before: Phase, phase: Phase, row: Session, events: seq<Event>)
    requires At(s, n, job, before, row, events)
    ensures At(SetPhase(s, n, phase), n, job, phase, row, events)
  {
  }

  lemma EndsEndJob(s: State, n: Node, job: Job, phase: Phase, row: Session, events: seq<Event>)
    requires At(s, n, job, phase, row, events)
    ensures Ends(EndJob(s, n), n, job.id, row.status, events)
  {
  }

  lemma AtMerge(c: Config, s: State, n: Node, raced: Option<Bytes>, job: Job, snap: Session, expected: Option<string>, row: Session, events: seq<Event>)
    requires At(s, n, job, Verified(snap, expected), row, events) && MergeOf(c, s, n, raced).Some?
    ensures var m := MergeRecord(ResolveFinal(s.finals.Keys, job.id, snap.fileName), MergeOf(c, s, n, raced).value.bytes, MergeOf(c, s, n, raced).value.hex);
            At(DoMerge(c, s, n, raced), n, job, HasMerged(snap, expected, m), row, events)
  {
    hide MergeSpec, ResolveFinal;
  }

  lemma AtMergeThrows(s: State, n: Node, job: Job, snap: Session, expected: Option<string>, row: Session, events: seq<Event>, junk: Option<Bytes>)
    requires At(s, n, job, Verified(snap, expected), row, events)
    ensures At(DoMergeThrows(s, n, junk), n, job, Failing(snap, snap.checksum), row, events)
  {
    hide ResolveFinal;
  }

  lemma AtCheck(s: State, n: Node, job: Job, snap: Session, expected: Option<string>, m: MergeRecord, row: Session,
                events: seq<Event>, fp: Option<string>, throws: bool)
    requires At(s, n, job, HasMerged(snap, expected, m), row, events)
    ensures At(DoCheck(s, n, fp, throws), n, job,
               if Mismatch(expected, m.hex) then Failing(snap, Some(m.hex))
               else Finishing(snap, m, if m.hex != "" then Some(m.hex) else expected, if fp.Some? then fp else snap.fingerprint),
               row, events)
  {
    hide Mismatch;
  }

  lemma AtFail(be: Backend, s: State, n: Node, job: Job, snap: Session, checksum: Option<string>, row: Session, events: seq<Event>)
    requires At(s, n, job, Failing(snap, checksum), row, events)
    ensures var next := FailRow(be, row, checksum);
            At(DoFail(be, s, n), n, job, Publishing(FailedEvent), if next.Some? then next.value else row, events)
  {
    hide FailRow, Forget;
  }

  lemma AtFinish(be: Backend, s: State, n: Node, job: Job, phase: Phase, row: Session, events: seq<Event>)
    requires phase.Finishing? && At(s, n, job, phase, row, events)
    ensures var next := FinishRow(be, row, phase.m.name, phase.checksum, phase.fingerprint, s.clock);
            if next.Some? then At(DoFinish(be, s, n), n, job, Publishing(CompletedEvent), next.value, events)
            else Ends(DoFinish(be, s, n), n, job.id, row.status, events)
  {
    hide FinishRow, Forget;
  }

  lemma EndsPublish(s: State, n: Node, job: Job, event: Event, row: Session, events: seq<Event>, lost: bool)
    requires At(s, n, job, Publishing(event), row, events)
    ensures Ends(DoPublish(s, n, lost), n, job.id, row.status, if lost then events else events + [event])
  {
  }

  lemma AtLeft(s: State, n: Node, job: Job, phase: Phase, row: Session, events: seq<Event>)
    requires At(s, n, job, phase, row, events)
    ensures Busy(s, n) && Left(s, n) == Rank(phase)
  {
  }

  lemma EndsLeft(s: State, n: Node, id: Id, status: Status, events: seq<Event>)
    requires Ends(s, n, id, status, events)
    ensures !Busy(s, n) && Left(s, n) == 0
  {
  }

  /** What verification sees: no part missing and the bytes add up. */
  ghost predicate PartsVerify(parts: Parts, row: Session) {
    AllPresent(parts, row.totalChunks) && BytesOnDisk(parts, row.totalChunks) == row.totalSize
  }

  lemma AtVerify(s: State, n: Node, job: Job, snap: Session, row: Session, events: seq<Event>)
    requires At(s, n, job, HasRead(snap), row, events)
    ensures var s', sum := DoVerify(s, n), NormalizeChecksum(job.checksum);
            if !PartsVerify(PartsOf(s, job.id), snap) then At(s', n, job, Failing(snap, snap.checksum), row, events)
            else if sum.Failure? then Ends(s', n, job.id, row.status, events)
            else At(s', n, job, Verified(snap, if sum.value.Some? then sum.value else snap.checksum), row, events)
                 && PartsOf(s', job.id) == PartsOf(s, job.id)
  {
    hide NormalizeChecksum, AllPresent, BytesOnDisk, At, Ends, SetPhase, EndJob, PartsOf;
    AtIs(s, n, job, HasRead(snap), row, events);
    var sum := NormalizeChecksum(job.checksum);
    if !PartsVerify(PartsOf(s, job.id), snap) {
      AtSetPhase(s, n, job, HasRead(snap), Failing(snap, snap.checksum), row, events);
    } else if sum.Failure? {
      EndsEndJob(s, n, job, HasRead(snap), row, events);
    } else {
      AtSetPhase(s, n, job, HasRead(snap), Verified(snap, if sum.value.Some? then sum.value else snap.checksum), row, events);
      PartsStay(s, n, Verified(snap, if sum.value.Some? then sum.value else snap.checksum), job.id);
    }
  }

  lemma PartsStay(s: State, n: Node, phase: Phase, id: Id)
    requires n in s.workers
    ensures PartsOf(SetPhase(s, n, phase), id) == PartsOf(s, id)
  {
  }

  lemma AtIs(s: State, n: Node, job: Job, phase: Phase, row: Session, events: seq<Event>)
    requires At(s, n, job, phase, row, events)
    ensures Busy(s, n) && s.workers[n] == Worker(job, phase) && s.uploads[job.id].row == row && s.uploads[job.id].ledger.events == events
  {
  }

  lemma AtRead(s: State, n: Node, job: Job, row: Session, events: seq<Event>)
    requires At(s, n, job, Taken, row, events)
    ensures var s' := DoRead(s, n);
            if row.status == Completing then At(s', n, job, HasRead(row), row, events) && PartsOf(s', job.id) == PartsOf(s, job.id)
            else Ends(s', n, job.id, row.status, events)
  {
    hide At, Ends;
    AtIs(s, n, job, Taken, row, events);
    if row.status == Completing {
      AtSetPhase(s, n, job, Taken, HasRead(row), row, events);
    } else {
      EndsEndJob(s, n, job, Taken, row, events);
    }
  }

  /** The job is over; its session has this status and it published these events. */
  ghost predicate Ends(s: State, n: Node, id: Id, status: Status, events: seq<Event>) {
    n !in s.workers && id in s.uploads && s.uploads[id].row.status == status && s.uploads[id].ledger.events == events
  }

  /** However the calls fare, every step of a worker brings its job nearer to its end: at most six steps a job. */
  lemma JobsEnd(c: Config, be: Backend, s: State, n: Node, step: WorkStep)
    requires WorkEnabled(c, s, n, step) && !step.TakeJob?
    ensures Left(ApplyWork(c, be, s, n, step), n) < Left(s, n)
  {
    hide At, Ends, Left, MergeOf, PartsVerify, FinishRow, FailRow, Mismatch, NormalizeChecksum, ResolveFinal;
    hide DoRead, DoVerify, DoMerge, DoMergeThrows, DoCheck, DoFinish, DoFail, DoPublish, EndJob;
    var Worker(job, phase) := s.workers[n];
    var row, events := s.uploads[job.id].row, s.uploads[job.id].ledger.events;
    var s' := ApplyWork(c, be, s, n, step);
    IsAt(s, n, job, phase, row, events);
    AtLeft(s, n, job, phase, row, events);
    match step
    case ReadRow =>
      AtRead(s, n, job, row, events);
      if row.status == Completing { AtLeft(s', n, job, HasRead(row), row, events); } else { EndsLeft(s', n, job.id, row.status, events); }
    case VerifyParts => VerifyLeft(s, n, job, phase, row, events);
    case MergeParts(raced) => MergeLeft(c, s, n, raced, job, phase, row, events);
    case MergeThrows(junk) =>
      AtMergeThrows(s, n, job, phase.snap, phase.expected, row, events, junk);
      AtLeft(s', n, job, Failing(phase.snap, phase.snap.checksum), row, events);
    case CheckDigest(fp, throws) => CheckLeft(s, n, job, phase, row, events, fp, throws);
    case TryFinish => FinishLeft(be, s, n, job, phase, row, events);
    case TryFail =>
      AtFail(be, s, n, job, phase.snap, phase.checksum, row, events);
      var next := FailRow(be, row, phase.checksum);
      AtLeft(s', n, job, Publishing(FailedEvent), if next.Some? then next.value else row, events);
    case Publish(lost) =>
      EndsPublish(s, n, job, phase.event, row, events, lost);
      EndsLeft(s', n, job.id, row.status, if lost then events else events + [phase.event]);
    case JobDies =>
      EndsEndJob(s, n, job, phase, row, events);
      EndsLeft(s', n, job.id, row.status, events);
  }

  lemma IsAt(s: State, n: Node, job: Job, phase: Phase, row: Session, events: seq<Event>)
    requires Busy(s, n) && s.workers[n] == Worker(job, phase) && row == s.uploads[job.id].row && events == s.uploads[job.id].ledger.events
    ensures At(s, n, job, phase, row, events)
  {
  }

  lemma VerifyLeft(s: State, n: Node, job: Job, phase: Phase, row: Session, events: seq<Event>)
    requires phase.HasRead? && At(s, n, job, phase, row, events)
    ensures Left(DoVerify(s, n), n) < Rank(phase)
  {
    hide At, Ends, Left, PartsVerify, NormalizeChecksum, DoVerify;
    AtIs(s, n, job, phase, row, events);
    var s', snap, sum := DoVerify(s, n), phase.snap, NormalizeChecksum(job.checksum);
    AtVerify(s, n, job, snap, row, events);
    if !PartsVerify(PartsOf(s, job.id), snap) {
      AtLeft(s', n, job, Failing(snap, snap.checksum), row, events);
    } else if sum.Failure? {
      EndsLeft(s', n, job.id, row.status, events);
    } else {
      AtLeft(s', n, job, Verified(snap, if sum.value.Some? then sum.value else snap.checksum), row, events);
    }
  }

  lemma MergeLeft(c: Config, s: State, n: Node, raced: Option<Bytes>, job: Job, phase: Phase, row: Session, events: seq<Event>)
    requires phase.Verified? && At(s, n, job, phase, row, events) && MergeOf(c, s, n, raced).Some?
    ensures Left(DoMerge(c, s, n, raced), n) < Rank(phase)
  {
    hide At, Left, MergeOf, DoMerge, ResolveFinal;
    AtIs(s, n, job, phase, row, events);
    AtMerge(c, s, n, raced, job, phase.snap, phase.expected, row, events);
    var merged := MergeOf(c, s, n, raced).value;
    var m := MergeRecord(ResolveFinal(s.finals.Keys, job.id, phase.snap.fileName), merged.bytes, merged.hex);
    AtLeft(DoMerge(c, s, n, raced), n, job, HasMerged(phase.snap, phase.expected, m), row, events);
  }

  lemma CheckLeft(s: State, n: Node, job: Job, phase: Phase, row: Session, events: seq<Event>, fp: Option<string>, throws: bool)
    requires phase.HasMerged? && At(s, n, job, phase, row, events)
    ensures Left(DoCheck(s, n, fp, throws), n) < Rank(phase)
  {
    hide At, Left, DoCheck, Mismatch;
    AtIs(s, n, job, phase, row, events);
    var HasMerged(snap, expected, m) := phase;
    AtCheck(s, n, job, snap, expected, m, row, events, fp, throws);
    AtLeft(DoCheck(s, n, fp, throws), n, job,
           if Mismatch(expected, m.hex) then Failing(snap, Some(m.hex))
           else Finishing(snap, m, if m.hex != "" then Some(m.hex) else expected, if fp.Some? then fp else snap.fingerprint),
           row, events);
  }

  lemma FinishLeft(be: Backend, s: State, n: Node, job: Job, phase: Phase, row: Session, events: seq<Event>)
    requires phase.Finishing? && At(s, n, job, phase, row, events)
    ensures Left(DoFinish(be, s, n), n) < Rank(phase)
  {
    hide At, Ends, Left, DoFinish, FinishRow;
    AtIs(s, n, job, phase, row, events);
    AtFinish(be, s, n, job, phase, row, events);
    var next := FinishRow(be, row, phase.m.name, phase.checksum, phase.fingerprint, s.clock);
    if next.Some? {
      AtLeft(DoFinish(be, s, n), n, job, Publishing(CompletedEvent), next.value, events);
    } else {
      EndsLeft(DoFinish(be, s, n), n, job.id, row.status, events);
    }
  }

  ghost function Drive(c: Config, be: Backend, s: State, n: Node, fp: Option<string>): State
    decreases Left(s, n)
  {
    if !Busy(s, n) then s
    else
      JobsEnd(c, be, s, n, NextStep(c, s, n, fp));
      Drive(c, be, ApplyWork(c, be, s, n, NextStep(c, s, n, fp)), n, fp)
  }

  lemma DriveEnded(c: Config, be: Backend, s: State, n: Node, fp: Option<string>, id: Id, status: Status, events: seq<Event>)
    requires Ends(s, n, id, status, events)
    ensures Drive(c, be, s, n, fp) == s
  {
  }

  lemma DrivePublishing(c: Config, be: Backend, s: State, n: Node, fp: Option<string>, job: Job, event: Event, row: Session, events: seq<Event>)
    requires At(s, n, job, Publishing(event), row, events)
    ensures Ends(Drive(c, be, s, n, fp), n, job.id, row.status, events + [event])
  {
    hide At, Ends, DoPublish;
    AtIs(s, n, job, Publishing(event), row, events);
    EndsPublish(s, n, job, event, row, events, false);
    DriveEnded(c, be, DoPublish(s, n, false), n, fp, job.id, row.status, events + [event]);
  }

  /** A failing job publishes Failed whether or not its row is still Completing; only then does the row become Failed. */
  lemma DriveFailing(c: Config, be: Backend, s: State, n: Node, fp: Option<string>, job: Job, snap: Session,
                     checksum: Option<string>, row: Session, events: seq<Event>)
    requires At(s, n, job, Failing(snap, checksum), row, events)
    ensures Ends(Drive(c, be, s, n, fp), n, job.id, if row.status == Completing then Failed else row.status, events + [FailedEvent])
  {
    hide At, Ends, DoFail;
    AtIs(s, n, job, Failing(snap, checksum), row, events);
    AtFail(be, s, n, job, snap, checksum, row, events);
    var next := FailRow(be, row, checksum);
    DrivePublishing(c, be, DoFail(be, s, n), n, fp, job, FailedEvent, if next.Some? then next.value else row, events);
  }

  lemma DriveFinishing(c: Config, be: Backend, s: State, n: Node, fp: Option<string>, job: Job, phase: Phase, row: Session, events: seq<Event>)
    requires phase.Finishing? && At(s, n, job, phase, row, events) && row.status == Completing
    ensures Ends(Drive(c, be, s, n, fp), n, job.id, Status.Completed, events + [CompletedEvent])
  {
    hide At, Ends, DoFinish;
    AtIs(s, n, job, phase, row, events);
    AtFinish(be, s, n, job, phase, row, events);
    var next := FinishRow(be, row, phase.m.name, phase.checksum, phase.fingerprint, s.clock);
    DrivePublishing(c, be, DoFinish(be, s, n), n, fp, job, CompletedEvent, next.value, events);
  }

  function EndStatus(ok: bool): Status { if ok then Status.Completed else Failed }

  function EndEvent(ok: bool): Event { if ok then CompletedEvent else FailedEvent }

  lemma DriveMerged(c: Config, be: Backend, s: State, n: Node, fp: Option<string>, job: Job, phase: Phase, row: Session, events: seq<Event>)
    requires phase.HasMerged? && At(s, n, job, phase, row, events) && row.status == Completing
    ensures var ok := !Mismatch(phase.expected, phase.m.hex);
            Ends(Drive(c, be, s, n, fp), n, job.id, EndStatus(ok), events + [EndEvent(ok)])
  {
    hide At, Ends, DoCheck, Mismatch;
    AtIs(s, n, job, phase, row, events);
    var HasMerged(snap, expected, m) := phase;
    AtCheck(s, n, job, snap, expected, m, row, events, fp, false);
    var s' := DoCheck(s, n, fp, false);
    if Mismatch(expected, m.hex) {
      DriveFailing(c, be, s', n, fp, job, snap, Some(m.hex), row, events);
    } else {
      DriveFinishing(c, be, s', n, fp, job, Finishing(snap, m, if m.hex != "" then Some(m.hex) else expected,
                                                      if fp.Some? then fp else snap.fingerprint), row, events);
    }
  }

  lemma DriveVerified(c: Config, be: Backend, s: State, n: Node, fp: Option<string>, job: Job, phase: Phase, row: Session, events: seq<Event>)
    requires phase.Verified? && At(s, n, job, phase, row, events) && row.status == Completing && Busy(s, n)
    ensures var ok := MergeOf(c, s, n, None).Some? && !Mismatch(phase.expected, MergeOf(c, s, n, None).value.hex);
            Ends(Drive(c, be, s, n, fp), n, job.id, EndStatus(ok), events + [EndEvent(ok)])
  {
    hide At, Ends, DoMerge, DoMergeThrows, MergeOf, Mismatch, ResolveFinal;
    AtIs(s, n, job, phase, row, events);
    var Verified(snap, expected) := phase;
    if MergeOf(c, s, n, None).Some? {
      AtMerge(c, s, n, None, job, snap, expected, row, events);
      var merged := MergeOf(c, s, n, None).value;
      var m := MergeRecord(ResolveFinal(s.finals.Keys, job.id, snap.fileName), merged.bytes, merged.hex);
      DriveMerged(c, be, DoMerge(c, s, n, None), n, fp, job, HasMerged(snap, expected, m), row, events);
    } else {
      AtMergeThrows(s, n, job, snap, expected, row, events, None);
      DriveFailing(c, be, DoMergeThrows(s, n, None), n, fp, job, snap, snap.checksum, row, events);
    }
  }

  /** On parts that passed verification the single pass succeeds, and the parallel merge if every part fills its slot. */
  lemma VerifiedMerge(c: Config, parts: Parts, snap: Session, computeHash: bool)
    requires PartsVerify(parts, snap)
    ensures MergeSpec(c, parts, snap, computeHash).Some?
       <==> (computeHash && c.singlePassMergeAndHash) || SlotsFilled(parts, snap.totalChunks, snap.totalSize, snap.chunkSize)
    ensures MergeSpec(c, parts, snap, computeHash).Some? ==>
      MergeSpec(c, parts, snap, computeHash).value
        == Merged(JoinParts(parts, snap.totalChunks), if computeHash then c.sha(JoinParts(parts, snap.totalChunks)) else "")
  {
    BytesOnDiskAreJoined(parts, snap.totalChunks);
  }

  /** The job ends well: verified parts, a well-formed checksum, parts the chosen engine accepts, and the right digest. */
  ghost predicate Succeeds(c: Config, parts: Parts, job: Job, row: Session) {
    && PartsVerify(parts, row) && NormalizeChecksum(job.checksum).Success?
    && var expected := Expected(job.checksum, row);
       && (((c.alwaysComputeFullChecksum || expected.Some?) && c.singlePassMergeAndHash)
           || SlotsFilled(parts, row.totalChunks, row.totalSize, row.chunkSize))
       && (expected.Some? ==> expected.value == c.sha(JoinParts(parts, row.totalChunks)))
  }

  ghost predicate Stranded(parts: Parts, job: Job, row: Session) {
    PartsVerify(parts, row) && NormalizeChecksum(job.checksum).Failure?
  }

  lemma NoMismatchExactlyWhen(c: Config, job: Job, row: Session, bytes: Bytes)
    requires ValidConfig(c) && (row.checksum.Some? ==> Digest64(row.checksum.value))
    ensures var expected := Expected(job.checksum, row);
            Mismatch(expected, if c.alwaysComputeFullChecksum || expected.Some? then c.sha(bytes) else "")
            <==> expected.Some? && expected.value != c.sha(bytes)
  {
    var expected := Expected(job.checksum, row);
    assert Digest64(c.sha(bytes));
    NormalizedIsDigest(job.checksum);
    if expected.Some? {
      DigestsCompareExactly(c.sha(bytes), expected.value);
    }
  }

  /** From verification on: completes exactly when the job Succeeds. */
  lemma DriveRead(c: Config, be: Backend, s: State, n: Node, fp: Option<string>, job: Job, row: Session, events: seq<Event>)
    requires ValidConfig(c) && At(s, n, job, HasRead(row), row, events)
    requires row.status == Completing && (row.checksum.Some? ==> Digest64(row.checksum.value))
    ensures var s', parts := Drive(c, be, s, n, fp), PartsOf(s, job.id);
            if Stranded(parts, job, row) then Ends(s', n, job.id, Completing, events)
            else Ends(s', n, job.id, EndStatus(Succeeds(c, parts, job, row)), events + [EndEvent(Succeeds(c, parts, job, row))])
  {
    hide At, Ends, DoVerify, Mismatch, MergeSpec, NormalizeChecksum, SlotsFilled, PartsVerify, ValidConfig, PartsOf, JoinParts;
    AtIs(s, n, job, HasRead(row), row, events);
    AtVerify(s, n, job, row, row, events);
    var s', parts := DoVerify(s, n), PartsOf(s, job.id);
    if !PartsVerify(parts, row) {
      DriveFailing(c, be, s', n, fp, job, row, row.checksum, row, events);
    } else if NormalizeChecksum(job.checksum).Failure? {
      DriveEnded(c, be, s', n, fp, job.id, Completing, events);
    } else {
      var expected := Expected(job.checksum, row);
      AtIs(s', n, job, Verified(row, expected), row, events);
      DriveVerified(c, be, s', n, fp, job, Verified(row, expected), row, events);
      VerifiedMerge(c, parts, row, c.alwaysComputeFullChecksum || expected.Some?);
      assert AllPresent(parts, row.totalChunks) by { VerifiedPresent(parts, row); }
      NoMismatchExactlyWhen(c, job, row, JoinParts(parts, row.totalChunks));
    }
  }

  lemma VerifiedPresent(parts: Parts, row: Session)
    requires PartsVerify(parts, row)
    ensures AllPresent(parts, row.totalChunks)
  {
  }

  /**
   An undisturbed job completes its session exactly when it Succeeds; it leaves the session Completing, without an
   event, exactly when the parts verify and the checksum given at complete is malformed; otherwise it fails it.
   */
  lemma JobOutcome(c: Config, be: Backend, s: State, n: Node, fp: Option<string>)
    requires ValidConfig(c) && Busy(s, n) && s.workers[n].phase.Taken?
    requires var row := s.uploads[s.workers[n].job.id].row;
             row.status == Completing && (row.checksum.Some? ==> Digest64(row.checksum.value))
    ensures var job := s.workers[n].job;
            var row, parts, events := s.uploads[job.id].row, PartsOf(s, job.id), s.uploads[job.id].ledger.events;
            var s' := Drive(c, be, s, n, fp);
            if Stranded(parts, job, row) then Ends(s', n, job.id, Completing, events)
            else Ends(s', n, job.id, EndStatus(Succeeds(c, parts, job, row)), events + [EndEvent(Succeeds(c, parts, job, row))])
  {
    hide At, Ends, DoRead, Succeeds, Stranded, PartsOf, ValidConfig;
    var job := s.workers[n].job;
    var row, events := s.uploads[job.id].row, s.uploads[job.id].ledger.events;
    IsAt(s, n, job, Taken, row, events);
    AtRead(s, n, job, row, events);
    DriveRead(c, be, DoRead(s, n), n, fp, job, row, events);
  }
}
