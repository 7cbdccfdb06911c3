/**
 The calls of UploadService, the background loop and the cleanup cycle in the source's own sequential form: methods
 over shared rows, parts and final objects. Between two awaits the rest of the cluster may move, within `Moved`; and
 whatever such a call does to the rows is again within `Moved`. ServiceRuns shows that runs of the interleaved
 protocol stay within it too.
 */
module Services {
  import opened Base
  import opened Checksums
  import opened FinalNames
  import opened Leases
  import opened Merge
  import opened Protocol
  import opened Repository
  import opened Slots

  // ---- What the rest of the cluster may do -------------------------------------------------------------

  /** How a row may change over time: its shape and ended rows stay, Pending is left once, a checksum waits for the end. */
  predicate RowMoves(r: Session, r': Session) {
    && SameShape(r', r)
    && (r.Terminal() ==> r' == r)
    && (r'.status == Pending ==> r.status == Pending)
    && (r.Active() && r'.Active() ==> r'.checksum == r.checksum)
  }

  predicate RowOk(r: Session) {
    && r.chunkSize > 0 && r.totalChunks > 0
    && (r.Active() && r.checksum.Some? ==> Digest64(r.checksum.value))
  }

  predicate RowsOk(rows: Store) { forall id :: id in rows ==> RowOk(rows[id]) }

  predicate Moved(rows: Store, rows': Store) {
    RowsOk(rows') && forall id :: id in rows ==> id in rows' && RowMoves(rows[id], rows'[id])
  }

  /** A session leased to us can only be taken away by a claim. */
  predicate LeaseKept(rows: Store, rows': Store, held: Option<Id>) {
    held.Some? && held.value in rows && rows[held.value].status == Completing ==>
      held.value in rows' && (rows'[held.value] == rows[held.value] || rows'[held.value].status == Expired)
  }

  lemma MovedTwice(a: Store, b: Store, c: Store)
    requires Moved(a, b) && Moved(b, c)
    ensures Moved(a, c)
  {
    forall id | id in a
      ensures id in c && RowMoves(a[id], c[id])
    {
      assert RowMoves(a[id], b[id]) && RowMoves(b[id], c[id]);
    }
  }

  lemma MovedNot(rows: Store)
    requires RowsOk(rows)
    ensures Moved(rows, rows)
  {
  }

  lemma MovedOne(rows: Store, id: Id, r: Session)
    requires RowsOk(rows) && id in rows && RowMoves(rows[id], r) && RowOk(r)
    ensures Moved(rows, rows[id := r])
  {
  }

  class Cluster {
    var rows: Store
    var parts: map<Id, Parts>
    var finals: map<string, Bytes>
    var clock: int
    /** The compare-and-sets that the calls of this node have won, in order. */
    ghost var ours: seq<(Id, Status)>
    /** The parts that the calls of this node have looked at, in order. */
    ghost var looks: seq<(Id, Parts)>
    /** The jobs that this node has processed, in order. */
    ghost var processed: seq<Job>
    /** The part folders as the last await left them. */
    ghost var folders: map<Id, Parts>

    ghost predicate Valid()
      reads this
    {
      RowsOk(rows)
    }

    /** Other nodes, clients and the clock move. */
    method Await(held: Option<Id>)
      requires Valid()
      modifies this
      ensures Valid() && Moved(old(rows), rows) && LeaseKept(old(rows), rows, held) && old(clock) <= clock
      ensures ours == old(ours) && looks == old(looks) && processed == old(processed) && folders == parts
    {
      MovedNot(rows);
      var rows': Store := *;
      var parts': map<Id, Parts> := *;
      var finals': map<string, Bytes> := *;
      var later: int := *;
      if Moved(rows, rows') && LeaseKept(rows, rows', held) {
        rows := rows';
      }
      parts, finals, folders := parts', finals', parts';
      if later > clock {
        clock := later;
      }
    }

    /** The compare-and-set calls of the repository: whether a row changed. */
    method TrySet(id: Id, next: Option<Session>) returns (won: bool)
      requires Valid() && (next.Some? ==> id in rows && RowMoves(rows[id], next.value) && RowOk(next.value))
      modifies this`rows, this`ours
      ensures Valid() && Moved(old(rows), rows) && won == next.Some?
      ensures ours == if won then old(ours) + [(id, next.value.status)] else old(ours)
      ensures rows == if won then old(rows)[id := next.value] else old(rows)
    {
      MovedNot(rows);
      if next.Some? {
        MovedOne(rows, id, next.value);
        rows, ours := rows[id := next.value], ours + [(id, next.value.status)];
      }
      return next.Some?;
    }

    /** The parts of an upload, as they are now. */
    method GetParts(id: Id) returns (p: Parts)
      modifies this`looks
      ensures p == if id in parts then parts[id] else map[]
      ensures looks == old(looks) + [(id, p)]
    {
      p := if id in parts then parts[id] else map[];
      looks := looks + [(id, p)];
    }
  }

  /** Each transition of a row is a move. */
  lemma TransitionsMove(be: Backend, r: Session, name: string, checksum: Option<string>, fp: Option<string>, now: int)
    requires RowOk(r)
    ensures BeginRow(r).Some? ==> RowMoves(r, BeginRow(r).value) && RowOk(BeginRow(r).value)
    ensures AbortRow(r).Some? ==> RowMoves(r, AbortRow(r).value) && RowOk(AbortRow(r).value)
    ensures ClaimRow(r, now).Some? ==> RowMoves(r, ClaimRow(r, now).value) && RowOk(ClaimRow(r, now).value)
    ensures var f := FinishRow(be, r, name, checksum, fp, now); f.Some? ==> RowMoves(r, f.value) && RowOk(f.value)
    ensures var f := FailRow(be, r, checksum); f.Some? ==> RowMoves(r, f.value) && RowOk(f.value)
  {
  }

  // ---- The job queue -----------------------------------------------------------------------------------

  /** ChannelCompleteJobQueue: an unbounded channel with one reader. */
  class ChannelCompleteJobQueue {
    var channel: seq<Job>
    ghost var written: seq<Job>
    ghost var delivered: seq<Job>

    ghost predicate Valid()
      reads this
    {
      written == delivered + channel
    }

    constructor ()
      ensures Valid() && written == []
    {
      channel, written, delivered := [], [], [];
    }

    method Enqueue(job: Job)
      requires Valid()
      modifies this
      ensures Valid() && written == old(written) + [job] && delivered == old(delivered)
    {
      channel, written := channel + [job], written + [job];
    }

    /** The next job in order of arrival, each delivered once; None while there is none. */
    method Read() returns (job: Option<Job>)
      requires Valid()
      modifies this
      ensures Valid() && written == old(written)
      ensures job.None? ==> delivered == old(delivered) == written
      ensures job.Some? ==> delivered == old(delivered) + [job.value] && delivered <= written
    {
      if channel == [] {
        return None;
      }
      job := Some(channel[0]);
      delivered := delivered + [channel[0]];
      channel := channel[1..];
    }
  }

  // ---- CompleteAsync and AbortAsync --------------------------------------------------------------------

  /** What a request is told; Refused stands for an InvalidOperationException, Threw for one of the storage's. */
  datatype Reply = Done(name: string) | Background | Quiet | Refused | Threw

  /** Enqueues a job exactly when this call took the lease; afterwards the session is not Pending unless refused. */
  method CompleteUpload(cluster: Cluster, queue: ChannelCompleteJobQueue, id: Id, checksum: Option<string>) returns (r: Reply, won: bool)
    requires cluster.Valid() && queue.Valid()
    modifies cluster, queue
    ensures cluster.Valid() && queue.Valid() && Moved(old(cluster.rows), cluster.rows)
    ensures queue.delivered == old(queue.delivered)
    ensures queue.written == old(queue.written) + (if won then [Job(id, checksum)] else [])
    ensures cluster.ours == old(cluster.ours) + (if won then [(id, Completing)] else [])
    ensures won ==> r.Background?
    ensures r.Refused? <==> id !in old(cluster.rows) || var row := old(cluster.rows)[id];
      row.status in {Failed, Aborted, Expired} || (row.status == Pending && row.expiresAt <= old(cluster.clock))
    ensures r.Done? ==> id in cluster.rows && var row := cluster.rows[id];
      row.status == Status.Completed && r.name == if row.finalFileName.Some? then row.finalFileName.value else row.fileName
    ensures r.Background? ==> id in cluster.rows && cluster.rows[id].status != Pending
    ensures id in old(cluster.rows) && old(cluster.rows)[id].status == Status.Completed ==> r.Done?
    ensures id in old(cluster.rows) && old(cluster.rows)[id].status == Completing ==> r.Background? && !won
    ensures r.Refused? ==> cluster.rows == old(cluster.rows)
  {
    won := false;
    MovedNot(cluster.rows);
    if id !in cluster.rows {
      return Refused, false;
    }
    var session := cluster.rows[id];
    if session.status == Status.Completed {
      return Done(if session.finalFileName.Some? then session.finalFileName.value else session.fileName), false;
    }
    if session.status == Completing {
      return Background, false;
    }
    if session.status != Pending || session.IsExpired(cluster.clock) {
      return Refused, false;
    }
    cluster.Await(None);
    ghost var seen := cluster.rows;
    TransitionsMove(InMemory, cluster.rows[id], "", None, None, 0);
    won := cluster.TrySet(id, BeginRow(cluster.rows[id]));
    MovedTwice(old(cluster.rows), seen, cluster.rows);
    if !won {
      ghost var lost := cluster.rows;
      cluster.Await(None);
      MovedTwice(old(cluster.rows), lost, cluster.rows);
      session := cluster.rows[id];
      if session.status == Status.Completed {
        return Done(if session.finalFileName.Some? then session.finalFileName.value else session.fileName), false;
      }
      return Background, false;
    }
    queue.Enqueue(Job(id, checksum));
    return Background, true;
  }

  /** TryAbort: the abort is won, or the session is not Pending any more. */
  method AbortPending(cluster: Cluster, id: Id) returns (won: bool)
    requires cluster.Valid() && id in cluster.rows
    modifies cluster
    ensures cluster.Valid() && Moved(old(cluster.rows), cluster.rows)
    ensures id in cluster.rows && cluster.rows[id].status != Pending && (won ==> cluster.rows[id].status == Aborted)
    ensures cluster.ours == old(cluster.ours) + (if won then [(id, Aborted)] else [])
  {
    hide RowsOk;
    cluster.Await(None);
    ghost var seen := cluster.rows;
    OneRowOk(cluster.rows, id);
    TransitionsMove(InMemory, cluster.rows[id], "", None, None, 0);
    won := cluster.TrySet(id, AbortRow(cluster.rows[id]));
    MovedTwice(old(cluster.rows), seen, cluster.rows);
  }

  lemma NotPendingAgain(rows: Store, rows': Store, id: Id)
    requires Moved(rows, rows') && id in rows && rows[id].status != Pending
    ensures id in rows' && rows'[id].status != Pending
  {
    assert RowMoves(rows[id], rows'[id]);
  }

  /**
   Wins at most one compare-and-set; publishes exactly when it won and the folder deletion returned. A deletion that
   throws after a won abort leaves the session Aborted without an event.
   */
  method AbortUpload(cluster: Cluster, id: Id) returns (r: Reply, won: bool, events: seq<Event>)
    requires cluster.Valid()
    modifies cluster
    ensures cluster.Valid() && Moved(old(cluster.rows), cluster.rows)
    ensures cluster.ours == old(cluster.ours) + (if won then [(id, Aborted)] else [])
    ensures events == if won && r.Quiet? then [AbortedEvent] else []
    ensures won ==> id in cluster.rows && cluster.rows[id].status == Aborted && (r.Quiet? || r.Threw?)
    ensures won ==> cluster.parts == if r.Quiet? then cluster.folders - {id} else cluster.folders
    ensures !won ==> cluster.parts == cluster.folders || cluster.parts == old(cluster.parts)
    ensures r.Threw? ==> won
    ensures r.Quiet? ==> id in cluster.rows && cluster.rows[id].status in {Status.Completed, Failed, Aborted, Expired}
    ensures id !in old(cluster.rows) || old(cluster.rows)[id].status == Completing ==> r.Refused? && !won
    ensures id in old(cluster.rows) && old(cluster.rows)[id].status in {Status.Completed, Failed, Aborted, Expired} ==> r.Quiet? && !won
    ensures r.Refused? && id in old(cluster.rows) ==> cluster.rows[id].status == Completing
  {
    hide RowsOk, RowMoves, LeaseKept;
    won, events := false, [];
    MovedNot(cluster.rows);
    if id !in cluster.rows || cluster.rows[id].status == Completing {
      return Refused, false, [];
    }
    if cluster.rows[id].status != Pending {
      return Quiet, false, [];
    }
    won := AbortPending(cluster, id);
    ghost var tried := cluster.rows;
    cluster.Await(None);
    MovedTwice(old(cluster.rows), tried, cluster.rows);
    Kept(tried, cluster.rows);
    NotPendingAgain(tried, cluster.rows, id);
    if !won {
      return if cluster.rows[id].Terminal() then Quiet else Refused, false, [];
    }
    var throws: bool := *;
    if throws {
      return Threw, true, [];
    }
    cluster.parts := cluster.parts - {id};
    return Quiet, true, [AbortedEvent];
  }

  // ---- ProcessCompleteJobAsync -------------------------------------------------------------------------

  /** FileSystemStorage.MergeAsync: picks the engine. None stands for its exception. */
  method MergeFile(c: Config, parts: Parts, snap: Session, computeHash: bool, degree: nat) returns (r: Option<Merged>)
    requires RowOk(snap) && degree > 0
    ensures r == MergeSpec(c, parts, snap, computeHash)
  {
    hide MergeSpec, SinglePassOutcome, ParallelOutcome;
    var outcome: Outcome;
    if !computeHash {
      outcome := MergeParallel(parts, snap.totalChunks, snap.totalSize, snap.chunkSize, degree, false, c.sha);
    } else if c.singlePassMergeAndHash {
      outcome := MergeSinglePass(parts, snap.totalChunks, snap.totalSize, c.sha);
    } else {
      outcome := MergeParallel(parts, snap.totalChunks, snap.totalSize, snap.chunkSize, degree, true, c.sha);
    }
    MergeSpecIsWhatTheEnginesDo(c, parts, snap, computeHash, outcome);
    r := if outcome.Success? then Some(outcome.value) else None;
  }

  /** What the job of an upload has to meet, read from the row as the worker found it. */
  predicate Met(c: Config, job: Job, before: Session, after: Session, bytes: Bytes) {
    && after.status == Status.Completed && |bytes| == after.totalSize
    && (after.checksum.Some? ==> after.checksum.value == c.sha(bytes))
    && (Expected(job.checksum, before).Some? ==> after.checksum == Expected(job.checksum, before))
    && (c.alwaysComputeFullChecksum ==> after.checksum.Some?)
  }

  /** What a job that published `events` has done to its row. */
  ghost function Deeds(id: Id, events: seq<Event>, row: Session): seq<(Id, Status)> {
    if CompletedEvent in events then [(id, Status.Completed)]
    else if FailedEvent in events && row.status == Failed then [(id, Failed)]
    else []
  }

  /** TryFailComplete and the Failed event; the result of the compare-and-set is not looked at. */
  method FailJob(cluster: Cluster, be: Backend, id: Id, checksum: Option<string>) returns (events: seq<Event>)
    requires cluster.Valid() && id in cluster.rows
    requires cluster.rows[id].status == Completing || cluster.rows[id].status == Expired
    modifies cluster
    ensures cluster.Valid() && Moved(old(cluster.rows), cluster.rows)
    ensures events == [FailedEvent] && id in cluster.rows
    ensures cluster.ours == old(cluster.ours) + (if cluster.rows[id].status == Failed then [(id, Failed)] else [])
    ensures cluster.looks == old(cluster.looks) && cluster.processed == old(cluster.processed)
    ensures cluster.rows[id].status == Failed && checksum.Some? ==> cluster.rows[id].checksum == checksum
    ensures cluster.rows[id].status == Failed || cluster.rows[id].status == Expired
  {
    cluster.Await(Some(id));
    ghost var seen := cluster.rows;
    TransitionsMove(be, cluster.rows[id], "", checksum, None, 0);
    var failed := cluster.TrySet(id, FailRow(be, cluster.rows[id], checksum));
    MovedTwice(old(cluster.rows), seen, cluster.rows);
    return [FailedEvent];
  }

  /** TryFinishComplete: the finish is won, or a claim came first. */
  method FinishCompleting(be: Backend, cluster: Cluster, id: Id, name: string, checksum: Option<string>, fp: Option<string>)
    returns (won: bool)
    requires cluster.Valid() && id in cluster.rows && cluster.rows[id].status in {Completing, Expired}
    modifies cluster
    ensures cluster.Valid() && Moved(old(cluster.rows), cluster.rows) && id in cluster.rows
    ensures cluster.looks == old(cluster.looks) && cluster.processed == old(cluster.processed)
    ensures cluster.ours == old(cluster.ours) + (if won then [(id, Status.Completed)] else [])
    ensures cluster.rows[id].status == if won then Status.Completed else Expired
    ensures won ==>
      && cluster.rows[id].checksum == checksum && cluster.rows[id].finalFileName == Some(name)
      && cluster.rows[id].completedAt == Some(cluster.clock) && (fp.Some? ==> cluster.rows[id].fingerprint == fp)
  {
    hide RowsOk;
    cluster.Await(Some(id));
    ghost var seen := cluster.rows;
    OneRowOk(cluster.rows, id);
    TransitionsMove(be, cluster.rows[id], name, checksum, fp, cluster.clock);
    won := cluster.TrySet(id, FinishRow(be, cluster.rows[id], name, checksum, fp, cluster.clock));
    MovedTwice(old(cluster.rows), seen, cluster.rows);
  }

  /** Checks the digest, finishes and publishes; `fingerprint` is None when computing it throws. */
  method FinishJob(c: Config, be: Backend, cluster: Cluster, id: Id, session: Session, expected: Option<string>,
                   name: string, merged: Merged, fingerprint: Option<string>) returns (events: seq<Event>)
    requires cluster.Valid() && id in cluster.rows && SameShape(cluster.rows[id], session)
    requires cluster.rows[id].status == Completing || cluster.rows[id].status == Expired
    modifies cluster
    ensures cluster.Valid() && Moved(old(cluster.rows), cluster.rows) && id in cluster.rows
    ensures cluster.looks == old(cluster.looks) && cluster.processed == old(cluster.processed)
    ensures Mismatch(expected, merged.hex) ==>
      && events == [FailedEvent] && (cluster.rows[id].status == Failed || cluster.rows[id].status == Expired)
      && (cluster.rows[id].status == Failed ==> cluster.rows[id].checksum == Some(merged.hex))
    ensures !Mismatch(expected, merged.hex) ==>
      && (cluster.rows[id].status == Status.Completed || cluster.rows[id].status == Expired)
      && events == (if cluster.rows[id].status == Status.Completed then [CompletedEvent] else [])
    ensures !Mismatch(expected, merged.hex) && cluster.rows[id].status == Status.Completed ==>
      && cluster.rows[id].checksum == (if merged.hex != "" then Some(merged.hex) else expected)
      && cluster.rows[id].finalFileName == Some(name) && cluster.rows[id].completedAt == Some(cluster.clock)
      && var fp := if fingerprint.Some? then fingerprint else session.fingerprint; (fp.Some? ==> cluster.rows[id].fingerprint == fp)
    ensures cluster.ours == old(cluster.ours) + Deeds(id, events, cluster.rows[id])
  {
    hide Mismatch, RowsOk, RowMoves;
    if Mismatch(expected, merged.hex) {
      cluster.finals := cluster.finals - {name};
      events := FailJob(cluster, be, id, Some(merged.hex));
      return;
    }
    var checksum := if merged.hex != "" then Some(merged.hex) else expected;
    var fp := if fingerprint.Some? then fingerprint else session.fingerprint;
    var won := FinishCompleting(be, cluster, id, name, checksum, fp);
    return if won then [CompletedEvent] else [];
  }

  /** No index is missing and the lengths of the parts add up to the size. */
  ghost predicate Adds(parts: Parts, row: Session) {
    AllPresent(parts, row.totalChunks) && |JoinParts(parts, row.totalChunks)| == row.totalSize
  }

  /** The merge of these parts must succeed: they add up, the chosen engine takes them, and the digest is the expected one. */
  ghost predicate Mergeable(c: Config, job: Job, parts: Parts, row: Session) {
    var expected := Expected(job.checksum, row);
    && Adds(parts, row)
    && (((c.alwaysComputeFullChecksum || expected.Some?) && c.singlePassMergeAndHash)
        || SlotsFilled(parts, row.totalChunks, row.totalSize, row.chunkSize))
    && (expected.Some? ==> expected.value == c.sha(JoinParts(parts, row.totalChunks)))
  }

  /** When the chosen engine succeeds, and when its digest is then not the expected one. */
  lemma MergeableExactlyWhen(c: Config, job: Job, parts: Parts, row: Session, merged: Option<Merged>)
    requires ValidConfig(c) && RowOk(row) && row.Active() && NormalizeChecksum(job.checksum).Success?
    requires merged == MergeSpec(c, parts, row, c.alwaysComputeFullChecksum || Expected(job.checksum, row).Some?)
    ensures Mergeable(c, job, parts, row) <==> merged.Some? && !Mismatch(Expected(job.checksum, row), merged.value.hex)
    ensures Mergeable(c, job, parts, row) ==> merged.value.bytes == JoinParts(parts, row.totalChunks)
  {
    hide NormalizeChecksum, Digest64, EqualsIgnoreCase;
    var expected := Expected(job.checksum, row);
    if SlotsFilled(parts, row.totalChunks, row.totalSize, row.chunkSize) {
      JoinLength(parts, row.totalChunks, row.totalSize, row.chunkSize, row.totalChunks);
    }
    NormalizedIsDigest(job.checksum);
    if merged.Some? && expected.Some? {
      assert Digest64(c.sha(merged.value.bytes));
      DigestIsText(c.sha(merged.value.bytes));
      DigestsCompareExactly(c.sha(merged.value.bytes), expected.value);
    }
  }

  lemma DigestIsText(s: string)
    requires Digest64(s)
    ensures s != ""
  {
  }

  lemma MetByMerge(c: Config, job: Job, before: Session, after: Session, parts: Parts, merged: Merged)
    requires ValidConfig(c) && RowOk(before) && SameShape(after, before) && after.status == Status.Completed
    requires Mergeable(c, job, parts, before) && merged.bytes == JoinParts(parts, before.totalChunks)
    requires merged.hex == if c.alwaysComputeFullChecksum || Expected(job.checksum, before).Some? then c.sha(merged.bytes) else ""
    requires after.checksum == if merged.hex != "" then Some(merged.hex) else Expected(job.checksum, before)
    ensures Met(c, job, before, after, merged.bytes)
  {
    hide Digest64, NormalizeChecksum, SlotsFilled, JoinParts;
    assert Digest64(c.sha(merged.bytes));
    DigestIsText(c.sha(merged.bytes));
  }

  /**
   How the part of a job after verification comes out, exactly: with parts that are Mergeable the session is Completed and
   the event says so, unless a claim came first; otherwise the event is Failed.
   */
  ghost predicate EndsAsMerged(c: Config, job: Job, before: Session, after: Session, parts: Parts, events: seq<Event>) {
    if Mergeable(c, job, parts, before) then
      && (after.status == Status.Completed || after.status == Expired)
      && events == (if after.status == Status.Completed then [CompletedEvent] else [])
      && (after.status == Status.Completed ==> Met(c, job, before, after, JoinParts(parts, before.totalChunks)))
    else
      events == [FailedEvent] && (after.status == Failed || after.status == Expired)
  }

  /** The part of a job after verification: merge, compare, finish or fail. `parts` is what the merge saw. */
  method MergeAndFinish(c: Config, be: Backend, cluster: Cluster, job: Job, session: Session, fingerprint: Option<string>, degree: nat)
    returns (events: seq<Event>, parts: Parts)
    requires ValidConfig(c) && cluster.Valid() && degree > 0 && NormalizeChecksum(job.checksum).Success?
    requires job.id in cluster.rows && cluster.rows[job.id].status in {Completing, Expired}
    requires RowOk(session) && session.Active() && SameShape(cluster.rows[job.id], session)
    modifies cluster
    ensures cluster.Valid() && Moved(old(cluster.rows), cluster.rows) && job.id in cluster.rows
    ensures cluster.looks == old(cluster.looks) + [(job.id, parts)] && cluster.processed == old(cluster.processed)
    ensures EndsAsMerged(c, job, session, cluster.rows[job.id], parts, events)
    ensures cluster.ours == old(cluster.ours) + Deeds(job.id, events, cluster.rows[job.id])
  {
    hide Met, MergeSpec, Mismatch, RowOk, RowsOk, NormalizeChecksum, ValidConfig, Mergeable, JoinParts, Expected, LeaseKept;
    var expected := Expected(job.checksum, session);
    cluster.Await(Some(job.id));
    ghost var atMerge := cluster.rows;
    assert RowMoves(old(cluster.rows)[job.id], atMerge[job.id]);
    ShapeStays(session, old(cluster.rows)[job.id], atMerge[job.id]);
    parts := cluster.GetParts(job.id);
    var merged := MergeFile(c, parts, session, c.alwaysComputeFullChecksum || expected.Some?, degree);
    MergeableExactlyWhen(c, job, parts, session, merged);
    if merged.None? {
      events := FailJob(cluster, be, job.id, session.checksum);
    } else {
      assert merged.value.hex == if c.alwaysComputeFullChecksum || expected.Some? then c.sha(merged.value.bytes) else "" by {
        ShapeIsSound(session);
        MergeSpecSize(c, parts, session, c.alwaysComputeFullChecksum || expected.Some?);
      }
      var name := ResolveFinal(cluster.finals.Keys, job.id, session.fileName);
      cluster.finals := cluster.finals[name := merged.value.bytes];
      cluster.parts := cluster.parts - {job.id};
      events := FinishJob(c, be, cluster, job.id, session, expected, name, merged.value, fingerprint);
      if Mergeable(c, job, parts, session) && cluster.rows[job.id].status == Status.Completed {
        ShapeStays(session, atMerge[job.id], cluster.rows[job.id]);
        MetByMerge(c, job, session, cluster.rows[job.id], parts, merged.value);
      }
    }
    MovedTwice(old(cluster.rows), atMerge, cluster.rows);
  }

  lemma ShapeIsSound(row: Session)
    requires RowOk(row)
    ensures row.chunkSize > 0 && row.totalChunks > 0
  {
  }

  /** What the parallel check reports, in terms of the parts. */
  lemma ReportMeansAdds(parts: Parts, row: Session, missing: multiset<nat>, bytes: nat)
    requires forall i: nat :: missing[i] == if i < row.totalChunks && i !in parts then 1 else 0
    requires bytes == BytesOnDisk(parts, row.totalChunks)
    ensures Adds(parts, row) <==> missing == multiset{} && bytes == row.totalSize
  {
    hide BytesOnDisk, JoinParts;
    if AllPresent(parts, row.totalChunks) {
      assert forall i: nat :: missing[i] == 0;
      BytesOnDiskAreJoined(parts, row.totalChunks);
    } else {
      var i :| 0 <= i < row.totalChunks && i !in parts;
      assert missing[i] == 1;
    }
  }

  /**
   Runs a job for a session leased to this node; `verified` and `merged` are the parts it saw at verification and at the
   merge. The outcome is exact: a session not found Completing is left alone; parts that do not add up fail it; a
   malformed checksum throws and leaves the row to others; otherwise it ends as the merged parts say.
   */
  method ProcessCompleteJob(c: Config, be: Backend, cluster: Cluster, job: Job, fingerprint: Option<string>, degree: nat)
    returns (events: seq<Event>, threw: bool, verified: Parts, merged: Parts)
    requires ValidConfig(c) && cluster.Valid() && degree > 0
    modifies cluster
    ensures cluster.Valid() && Moved(old(cluster.rows), cluster.rows) && cluster.processed == old(cluster.processed) + [job]
    ensures var found := job.id in old(cluster.rows) && old(cluster.rows)[job.id].status == Completing;
      if !found then events == [] && !threw && cluster.rows == old(cluster.rows) && cluster.ours == old(cluster.ours)
      else
        var before := old(cluster.rows)[job.id];
        && job.id in cluster.rows
        && cluster.ours == old(cluster.ours) + Deeds(job.id, events, cluster.rows[job.id])
        && (threw <==> Adds(verified, before) && NormalizeChecksum(job.checksum).Failure?)
        && (if !Adds(verified, before) then
              && events == [FailedEvent] && (cluster.rows[job.id].status == Failed || cluster.rows[job.id].status == Expired)
              && cluster.looks == old(cluster.looks) + [(job.id, verified)]
            else if threw then
              && events == [] && (cluster.rows[job.id].status == Completing || cluster.rows[job.id].status == Expired)
              && cluster.looks == old(cluster.looks) + [(job.id, verified)]
            else
              && EndsAsMerged(c, job, before, cluster.rows[job.id], merged, events)
              && cluster.looks == old(cluster.looks) + [(job.id, verified), (job.id, merged)])
  {
    hide Met, RowOk, NormalizeChecksum, ValidConfig, BytesOnDisk, Adds, EndsAsMerged;
    events, threw, verified, merged := [], false, map[], map[];
    cluster.processed := cluster.processed + [job];
    MovedNot(cluster.rows);
    if job.id !in cluster.rows || cluster.rows[job.id].status != Completing {
      return;
    }
    var session := cluster.rows[job.id];
    assert RowOk(session);
    cluster.Await(Some(job.id));
    ghost var rows := cluster.rows;
    assert RowMoves(session, rows[job.id]);
    verified := cluster.GetParts(job.id);
    var missing, bytesOnDisk := VerifyChunksParallel(verified, session.totalChunks);
    ReportMeansAdds(verified, session, missing, bytesOnDisk);
    if missing != multiset{} || bytesOnDisk != session.totalSize {
      events := FailJob(cluster, be, job.id, session.checksum);
    } else if NormalizeChecksum(job.checksum).Failure? {
      threw := true;
    } else {
      events, merged := MergeAndFinish(c, be, cluster, job, session, fingerprint, degree);
    }
    if !threw {
      MovedTwice(old(cluster.rows), rows, cluster.rows);
    }
  }

  lemma ShapeStays(a: Session, b: Session, c: Session)
    requires SameShape(b, a) && SameShape(c, b)
    ensures SameShape(c, a)
  {
  }

  // ---- The background loop -----------------------------------------------------------------------------

  /**
   CompleteBackgroundService, for any number of turns: jobs run one at a time in the order they were written, each once;
   one that throws does not stop the loop. Requests write more jobs between turns.
   */
  method RunJobs(c: Config, be: Backend, cluster: Cluster, queue: ChannelCompleteJobQueue, degree: nat, turns: nat)
    returns (ran: seq<Job>)
    requires ValidConfig(c) && cluster.Valid() && queue.Valid() && degree > 0
    modifies cluster, queue
    ensures cluster.Valid() && queue.Valid() && Moved(old(cluster.rows), cluster.rows)
    ensures queue.delivered == old(queue.delivered) + ran && queue.delivered <= queue.written && old(queue.written) <= queue.written
    ensures cluster.processed == old(cluster.processed) + ran
  {
    hide ValidConfig, RowsOk, RowMoves, Adds, EndsAsMerged, Deeds, NormalizeChecksum;
    ran := [];
    MovedNot(cluster.rows);
    for turn := 0 to turns
      invariant cluster.Valid() && queue.Valid() && Moved(old(cluster.rows), cluster.rows)
      invariant queue.delivered == old(queue.delivered) + ran && old(queue.written) <= queue.written
      invariant cluster.processed == old(cluster.processed) + ran
    {
      ghost var before := cluster.rows;
      var written: Option<Job> := *;
      if written.Some? {
        queue.Enqueue(written.value);
      }
      var job := queue.Read();
      if job.Some? {
        ran := ran + [job.value];
        var fingerprint: Option<string> := *;
        var events, threw, verified, merged := ProcessCompleteJob(c, be, cluster, job.value, fingerprint, degree);
        MovedTwice(old(cluster.rows), before, cluster.rows);
      }
    }
  }

  // ---- The cleanup cycle -------------------------------------------------------------------------------

  /** GetExpiredPending: the expired sessions in some order. */
  method ListExpired(cluster: Cluster) returns (listed: seq<Id>)
    ensures forall id :: id in listed <==> id in cluster.rows && cluster.rows[id].IsExpired(cluster.clock)
    ensures forall i, j :: 0 <= i < j < |listed| ==> listed[i] != listed[j]
  {
    listed := [];
    var todo := cluster.rows.Keys;
    while todo != {}
      invariant todo <= cluster.rows.Keys
      invariant forall id :: id in listed <==> id in cluster.rows && id !in todo && cluster.rows[id].IsExpired(cluster.clock)
      invariant forall i, j :: 0 <= i < j < |listed| ==> listed[i] != listed[j]
      decreases todo
    {
      var id :| id in todo;
      if cluster.rows[id].IsExpired(cluster.clock) {
        listed := listed + [id];
      }
      todo := todo - {id};
    }
  }

  /** How one candidate of a cycle fared; a claim call that throws counts neither way. */
  datatype Cleaned = Claimed(deleted: bool) | Skipped | ClaimThrew

  /** TryClaimExpired: the claim is won, or the session has ended otherwise. */
  method ClaimExpired(cluster: Cluster, id: Id) returns (won: bool)
    requires cluster.Valid() && id in cluster.rows && cluster.rows[id].expiresAt <= cluster.clock
    modifies cluster
    ensures cluster.Valid() && Moved(old(cluster.rows), cluster.rows) && old(cluster.clock) <= cluster.clock
    ensures id in cluster.rows && cluster.rows[id].Terminal() && (won ==> cluster.rows[id].status == Expired)
    ensures cluster.ours == old(cluster.ours) + (if won then [(id, Expired)] else []) && cluster.parts == cluster.folders
  {
    hide RowsOk;
    cluster.Await(None);
    ghost var seen := cluster.rows;
    assert RowMoves(old(cluster.rows)[id], cluster.rows[id]);
    OneRowOk(cluster.rows, id);
    TransitionsMove(InMemory, cluster.rows[id], "", None, None, cluster.clock);
    won := cluster.TrySet(id, ClaimRow(cluster.rows[id], cluster.clock));
    MovedTwice(old(cluster.rows), seen, cluster.rows);
  }

  /** Claims one candidate and, having won, deletes its part folder; the deletion may throw. */
  method CleanOne(cluster: Cluster, id: Id) returns (how: Cleaned)
    requires cluster.Valid() && id in cluster.rows && cluster.rows[id].expiresAt <= cluster.clock
    modifies cluster
    ensures cluster.Valid() && Moved(old(cluster.rows), cluster.rows) && old(cluster.clock) <= cluster.clock
    ensures id in cluster.rows && (how.Claimed? ==> cluster.rows[id].status == Expired) && (how.Skipped? ==> cluster.rows[id].Terminal())
    ensures cluster.parts == if how == Claimed(true) then cluster.folders - {id} else cluster.folders
    ensures cluster.ours == old(cluster.ours) + (if how.Claimed? then [(id, Expired)] else [])
  {
    hide RowsOk, RowMoves, LeaseKept;
    var throws: bool := *;
    if throws {
      cluster.Await(None);
      return ClaimThrew;
    }
    var won := ClaimExpired(cluster, id);
    if !won {
      return Skipped;
    }
    ghost var taken := cluster.rows;
    cluster.Await(None);
    MovedTwice(old(cluster.rows), taken, cluster.rows);
    Kept(taken, cluster.rows);
    var deletes: bool := *;
    if deletes {
      cluster.parts := cluster.parts - {id};
    }
    return Claimed(deletes);
  }

  lemma StillExpired(rows: Store, rows': Store, id: Id, listedAt: int, now: int)
    requires Moved(rows, rows') && id in rows && rows[id].IsExpired(listedAt) && listedAt <= now
    ensures id in rows' && rows'[id].expiresAt <= now
  {
    assert RowMoves(rows[id], rows'[id]);
  }

  /**
   One cycle. Every listed session whose claim call returned is terminal afterwards, whatever others did meanwhile;
   folders are deleted only of sessions this cycle moved to Expired, and the counters add up.
   */
  method CleanupOnce(cluster: Cluster) returns (claimed: nat, skipped: nat, listed: seq<Id>, failed: set<Id>, deleted: set<Id>)
    requires cluster.Valid()
    modifies cluster
    ensures cluster.Valid() && Moved(old(cluster.rows), cluster.rows)
    ensures forall id :: id in listed <==> id in old(cluster.rows) && old(cluster.rows)[id].IsExpired(old(cluster.clock))
    ensures forall id :: id in listed && id !in failed ==> id in cluster.rows && cluster.rows[id].Terminal()
    ensures forall id :: id in deleted ==> id in listed && id in cluster.rows && cluster.rows[id].status == Expired
    ensures failed == {} ==> claimed + skipped == |listed|
    ensures |deleted| <= claimed && |cluster.ours| == |old(cluster.ours)| + claimed
  {
    hide RowsOk, RowMoves, Moved;
    claimed, skipped, failed, deleted := 0, 0, {}, {};
    listed := ListExpired(cluster);
    MovedNot(cluster.rows);
    for i := 0 to |listed|
      invariant cluster.Valid() && Moved(old(cluster.rows), cluster.rows) && old(cluster.clock) <= cluster.clock
      invariant forall k :: 0 <= k < i && listed[k] !in failed ==> listed[k] in cluster.rows && cluster.rows[listed[k]].Terminal()
      invariant forall id :: id in deleted ==> id in listed && id in cluster.rows && cluster.rows[id].status == Expired
      invariant claimed + skipped <= i && (failed == {} ==> claimed + skipped == i) && |deleted| <= claimed
      invariant |cluster.ours| == |old(cluster.ours)| + claimed
    {
      ghost var before := cluster.rows;
      StillExpired(old(cluster.rows), before, listed[i], old(cluster.clock), cluster.clock);
      var how := CleanOne(cluster, listed[i]);
      MovedTwice(old(cluster.rows), before, cluster.rows);
      Kept(before, cluster.rows);
      match how
      case Claimed(gone) =>
        claimed := claimed + 1;
        deleted := if gone then deleted + {listed[i]} else deleted;
      case Skipped => skipped := skipped + 1;
      case ClaimThrew => failed := failed + {listed[i]};
    }
  }

  lemma OneRowOk(rows: Store, id: Id)
    requires RowsOk(rows) && id in rows
    ensures RowOk(rows[id])
  {
  }

  /** Terminal rows stay as they are. */
  lemma Kept(rows: Store, rows': Store)
    requires Moved(rows, rows')
    ensures forall id :: id in rows && rows[id].Terminal() ==> id in rows' && rows'[id] == rows[id]
  {
    forall id | id in rows && rows[id].Terminal()
      ensures id in rows' && rows'[id] == rows[id]
    {
      assert RowMoves(rows[id], rows'[id]);
    }
  }
}
