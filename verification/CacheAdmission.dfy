/**
 Chunk admission from the session cache: whatever a node's cache serves is the row as it stood at some earlier moment
 of the run, and no older than the cache lifetime.
 */
module CacheAdmission {
  import opened Effects
  import opened FinalNames
  import opened Leases
  import opened Protocol
  import opened Repository
  import opened Runs
  import opened SessionCaching

  /** An entry of node `n` after a step was there before, or is the row as the step left it. */
  ghost predicate EntryFrom(c: Config, s: State, s': State, n: Node, id: Id) {
    id in CacheOf(s', n) ==>
      || (id in CacheOf(s, n) && CacheOf(s', n)[id] == CacheOf(s, n)[id])
      || (id in s'.uploads && CacheOf(s', n)[id] == Entry(s'.uploads[id].row, s'.clock + c.cacheTtl))
  }

  lemma ForgetFrom(c: Config, s: State, s': State, who: Node, what: Id, n: Node, id: Id)
    requires s'.caches == Forget(s, who, what)
    ensures EntryFrom(c, s, s', n, id)
  {
  }

  lemma RememberFrom(c: Config, s: State, s': State, who: Node, what: Id, n: Node, id: Id)
    requires what in s'.uploads && s'.clock == s.clock && s'.caches == Remember(c, s, who, what, s'.uploads[what].row)
    ensures EntryFrom(c, s, s', n, id)
  {
  }

  lemma SameFrom(c: Config, s: State, s': State, n: Node, id: Id)
    requires s'.caches == s.caches
    ensures EntryFrom(c, s, s', n, id)
  {
  }

  lemma AmbientFrom(c: Config, s: State, step: AmbientStep, n: Node, id: Id)
    requires AmbientEnabled(c, s, step)
    ensures EntryFrom(c, s, ApplyAmbient(c, s, step), n, id)
  {
    hide LookupResult, WithinLimits, ArgsOk, HotSession, Admits, StillThere, PartsOf, Remember, Forget, NewSession, EntryFrom, ServedFromCache;
    var s' := ApplyAmbient(c, s, step);
    match step
    case Initiate(m, what, args, _) => RememberFrom(c, s, s', m, what, n, id);
    case Refresh(m, what) => RememberFrom(c, s, s', m, what, n, id);
    case Evict(m, what) => ForgetFrom(c, s, s', m, what, n, id);
    case AdmitChunk(m, what, _) =>
      if ServedFromCache(s, m, what) {
        SameFrom(c, s, s', n, id);
      } else {
        RememberFrom(c, s, s', m, what, n, id);
      }
    case _ => SameFrom(c, s, s', n, id);
  }

  lemma CallFrom(c: Config, s: State, r: Request, step: CallStep, n: Node, id: Id)
    requires CallEnabled(s, r, step)
    ensures EntryFrom(c, s, ApplyCall(s, r, step), n, id)
  {
    hide DoBegin, DoEnqueue, DoAbort, DoAbortPublish, EndCall, Forget, Books, EntryFrom;
    var s' := ApplyCall(s, r, step);
    match step
    case CompleteCall(m, what, _) => ForgetFrom(c, s, s', m, what, n, id);
    case TryBegin => BeginEffect(s, r); SameFrom(c, s, s', n, id);
    case Enqueue => EnqueueEffect(s, r); SameFrom(c, s, s', n, id);
    case AbortCall(m, what) => ForgetFrom(c, s, s', m, what, n, id);
    case TryAbort => AbortEffect(s, r); SameFrom(c, s, s', n, id);
    case DeleteAborted => ForgetFrom(c, s, s', s.calls[r].node, s.calls[r].id, n, id);
    case PublishAborted(lost) => AbortPublishEffect(s, r, lost); SameFrom(c, s, s', n, id);
    case CallDies => EndCallEffect(s, r); SameFrom(c, s, s', n, id);
  }

  lemma FinishFrom(c: Config, be: Backend, s: State, m: Node, n: Node, id: Id)
    requires WorkEnabled(c, s, m, TryFinish)
    ensures EntryFrom(c, s, DoFinish(be, s, m), n, id)
  {
    hide EntryFrom, Forget, FinishRow, MergeOf;
    var w := s.workers[m];
    if FinishRow(be, s.uploads[w.job.id].row, w.phase.m.name, w.phase.checksum, w.phase.fingerprint, s.clock).Some? {
      ForgetFrom(c, s, DoFinish(be, s, m), m, w.job.id, n, id);
    } else {
      SameFrom(c, s, DoFinish(be, s, m), n, id);
    }
  }

  lemma FailFrom(c: Config, be: Backend, s: State, m: Node, n: Node, id: Id)
    requires WorkEnabled(c, s, m, TryFail)
    ensures EntryFrom(c, s, DoFail(be, s, m), n, id)
  {
    hide EntryFrom, Forget, FailRow, MergeOf;
    ForgetFrom(c, s, DoFail(be, s, m), m, s.workers[m].job.id, n, id);
  }

  lemma WorkFrom(c: Config, be: Backend, s: State, m: Node, step: WorkStep, n: Node, id: Id)
    requires WorkEnabled(c, s, m, step)
    ensures EntryFrom(c, s, ApplyWork(c, be, s, m, step), n, id)
  {
    hide DoTake, DoRead, DoVerify, DoMerge, DoMergeThrows, DoCheck, DoFinish, DoFail, DoPublish, EndJob, MergeOf, Books, ResolveFinal, EntryFrom;
    var s' := ApplyWork(c, be, s, m, step);
    match step
    case TakeJob => TakeEffect(s, m); SameFrom(c, s, s', n, id);
    case ReadRow => ReadEffect(s, m); SameFrom(c, s, s', n, id);
    case VerifyParts => VerifyEffect(s, m); SameFrom(c, s, s', n, id);
    case MergeParts(raced) => MergeEffect(c, s, m, raced); SameFrom(c, s, s', n, id);
    case MergeThrows(junk) => MergeThrowsEffect(s, m, junk); SameFrom(c, s, s', n, id);
    case CheckDigest(fingerprint, deleteThrows) => CheckEffect(s, m, fingerprint, deleteThrows); SameFrom(c, s, s', n, id);
    case TryFinish => FinishFrom(c, be, s, m, n, id);
    case TryFail => FailFrom(c, be, s, m, n, id);
    case Publish(lost) => PublishEffect(s, m, lost); SameFrom(c, s, s', n, id);
    case JobDies => EndJobEffect(s, m); SameFrom(c, s, s', n, id);
  }

  lemma CleanFrom(c: Config, s: State, m: Node, step: CleanStep, n: Node, id: Id)
    requires CleanEnabled(s, m, step)
    ensures EntryFrom(c, s, ApplyClean(s, m, step), n, id)
  {
    hide DoClaim, DoCleanDelete, Books, EntryFrom;
    match step
    case TryClaim => ClaimEffect(s, m); SameFrom(c, s, ApplyClean(s, m, step), n, id);
    case DeleteClaimed(throws) => CleanDeleteEffect(s, m, throws); SameFrom(c, s, ApplyClean(s, m, step), n, id);
    case _ => SameFrom(c, s, ApplyClean(s, m, step), n, id);
  }

  lemma StepFrom(c: Config, be: Backend, s: State, step: Step, n: Node, id: Id)
    requires Enabled(c, s, step)
    ensures EntryFrom(c, s, Apply(c, be, s, step), n, id)
  {
    hide AmbientEnabled, CallEnabled, WorkEnabled, CleanEnabled, ApplyAmbient, ApplyCall, ApplyWork, ApplyClean, EntryFrom;
    match step
    case Ambient(ambient) => AmbientFrom(c, s, ambient, n, id);
    case Calling(r, calling) => CallFrom(c, s, r, calling, n, id);
    case Working(m, working) => WorkFrom(c, be, s, m, working, n, id);
    case Cleaning(m, cleaning) => CleanFrom(c, s, m, cleaning, n, id);
  }

  /** The step of node `n` starts to end upload `id`, or ends it: complete and abort calls, deletion after an abort, a won finish, a failure. */
  ghost predicate Ends(s: State, step: Step, n: Node, id: Id) {
    match step
    case Calling(_, CompleteCall(m, i, _)) => m == n && i == id
    case Calling(_, AbortCall(m, i)) => m == n && i == id
    case Calling(r, DeleteAborted) => r in s.calls && s.calls[r].node == n && s.calls[r].id == id
    case Working(m, TryFinish) => m == n && m in s.workers && s.workers[m].job.id == id && id in s.uploads && s.uploads[id].row.status == Completing
    case Working(m, TryFail) => m == n && m in s.workers && s.workers[m].job.id == id
    case _ => false
  }

  lemma FinishForgets(be: Backend, s: State, n: Node)
    requires Busy(s, n) && s.workers[n].phase.Finishing? && s.uploads[s.workers[n].job.id].row.status == Completing
    ensures DoFinish(be, s, n).caches == Forget(s, n, s.workers[n].job.id)
  {
    hide Forget;
  }

  lemma FailForgets(be: Backend, s: State, n: Node)
    requires Busy(s, n) && s.workers[n].phase.Failing?
    ensures DoFail(be, s, n).caches == Forget(s, n, s.workers[n].job.id)
  {
    hide Forget, FailRow;
  }

  /** The node that ends an upload does not serve it from its cache afterwards, until it looks it up again. */
  lemma EndingForgets(c: Config, be: Backend, s: State, step: Step, n: Node, id: Id)
    requires Enabled(c, s, step) && Ends(s, step, n, id)
    ensures !ServedFromCache(Apply(c, be, s, step), n, id)
  {
    hide DoFinish, DoFail, MergeOf, Forget, ServedFromCache, DoBegin, DoEnqueue, DoAbort, DoAbortPublish, EndCall, AmbientEnabled;
    var s' := Apply(c, be, s, step);
    match step
    case Calling(_, CompleteCall(_, _, _)) => ForgottenIsNotServed(s, s', n, id);
    case Calling(_, AbortCall(_, _)) => ForgottenIsNotServed(s, s', n, id);
    case Calling(_, DeleteAborted) => ForgottenIsNotServed(s, s', n, id);
    case Working(m, TryFinish) => FinishForgets(be, s, m); ForgottenIsNotServed(s, s', n, id);
    case Working(m, TryFail) => FailForgets(be, s, m); ForgottenIsNotServed(s, s', n, id);
  }

  lemma ForgottenIsNotServed(s: State, s': State, n: Node, id: Id)
    requires s'.caches == Forget(s, n, id)
    ensures !ServedFromCache(s', n, id)
  {
  }

  /** The cached entry is the row as it stood in state `j` of the run, put into the cache then. */
  ghost predicate SnapshotOf(c: Config, states: seq<State>, j: nat, id: Id, e: Entry) {
    && j < |states| && id in states[j].uploads
    && e == Entry(states[j].uploads[id].row, states[j].clock + c.cacheTtl)
  }

  lemma {:induction false} CachedRowsAreSnapshots(c: Config, be: Backend, states: seq<State>, steps: seq<Step>, k: nat, n: Node, id: Id)
      returns (j: nat)
    requires IsRun(c, be, states, steps) && k < |states| && id in CacheOf(states[k], n)
    ensures j <= k && SnapshotOf(c, states, j, id, CacheOf(states[k], n)[id])
  {
    hide Enabled, Apply;
    j := k;
    if k > 0 {
      StepFrom(c, be, states[k - 1], steps[k - 1], n, id);
      if id in CacheOf(states[k - 1], n) && CacheOf(states[k], n)[id] == CacheOf(states[k - 1], n)[id] {
        j := CachedRowsAreSnapshots(c, be, states, steps, k - 1, n, id);
      }
    }
  }

  lemma {:induction false} BornStays(c: Config, be: Backend, states: seq<State>, steps: seq<Step>, j: nat, k: nat, id: Id)
    requires ValidConfig(c) && IsRun(c, be, states, steps) && j <= k < |states| && id in states[j].uploads
    ensures id in states[k].uploads && states[k].uploads[id].born == states[j].uploads[id].born
    decreases k
  {
    hide Enabled, Apply, ValidConfig, Inv, CleanersOk;
    if j < k {
      BornStays(c, be, states, steps, j, k - 1, id);
      RunIsGood(c, be, states, steps, k - 1);
      StepKeeps(c, be, states[k - 1], steps[k - 1]);
      assert Moves(states[k - 1].uploads[id], states[k].uploads[id]);
    }
  }

  lemma ShapeOf(c: Config, be: Backend, states: seq<State>, steps: seq<Step>, k: nat, id: Id)
    requires ValidConfig(c) && IsRun(c, be, states, steps) && k < |states| && id in states[k].uploads
    ensures SameShape(states[k].uploads[id].row, states[k].uploads[id].born)
  {
    hide Enabled, Apply, ValidConfig, StatusOk, WorkOk, EventsOk, BornOk, CallsOk, QueuesOk, WorkersOk, CleanersOk;
    RunIsGood(c, be, states, steps, k);
    assert UploadOk(c, states[k].uploads[id]);
  }

  /** In state `j` the session was Pending, less than a cache lifetime before state `k`. */
  ghost predicate PendingLately(c: Config, states: seq<State>, j: nat, k: nat, id: Id) {
    && j <= k < |states| && id in states[j].uploads && states[j].uploads[id].row.status == Pending
    && states[k].clock < states[j].clock + c.cacheTtl
  }

  /**
   A chunk admitted from the cache belongs to a session that was Pending in the repository less than a cache lifetime
   ago, and the verdict on its index and expiry is the one a fresh Pending read would give.
   */
  lemma AdmittedFromCacheWasPending(c: Config, be: Backend, states: seq<State>, steps: seq<Step>, k: nat, n: Node, id: Id, index: nat)
    requires ValidConfig(c) && IsRun(c, be, states, steps) && k < |steps|
    requires steps[k] == Ambient(AdmitChunk(n, id, index)) && ServedFromCache(states[k], n, id)
    ensures exists j :: PendingLately(c, states, j, k, id)
    ensures id in states[k].uploads
    ensures index < states[k].uploads[id].row.totalChunks && states[k].clock < states[k].uploads[id].row.expiresAt
  {
    hide ValidConfig, Apply, SameShape;
    var j := CachedRowsAreSnapshots(c, be, states, steps, k, n, id);
    BornStays(c, be, states, steps, j, k, id);
    ShapeOf(c, be, states, steps, j, id);
    ShapeOf(c, be, states, steps, k, id);
    SameLimits(states[j].uploads[id].row, states[k].uploads[id].row, states[j].uploads[id].born);
    assert Enabled(c, states[k], steps[k]);
    assert Admits(states[j].uploads[id].row, states[k].clock, index);
    assert PendingLately(c, states, j, k, id);
  }

  /**
   For a Pending session every node admits exactly the unexpired chunks of its range, whether it looks at its cache or
   at the repository; any other session is admitted only on the word of a cache that saw it Pending lately.
   */
  lemma AdmittedExactlyWhen(c: Config, be: Backend, states: seq<State>, steps: seq<Step>, k: nat, n: Node, id: Id, index: nat)
    requires ValidConfig(c) && IsRun(c, be, states, steps) && k < |states| && id in states[k].uploads
    ensures var row, admitted := states[k].uploads[id].row, Enabled(c, states[k], Ambient(AdmitChunk(n, id, index)));
            && (row.status == Pending ==> (admitted <==> states[k].clock < row.expiresAt && index < row.totalChunks))
            && (admitted ==> row.status == Pending || exists j :: PendingLately(c, states, j, k, id))
  {
    hide ValidConfig, Apply, SameShape, IsRun;
    if ServedFromCache(states[k], n, id) {
      var j := CachedRowsAreSnapshots(c, be, states, steps, k, n, id);
      BornStays(c, be, states, steps, j, k, id);
      ShapeOf(c, be, states, steps, j, id);
      ShapeOf(c, be, states, steps, k, id);
      SameLimits(states[j].uploads[id].row, states[k].uploads[id].row, states[j].uploads[id].born);
      assert PendingLately(c, states, j, k, id);
    }
  }

  lemma SameLimits(r: Session, r': Session, b: Session)
    requires SameShape(r, b) && SameShape(r', b)
    ensures r.totalChunks == r'.totalChunks && r.expiresAt == r'.expiresAt
  {
  }
}
