/**
 The ledger is the history: each of its counters is the number of steps of the run that did the deed.  With the
 invariant this turns into statements about the steps themselves: no upload sees a second winning begin, a second
 job, a second merge or a second lifecycle event, on whatever node.
 */
module History {
  import opened Effects
  import opened FinalNames
  import opened Leases
  import opened Protocol
  import opened Repository
  import opened Runs

  /** Begin, finish, fail, claim and abort are won compare-and-sets; the others are what follows from them. */
  datatype Deed = BeginWon | FinishWon | FailWon | ClaimWon | AbortWon | JobQueued | MergeRun | EventPublished

  ghost predicate CallDid(s: State, r: Request, step: CallStep, id: Id, deed: Deed)
    requires CallEnabled(s, r, step)
  {
    match step
    case TryBegin => deed == BeginWon && s.calls[r].id == id && BeginRow(s.uploads[id].row).Some?
    case TryAbort => deed == AbortWon && s.calls[r].id == id && AbortRow(s.uploads[id].row).Some?
    case Enqueue => deed == JobQueued && s.calls[r].id == id
    case PublishAborted(lost) => deed == EventPublished && s.calls[r].id == id && !lost
    case _ => false
  }

  ghost predicate WorkDid(c: Config, s: State, n: Node, step: WorkStep, id: Id, deed: Deed)
    requires WorkEnabled(c, s, n, step)
  {
    match step
    case MergeParts(raced) => deed == MergeRun && s.workers[n].job.id == id
    case MergeThrows(_) => deed == MergeRun && s.workers[n].job.id == id
    case TryFinish => deed == FinishWon && s.workers[n].job.id == id && s.uploads[id].row.status == Completing
    case TryFail => deed == FailWon && s.workers[n].job.id == id && s.uploads[id].row.status == Completing
    case Publish(lost) => deed == EventPublished && s.workers[n].job.id == id && !lost
    case _ => false
  }

  ghost predicate CleanDid(s: State, n: Node, step: CleanStep, id: Id, deed: Deed)
    requires CleanEnabled(s, n, step)
  {
    step.TryClaim? && deed == ClaimWon && s.cleaners[n].listed[s.cleaners[n].next] == id && ClaimRow(s.uploads[id].row, s.clock).Some?
  }

  /** The step does the deed to the upload. */
  ghost predicate Did(c: Config, s: State, step: Step, id: Id, deed: Deed)
    requires Enabled(c, s, step)
  {
    match step
    case Ambient(_) => false
    case Calling(r, calling) => CallDid(s, r, calling, id, deed)
    case Working(n, working) => WorkDid(c, s, n, working, id, deed)
    case Cleaning(n, cleaning) => CleanDid(s, n, cleaning, id, deed)
  }

  function Tally(l: Ledger, deed: Deed): nat {
    match deed
    case BeginWon => l.begins
    case FinishWon => l.finishes
    case FailWon => l.fails
    case ClaimWon => l.claims
    case AbortWon => l.aborts
    case JobQueued => l.jobs
    case MergeRun => l.mergeTries
    case EventPublished => |l.events|
  }

  function One(b: bool): nat { if b then 1 else 0 }

  lemma CallTallies(s: State, r: Request, step: CallStep, id: Id, deed: Deed)
    requires CallEnabled(s, r, step) && id in s.uploads
    ensures var s' := ApplyCall(s, r, step);
            id in s'.uploads && Tally(s'.uploads[id].ledger, deed) == Tally(s.uploads[id].ledger, deed) + One(CallDid(s, r, step, id, deed))
  {
    hide DoBegin, DoEnqueue, DoAbort, DoAbortPublish, EndCall, Forget;
    match step
    case CompleteCall(n, id, checksum) =>
    case TryBegin => BeginEffect(s, r);
    case Enqueue => EnqueueEffect(s, r);
    case AbortCall(n, id) =>
    case TryAbort => AbortEffect(s, r);
    case DeleteAborted =>
    case PublishAborted(lost) => AbortPublishEffect(s, r, lost);
    case CallDies => EndCallEffect(s, r);
  }

  lemma TallyFrom(s: State, s': State, own: Id, l: Ledger, id: Id, deed: Deed)
    requires Books(s, s', own, l) && id in s.uploads
    ensures id in s'.uploads && Tally(s'.uploads[id].ledger, deed) == if id == own then Tally(l, deed) else Tally(s.uploads[id].ledger, deed)
  {
  }

  /** What a worker's step adds to the ledger of the upload it is about. */
  ghost function LedgerAfter(c: Config, s: State, n: Node, step: WorkStep): Ledger
    requires WorkEnabled(c, s, n, step) && !step.TakeJob?
  {
    var w := s.workers[n];
    var l := s.uploads[w.job.id].ledger;
    match step
    case MergeParts(raced) =>
      var m := MergeOf(c, s, n, raced).value;
      l.(mergeTries := l.mergeTries + 1,
         merges := l.merges + [MergeRecord(ResolveFinal(s.finals.Keys, w.job.id, w.phase.snap.fileName), m.bytes, m.hex)])
    case MergeThrows(junk) => l.(mergeTries := l.mergeTries + 1)
    case TryFinish => l.(finishes := l.finishes + One(s.uploads[w.job.id].row.status == Completing))
    case TryFail => l.(fails := l.fails + One(s.uploads[w.job.id].row.status == Completing))
    case Publish(lost) => l.(events := if lost then l.events else l.events + [w.phase.event])
    case _ => l
  }

  lemma WorkBooks(c: Config, be: Backend, s: State, n: Node, step: WorkStep)
    requires WorkEnabled(c, s, n, step) && !step.TakeJob?
    ensures Books(s, ApplyWork(c, be, s, n, step), s.workers[n].job.id, LedgerAfter(c, s, n, step))
  {
    hide DoRead, DoVerify, DoMerge, DoMergeThrows, DoCheck, DoFinish, DoFail, DoPublish, EndJob, MergeOf, ResolveFinal, Books;
    match step
    case ReadRow => ReadEffect(s, n);
    case VerifyParts => VerifyEffect(s, n);
    case MergeParts(raced) => MergeEffect(c, s, n, raced);
    case MergeThrows(junk) => MergeThrowsEffect(s, n, junk);
    case CheckDigest(fingerprint, deleteThrows) => CheckEffect(s, n, fingerprint, deleteThrows);
    case TryFinish => FinishEffect(be, s, n);
    case TryFail => FailEffect(be, s, n);
    case Publish(lost) => PublishEffect(s, n, lost);
    case JobDies => EndJobEffect(s, n);
  }

  lemma WorkTallies(c: Config, be: Backend, s: State, n: Node, step: WorkStep, id: Id, deed: Deed)
    requires WorkEnabled(c, s, n, step) && id in s.uploads
    ensures var s' := ApplyWork(c, be, s, n, step);
            id in s'.uploads && Tally(s'.uploads[id].ledger, deed) == Tally(s.uploads[id].ledger, deed) + One(WorkDid(c, s, n, step, id, deed))
  {
    hide DoTake, DoRead, DoVerify, DoMerge, DoMergeThrows, DoCheck, DoFinish, DoFail, DoPublish, EndJob, MergeOf, ResolveFinal, Books, QueueOf;
    if step.TakeJob? {
      TakeEffect(s, n);
      TallyFrom(s, DoTake(s, n), QueueOf(s, n)[0].id, s.uploads[QueueOf(s, n)[0].id].ledger, id, deed);
    } else {
      WorkBooks(c, be, s, n, step);
      TallyFrom(s, ApplyWork(c, be, s, n, step), s.workers[n].job.id, LedgerAfter(c, s, n, step), id, deed);
    }
  }

  lemma CleanTallies(s: State, n: Node, step: CleanStep, id: Id, deed: Deed)
    requires CleanEnabled(s, n, step) && id in s.uploads
    ensures var s' := ApplyClean(s, n, step);
            id in s'.uploads && Tally(s'.uploads[id].ledger, deed) == Tally(s.uploads[id].ledger, deed) + One(CleanDid(s, n, step, id, deed))
  {
    hide DoClaim, DoCleanDelete;
    match step
    case TryClaim => ClaimEffect(s, n);
    case DeleteClaimed(throws) => CleanDeleteEffect(s, n, throws);
    case _ =>
  }

  lemma AmbientTallies(c: Config, s: State, step: AmbientStep, id: Id, deed: Deed)
    requires AmbientEnabled(c, s, step)
    ensures var s' := ApplyAmbient(c, s, step);
            && (id in s.uploads ==> id in s'.uploads && s'.uploads[id].ledger == s.uploads[id].ledger)
            && (id !in s.uploads && id in s'.uploads ==> s'.uploads[id].ledger == NEW_LEDGER)
  {
    hide LookupResult, WithinLimits, ArgsOk, NewSession, HotSession, Admits, Remember, Forget, PartsOf, StillThere, DoAdmit;
    if !step.Tick? && !step.Initiate? {
      AmbientQuiet(c, s, step);
    }
  }

  ghost function TallyOf(s: State, id: Id, deed: Deed): nat {
    if id in s.uploads then Tally(s.uploads[id].ledger, deed) else 0
  }

  lemma NotThereNotDone(c: Config, s: State, step: Step, id: Id, deed: Deed)
    requires Enabled(c, s, step) && id !in s.uploads
    ensures !Did(c, s, step, id, deed)
  {
    hide AmbientEnabled, MergeOf;
  }

  lemma CallAddsNone(s: State, r: Request, step: CallStep)
    requires CallEnabled(s, r, step)
    ensures ApplyCall(s, r, step).uploads.Keys == s.uploads.Keys
  {
    hide DoBegin, DoEnqueue, DoAbort, DoAbortPublish, EndCall, Forget;
    match step
    case CompleteCall(n, id, checksum) =>
    case TryBegin => BeginEffect(s, r);
    case Enqueue => EnqueueEffect(s, r);
    case AbortCall(n, id) =>
    case TryAbort => AbortEffect(s, r);
    case DeleteAborted =>
    case PublishAborted(lost) => AbortPublishEffect(s, r, lost);
    case CallDies => EndCallEffect(s, r);
  }

  lemma WorkAddsNone(c: Config, be: Backend, s: State, n: Node, step: WorkStep)
    requires WorkEnabled(c, s, n, step)
    ensures ApplyWork(c, be, s, n, step).uploads.Keys == s.uploads.Keys
  {
    hide DoTake, DoRead, DoVerify, DoMerge, DoMergeThrows, DoCheck, DoFinish, DoFail, DoPublish, EndJob, MergeOf, ResolveFinal;
    match step
    case TakeJob => TakeEffect(s, n);
    case ReadRow => ReadEffect(s, n);
    case VerifyParts => VerifyEffect(s, n);
    case MergeParts(raced) => MergeEffect(c, s, n, raced);
    case MergeThrows(junk) => MergeThrowsEffect(s, n, junk);
    case CheckDigest(fingerprint, deleteThrows) => CheckEffect(s, n, fingerprint, deleteThrows);
    case TryFinish => FinishEffect(be, s, n);
    case TryFail => FailEffect(be, s, n);
    case Publish(lost) => PublishEffect(s, n, lost);
    case JobDies => EndJobEffect(s, n);
  }

  lemma CleanAddsNone(s: State, n: Node, step: CleanStep)
    requires CleanEnabled(s, n, step)
    ensures ApplyClean(s, n, step).uploads.Keys == s.uploads.Keys
  {
    hide DoClaim, DoCleanDelete;
    match step
    case TryClaim => ClaimEffect(s, n);
    case DeleteClaimed(throws) => CleanDeleteEffect(s, n, throws);
    case _ =>
  }

  lemma StepTallies(c: Config, be: Backend, s: State, step: Step, id: Id, deed: Deed)
    requires Enabled(c, s, step)
    ensures TallyOf(Apply(c, be, s, step), id, deed) == TallyOf(s, id, deed) + One(Did(c, s, step, id, deed))
  {
    hide AmbientEnabled, CallEnabled, WorkEnabled, CleanEnabled, ApplyAmbient, ApplyCall, ApplyWork, ApplyClean, CallDid, WorkDid, CleanDid;
    if id !in s.uploads {
      NotThereNotDone(c, s, step, id, deed);
    }
    match step
    case Ambient(ambient) => AmbientTallies(c, s, ambient, id, deed);
    case Calling(r, calling) =>
      CallAddsNone(s, r, calling);
      if id in s.uploads {
        CallTallies(s, r, calling, id, deed);
      }
    case Working(n, working) =>
      WorkAddsNone(c, be, s, n, working);
      if id in s.uploads {
        WorkTallies(c, be, s, n, working, id, deed);
      }
    case Cleaning(n, cleaning) =>
      CleanAddsNone(s, n, cleaning);
      if id in s.uploads {
        CleanTallies(s, n, cleaning, id, deed);
      }
  }

  // ---- Whole runs --------------------------------------------------------------------------------------

  /** How often the deed was done to the upload in the first `k` steps. */
  ghost function Count(c: Config, be: Backend, states: seq<State>, steps: seq<Step>, k: nat, id: Id, deed: Deed): nat
    requires IsRun(c, be, states, steps) && k <= |steps|
  {
    if k == 0 then 0
    else Count(c, be, states, steps, k - 1, id, deed) + One(Did(c, states[k - 1], steps[k - 1], id, deed))
  }

  lemma {:induction false} LedgerIsHistory(c: Config, be: Backend, states: seq<State>, steps: seq<Step>, k: nat, id: Id, deed: Deed)
    requires IsRun(c, be, states, steps) && k <= |steps|
    ensures TallyOf(states[k], id, deed) == Count(c, be, states, steps, k, id, deed)
  {
    hide Enabled, Apply, Did;
    if k > 0 {
      LedgerIsHistory(c, be, states, steps, k - 1, id, deed);
      StepTallies(c, be, states[k - 1], steps[k - 1], id, deed);
    }
  }

  lemma {:induction false} CountGrows(c: Config, be: Backend, states: seq<State>, steps: seq<Step>, j: nat, k: nat, id: Id, deed: Deed)
    requires IsRun(c, be, states, steps) && j <= k <= |steps|
    ensures Count(c, be, states, steps, j, id, deed) <= Count(c, be, states, steps, k, id, deed)
    decreases k
  {
    hide Enabled, Apply, Did;
    if j < k {
      CountGrows(c, be, states, steps, j, k - 1, id, deed);
    }
  }

  lemma AtMostOnce(c: Config, u: Upload, deed: Deed)
    requires UploadOk(c, u)
    ensures Tally(u.ledger, deed) <= 1
  {
  }

  lemma GoodUpload(c: Config, s: State, id: Id)
    requires Good(c, s) && id in s.uploads
    ensures UploadOk(c, s.uploads[id])
  {
    hide UploadOk;
  }

  /**
   In every interleaving of any number of nodes, each upload sees at most one winning begin, finish, fail, claim
   and abort, at most one job, at most one merge and at most one lifecycle event: two steps that do the same deed to
   the same upload are the same step.
   */
  lemma OncePerUpload(c: Config, be: Backend, states: seq<State>, steps: seq<Step>, i: nat, j: nat, id: Id, deed: Deed)
    requires ValidConfig(c) && IsRun(c, be, states, steps) && i < |steps| && j < |steps|
    requires Did(c, states[i], steps[i], id, deed) && Did(c, states[j], steps[j], id, deed)
    ensures i == j
  {
    hide Enabled, Apply, Did, ValidConfig, Good, UploadOk;
    var first, last := if i < j then i else j, if i < j then j else i;
    if first < last {
      CountGrows(c, be, states, steps, first + 1, last, id, deed);
    }
    LedgerIsHistory(c, be, states, steps, last + 1, id, deed);
    RunIsGood(c, be, states, steps, last + 1);
    if id in states[last + 1].uploads {
      GoodUpload(c, states[last + 1], id);
      AtMostOnce(c, states[last + 1].uploads[id], deed);
    }
  }

  ghost function CountWins(c: Config, be: Backend, states: seq<State>, steps: seq<Step>, k: nat, id: Id): nat
    requires IsRun(c, be, states, steps) && k <= |steps|
  {
    Count(c, be, states, steps, k, id, BeginWon) + Count(c, be, states, steps, k, id, FinishWon)
    + Count(c, be, states, steps, k, id, FailWon) + Count(c, be, states, steps, k, id, ClaimWon)
    + Count(c, be, states, steps, k, id, AbortWon)
  }

  lemma VersionIsWins(c: Config, u: Upload)
    requires UploadOk(c, u)
    ensures u.row.version == u.ledger.begins + u.ledger.finishes + u.ledger.fails + u.ledger.claims + u.ledger.aborts <= 2
  {
  }

  /** The version of a row is the number of compare-and-sets won on it, and never more than two. */
  lemma VersionCountsWins(c: Config, be: Backend, states: seq<State>, steps: seq<Step>, k: nat, id: Id)
    requires ValidConfig(c) && IsRun(c, be, states, steps) && k <= |steps| && id in states[k].uploads
    ensures states[k].uploads[id].row.version == CountWins(c, be, states, steps, k, id) <= 2
  {
    hide Enabled, Apply, Good, UploadOk, ValidConfig, Count;
    LedgerIsHistory(c, be, states, steps, k, id, BeginWon);
    LedgerIsHistory(c, be, states, steps, k, id, FinishWon);
    LedgerIsHistory(c, be, states, steps, k, id, FailWon);
    LedgerIsHistory(c, be, states, steps, k, id, ClaimWon);
    LedgerIsHistory(c, be, states, steps, k, id, AbortWon);
    RunIsGood(c, be, states, steps, k);
    GoodUpload(c, states[k], id);
    VersionIsWins(c, states[k].uploads[id]);
  }
}
