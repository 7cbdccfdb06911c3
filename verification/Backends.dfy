/**
 The in-memory and the EF repository write different rows when they are handed a null checksum or fingerprint, yet no
 run of the service can tell them apart: it passes a null only when the stored value is null already.
 */
module Backends {
  import opened Base
  import opened LeaseSteps
  import opened Leases
  import opened Protocol
  import opened Repository
  import opened Runs

  lemma SameFinish(c: Config, n: Node, w: Worker, u: Upload, now: int)
    requires UploadOk(c, u) && WorkerOk(c, n, w, u) && w.phase.Finishing?
    ensures FinishRow(InMemory, u.row, w.phase.m.name, w.phase.checksum, w.phase.fingerprint, now)
            == FinishRow(EntityFramework, u.row, w.phase.m.name, w.phase.checksum, w.phase.fingerprint, now)
  {
    BackendsAgreeExactlyWhen(u.row, w.phase.m.name, w.phase.checksum, w.phase.fingerprint, now);
  }

  lemma SameFail(c: Config, n: Node, w: Worker, u: Upload)
    requires UploadOk(c, u) && WorkerOk(c, n, w, u) && w.phase.Failing?
    ensures FailRow(InMemory, u.row, w.phase.checksum) == FailRow(EntityFramework, u.row, w.phase.checksum)
  {
    BackendsAgreeExactlyWhen(u.row, "", w.phase.checksum, None, 0);
  }

  /** Whatever the service does next, both repositories end up with the same rows. */
  lemma BackendsStepAlike(c: Config, s: State, step: Step)
    requires Inv(c, s) && Enabled(c, s, step)
    ensures Apply(c, InMemory, s, step) == Apply(c, EntityFramework, s, step)
  {
    hide Inv, UploadOk, WorkerOk, FinishRow, FailRow, ApplyAmbient, ApplyCall, ApplyClean, AmbientEnabled, CallEnabled, CleanEnabled, MergeOf, Forget,
         DoTake, DoRead, DoVerify, DoMerge, DoMergeThrows, DoCheck, DoPublish, EndJob;
    if step.Working? && step.working.TryFinish? {
      WorkerIn(c, s, step.n);
      SameFinish(c, step.n, s.workers[step.n], s.uploads[s.workers[step.n].job.id], s.clock);
    } else if step.Working? && step.working.TryFail? {
      WorkerIn(c, s, step.n);
      SameFail(c, step.n, s.workers[step.n], s.uploads[s.workers[step.n].job.id]);
    }
  }

  /** A run of the service over one repository is, record for record, a run over the other. */
  lemma BackendsHaveTheSameRuns(c: Config, states: seq<State>, steps: seq<Step>)
    requires ValidConfig(c)
    ensures IsRun(c, InMemory, states, steps) <==> IsRun(c, EntityFramework, states, steps)
  {
    hide Enabled, Apply, ValidConfig, Inv, CleanersOk;
    forall be, k | IsRun(c, be, states, steps) && 0 <= k < |steps|
      ensures Apply(c, InMemory, states[k], steps[k]) == Apply(c, EntityFramework, states[k], steps[k])
    {
      RunIsGood(c, be, states, steps, k);
      BackendsStepAlike(c, states[k], steps[k]);
    }
  }
}
