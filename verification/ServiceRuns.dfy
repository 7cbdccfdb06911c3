/**
 Runs of the interleaved protocol stay within what the sequential services of Services count on: rows change only as
 `Moved` says, and a session whose job a worker holds is taken away by nothing but a claim.
 */
module ServiceRuns {
  import opened Base
  import opened CacheAdmission
  import opened Guarantees
  import opened Leases
  import opened Protocol
  import opened Repository
  import opened Runs
  import opened Services

  function RowsOf(s: State): Store { map id | id in s.uploads :: s.uploads[id].row }

  lemma UploadRowOk(c: Config, u: Upload)
    requires UploadOk(c, u)
    ensures RowOk(u.row)
    ensures u.row.Active() ==> u.row.checksum == u.born.checksum
  {
  }

  lemma RunRowsOk(c: Config, be: Backend, states: seq<State>, steps: seq<Step>, k: nat)
    requires ValidConfig(c) && IsRun(c, be, states, steps) && k < |states|
    ensures RowsOk(RowsOf(states[k]))
  {
    hide Enabled, Apply, ValidConfig, UploadOk, RowOk;
    forall id | id in RowsOf(states[k])
      ensures RowOk(RowsOf(states[k])[id])
    {
      ReachedUpload(c, be, states, steps, k, id);
      UploadRowOk(c, states[k].uploads[id]);
    }
  }

  lemma SameShapeOf(r: Session, r': Session, b: Session)
    requires SameShape(r, b) && SameShape(r', b)
    ensures SameShape(r', r)
  {
  }

  lemma RunRowMoves(c: Config, be: Backend, states: seq<State>, steps: seq<Step>, j: nat, k: nat, id: Id)
    requires ValidConfig(c) && IsRun(c, be, states, steps) && j <= k < |states| && id in states[j].uploads
    ensures id in states[k].uploads && RowMoves(states[j].uploads[id].row, states[k].uploads[id].row)
  {
    hide Enabled, Apply, ValidConfig, UploadOk, SameShape;
    EndedRowsStay(c, be, states, steps, j, k, id);
    BornStays(c, be, states, steps, j, k, id);
    ShapeOf(c, be, states, steps, j, id);
    ShapeOf(c, be, states, steps, k, id);
    SameShapeOf(states[j].uploads[id].row, states[k].uploads[id].row, states[j].uploads[id].born);
    ReachedUpload(c, be, states, steps, j, id);
    ReachedUpload(c, be, states, steps, k, id);
    UploadRowOk(c, states[j].uploads[id]);
    UploadRowOk(c, states[k].uploads[id]);
  }

  /** Between any two states of a run the rows have only moved. */
  lemma RunsMove(c: Config, be: Backend, states: seq<State>, steps: seq<Step>, j: nat, k: nat)
    requires ValidConfig(c) && IsRun(c, be, states, steps) && j <= k < |states|
    ensures Moved(RowsOf(states[j]), RowsOf(states[k]))
  {
    hide Enabled, Apply, ValidConfig, RowMoves, RowsOk;
    RunRowsOk(c, be, states, steps, k);
    forall id | id in RowsOf(states[j])
      ensures id in RowsOf(states[k]) && RowMoves(RowsOf(states[j])[id], RowsOf(states[k])[id])
    {
      RunRowMoves(c, be, states, steps, j, k, id);
    }
  }

  /** The row of a session whose job a worker holds: as begun, or claimed since. */
  ghost predicate HeldRow(u: Upload) {
    u.row == Leased(u.born) || u.row == Leased(u.born).(status := Expired, version := 2)
  }

  lemma HeldRowOf(c: Config, n: Node, w: Worker, u: Upload)
    requires UploadOk(c, u) && WorkerOk(c, n, w, u) && !w.phase.Publishing?
    ensures HeldRow(u)
  {
  }

  /** Node `n` holds the job of `id` and has not yet made its last compare-and-set. */
  ghost predicate Holds(s: State, n: Node, id: Id) {
    n in s.workers && s.workers[n].job.id == id && !s.workers[n].phase.Publishing?
  }

  /** From taking the job to its last compare-and-set, the row of a worker's session is as begun, or claimed. */
  lemma LeaseIsExclusive(c: Config, be: Backend, states: seq<State>, steps: seq<Step>, k: nat, n: Node, id: Id)
    requires ValidConfig(c) && IsRun(c, be, states, steps) && k < |states| && Holds(states[k], n, id)
    ensures id in states[k].uploads && HeldRow(states[k].uploads[id])
  {
    hide Enabled, Apply, ValidConfig, UploadOk, WorkerOk, CleanersOk, HeldRow;
    RunIsGood(c, be, states, steps, k);
    var w := states[k].workers[n];
    assert UploadOk(c, states[k].uploads[id]) && WorkerOk(c, n, w, states[k].uploads[id]);
    HeldRowOf(c, n, w, states[k].uploads[id]);
  }

  lemma HeldRowsKeepTheLease(u: Upload, u': Upload)
    requires HeldRow(u) && HeldRow(u') && u'.born == u.born
    ensures u.row.status == Completing ==> u'.row == u.row || u'.row.status == Expired
  {
  }

  /** While a node holds a job, no run takes its session away but by a claim: what the sequential services count on. */
  lemma RunsKeepTheLease(c: Config, be: Backend, states: seq<State>, steps: seq<Step>, j: nat, k: nat, n: Node, id: Id)
    requires ValidConfig(c) && IsRun(c, be, states, steps) && j <= k < |states|
    requires Holds(states[j], n, id) && Holds(states[k], n, id)
    ensures LeaseKept(RowsOf(states[j]), RowsOf(states[k]), Some(id))
  {
    hide Enabled, Apply, ValidConfig, Holds, HeldRow;
    LeaseIsExclusive(c, be, states, steps, j, n, id);
    LeaseIsExclusive(c, be, states, steps, k, n, id);
    BornStays(c, be, states, steps, j, k, id);
    HeldRowsKeepTheLease(states[j].uploads[id], states[k].uploads[id]);
  }
}
