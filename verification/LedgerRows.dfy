/**
 The ledger seen from one row: which actions write it, which columns, and what a deactivation stops.
 Every statement of the system addresses one row by its id, except the reset at startup.
 */
module LedgerRows {
  import opened Model
  import opened JobLedger
  import opened LedgerSafety

  function Row(s: Ledger, id: JobId): Option<Job> {
    if id in s.board.rows then Some(s.board.rows[id]) else None
  }

  /** The row of job `row.id` after an action of a fire. */
  function RowAfterFire(s: Ledger, a: Action, row: Job): Job
    requires Enabled(s, a)
  {
    match a
    case FireMark(f, ok) => if ok && s.fires[f].payload.jobId == row.id then row.(status := Pending) else row
    case FireRevert(f, ok) =>
      if ok && s.fires[f].payload.jobId == row.id then row.(status := Scheduled, lastResult := NotQueued) else row
    case FireNote(f, next) => if next.Some? && s.fires[f].payload.jobId == row.id then row.(nextRun := next) else row
    case _ => row
  }

  /** ... and after an action of an execution. */
  function RowAfterRun(s: Ledger, a: Action, row: Job): Job
    requires Enabled(s, a)
  {
    match a
    case Begin(t, ok) =>
      if ok && s.runs[t].payload.jobId == row.id then row.(status := Running, workerId := s.runs[t].worker) else row
    case Scrape(t, _, report) => if s.runs[t].payload.jobId == row.id then row.(lastResult := report) else row
    case Finish(t, ok) =>
      if ok && s.runs[t].payload.jobId == row.id
      then row.(status := if s.runs[t].stage == Scraped(true) then Completed else Failed) else row
    case _ => row
  }

  /** ... and after a REST call, a requeue or a restart; `None` is no row. */
  function RowAfterRest(s: Ledger, a: Action, id: JobId, row: Option<Job>): Option<Job>
    requires Enabled(s, a)
  {
    match a
    case CreateRow(job) => if job.id == id then Some(job) else row
    case RemoveRow(i) => if i == id then None else row
    case EditRow(i, name, url, cron, active, next) =>
      if row.Some? && i == id
      then Some(Job(id, name, url, cron, active, row.value.status, row.value.workerId, row.value.lastResult, next)) else row
    case Requeue(ok) =>
      if row.Some? && ok && s.recovery[0].jobId == id then Some(row.value.(status := Pending, workerId := "")) else row
    case ResetRows(ok) =>
      if row.Some? && ok && (row.value.status == Pending || row.value.status == Running)
      then Some(row.value.(status := Scheduled)) else row
    case _ => row
  }

  lemma FireWritesRow(s: Ledger, a: Action, id: JobId)
    requires Keyed(s.board.rows) && Enabled(s, a) && IsFireAction(a)
    ensures Row(Next(s, a), id) == match Row(s, id) case Some(row) => Some(RowAfterFire(s, a, row)) case None => None
  {
  }

  lemma RunWritesRow(s: Ledger, a: Action, id: JobId)
    requires Keyed(s.board.rows) && Enabled(s, a) && IsRunAction(a)
    ensures Row(Next(s, a), id) == match Row(s, id) case Some(row) => Some(RowAfterRun(s, a, row)) case None => None
  {
  }

  lemma RestWritesRow(s: Ledger, a: Action, id: JobId)
    requires Keyed(s.board.rows) && Enabled(s, a) && !IsFireAction(a) && !IsRunAction(a)
    ensures Row(Next(s, a), id) == RowAfterRest(s, a, id, Row(s, id))
  {
  }

  function RowAfter(s: Ledger, a: Action, id: JobId): Option<Job>
    requires Enabled(s, a)
  {
    var row := Row(s, id);
    if IsFireAction(a) then (match row case Some(job) => Some(RowAfterFire(s, a, job)) case None => None)
    else if IsRunAction(a) then (match row case Some(job) => Some(RowAfterRun(s, a, job)) case None => None)
    else RowAfterRest(s, a, id, row)
  }

  /** What every action does to every row, column by column. */
  lemma ActionWritesRow(s: Ledger, a: Action, id: JobId)
    requires Keyed(s.board.rows) && Enabled(s, a)
    ensures Row(Next(s, a), id) == RowAfter(s, a, id)
  {
    if IsFireAction(a) {
      FireWritesRow(s, a, id);
    } else if IsRunAction(a) {
      RunWritesRow(s, a, id);
    } else {
      RestWritesRow(s, a, id);
    }
  }

  // ---------- deactivation ----------

  /** The job is not active, or has no row. */
  predicate Asleep(s: Ledger, id: JobId) {
    Row(s, id).Some? ==> !Row(s, id).value.active
  }

  predicate Activates(a: Action, id: JobId) {
    match a
    case CreateRow(job) => job.id == id && job.active
    case EditRow(i, _, _, _, active, _) => i == id && active
    case _ => false
  }

  /** Fires of the job that have read its row and may still push. */
  predicate PastRead(s: Ledger, f: nat, id: JobId) {
    f in s.fires && s.fires[f].payload.jobId == id && s.fires[f].stage != Started
  }

  lemma ActionKeepsAsleep(s: Ledger, a: Action, id: JobId)
    requires Keyed(s.board.rows) && Enabled(s, a) && Asleep(s, id) && !Activates(a, id)
    ensures Asleep(Next(s, a), id)
  {
    if IsFireAction(a) {
      FireWritesRow(s, a, id);
    } else if IsRunAction(a) {
      RunWritesRow(s, a, id);
    } else {
      RestWritesRow(s, a, id);
    }
  }

  lemma NoReadPasses(s: Ledger, g: nat, ok: bool, f: nat, id: JobId)
    requires HasFire(s, g, Started) && Asleep(s, id) && PastRead(DoRead(s, g, ok), f, id)
    ensures PastRead(s, f, id)
  {
  }

  lemma NoFirePasses(s: Ledger, a: Action, f: nat, id: JobId)
    requires Enabled(s, a) && Asleep(s, id) && PastRead(Next(s, a), f, id)
    ensures PastRead(s, f, id)
  {
    if a.FireRead? {
      NoReadPasses(s, a.fire, a.readOk, f, id);
    }
  }

  /**
   While a job stays deactivated, whatever else happens, no fire gets past its read: the fires that can still push
   are among those that had read the row before.
   */
  lemma {:induction false} DeactivatedIsNotPushed(s: Ledger, acts: seq<Action>, f: nat, id: JobId)
    requires Inv(s) && Runs(s, acts) && Asleep(s, id)
    requires forall i :: 0 <= i < |acts| ==> !Activates(acts[i], id)
    ensures Asleep(After(s, acts), id)
    ensures PastRead(After(s, acts), f, id) ==> PastRead(s, f, id)
    ensures Enabled(After(s, acts), FirePush(f, true)) && After(s, acts).fires[f].payload.jobId == id ==> PastRead(s, f, id)
    decreases |acts|
  {
    if acts != [] {
      var s' := Next(s, acts[0]);
      InvKept(s, acts[0]);
      ActionKeepsAsleep(s, acts[0], id);
      assert forall i :: 0 <= i < |acts| - 1 ==> acts[1..][i] == acts[i + 1];
      DeactivatedIsNotPushed(s', acts[1..], f, id);
      if PastRead(s', f, id) {
        NoFirePasses(s, acts[0], f, id);
      }
    }
  }

  /** An update that deactivates a job stops every fire of it that has not read the row by then. */
  lemma DeactivationStopsFires(s: Ledger, off: Action, acts: seq<Action>, f: nat, id: JobId)
    requires Inv(s) && off.EditRow? && off.id == id && !off.active && Enabled(s, off) && Runs(Next(s, off), acts)
    requires forall i :: 0 <= i < |acts| ==> !Activates(acts[i], id)
    requires !PastRead(s, f, id)
    ensures var e := After(Next(s, off), acts);
      Enabled(e, FirePush(f, true)) ==> e.fires[f].payload.jobId != id
  {
    InvKept(s, off);
    DeactivatedIsNotPushed(Next(s, off), acts, f, id);
  }
}
