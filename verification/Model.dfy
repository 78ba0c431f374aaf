/** The rows and messages that the supervisor and the workers share. */
module Model {

  datatype Option<+T> = None | Some(value: T)

  type JobId = nat

  /** The values of the `status` column. */
  datatype Status = Scheduled | Pending | Running | Completed | Failed

  /** What `last_result` tells: the text is kept as the facts it prints. */
  datatype Report = NoReport | ScrapedItems(count: nat) | ErrorAfter(saved: nat) | NotQueued

  datatype Job = Job(
    id: JobId,
    name: string,
    url: string,
    cron: string,
    active: bool,
    status: Status,
    workerId: string,
    lastResult: Report,
    nextRun: Option<nat>)

  /** The message on the Redis list. */
  datatype Payload = Payload(jobId: JobId, name: string, url: string)

  type Jobs = map<JobId, Job>

  function PayloadOf(job: Job): Payload {
    Payload(job.id, job.name, job.url)
  }

  predicate InFlight(status: Status) {
    status == Pending || status == Running
  }

  /** `UPDATE jobs SET ... WHERE id = ?`: nothing happens when the row is gone. */
  function WithStatus(rows: Jobs, id: JobId, status: Status): Jobs {
    if id in rows then rows[id := rows[id].(status := status)] else rows
  }

  function WithRunning(rows: Jobs, id: JobId, worker: string): Jobs {
    if id in rows then rows[id := rows[id].(status := Running, workerId := worker)] else rows
  }

  function WithRequeued(rows: Jobs, id: JobId): Jobs {
    if id in rows then rows[id := rows[id].(status := Pending, workerId := "")] else rows
  }

  function WithUnqueued(rows: Jobs, id: JobId): Jobs {
    if id in rows then rows[id := rows[id].(status := Scheduled, lastResult := NotQueued)] else rows
  }

  function WithResult(rows: Jobs, id: JobId, report: Report): Jobs {
    if id in rows then rows[id := rows[id].(lastResult := report)] else rows
  }

  function WithNextRun(rows: Jobs, id: JobId, next: Option<nat>): Jobs {
    if id in rows then rows[id := rows[id].(nextRun := next)] else rows
  }

  /** `UPDATE jobs SET status = 'scheduled' WHERE status IN ('pending', 'running')`. */
  function ResetInFlight(rows: Jobs): Jobs {
    map id | id in rows ::
      if InFlight(rows[id].status) then rows[id].(status := Scheduled) else rows[id]
  }

  /** Every row is stored under its own primary key. */
  predicate Keyed(rows: Jobs) {
    forall id :: id in rows ==> rows[id].id == id
  }

  function Reversed<T>(s: seq<T>): (r: seq<T>)
    ensures |r| == |s|
    ensures forall i :: 0 <= i < |s| ==> r[i] == s[|s| - 1 - i]
  {
    if s == [] then [] else Reversed(s[1..]) + [s[0]]
  }

  function Between(lo: nat, hi: nat): (r: set<nat>)
    ensures forall t :: t in r <==> lo <= t < hi
    decreases hi
  {
    if lo < hi then Between(lo, hi - 1) + {hi - 1} else {}
  }

  lemma {:induction false} BetweenCount(lo: nat, hi: nat)
    requires lo <= hi
    ensures |Between(lo, hi)| == hi - lo
    decreases hi
  {
    if lo < hi {
      BetweenCount(lo, hi - 1);
    }
  }

  predicate Distinct(order: seq<JobId>) {
    forall i, j :: 0 <= i < j < |order| ==> order[i] != order[j]
  }

  function Elements(order: seq<JobId>): set<JobId> {
    set id | id in order
  }

  predicate IsPending(rows: Jobs, id: JobId) {
    id in rows && rows[id].status == Pending
  }

  predicate IsRunning(rows: Jobs, id: JobId) {
    id in rows && rows[id].status == Running
  }

  /** What `Find(worker_id = worker, status = running)` returns, in some order. */
  predicate ListsStuck(rows: Jobs, worker: string, stuck: seq<JobId>) {
    && Distinct(stuck)
    && (forall id :: id in stuck ==> IsRunning(rows, id) && rows[id].workerId == worker)
    && (forall id :: id in rows && IsRunning(rows, id) && rows[id].workerId == worker ==> id in stuck)
  }

  function PayloadsOf(rows: Jobs, ids: seq<JobId>): (r: seq<Payload>)
    requires forall id :: id in ids ==> id in rows
    ensures |r| == |ids| && forall i :: 0 <= i < |ids| ==> r[i] == PayloadOf(rows[ids[i]])
  {
    seq(|ids|, i requires 0 <= i < |ids| => PayloadOf(rows[ids[i]]))
  }
}
