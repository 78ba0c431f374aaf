/**
 Three structures that have to agree: the `jobs` table, the `job_cron_entries` table and
 the entries of the live cron scheduler, each of which captured a job when it was added.
 */
module CronIndex {
  import opened Model

  /** The scheduler hands out 1, 2, 3, ... and never reuses a number in one process. */
  type EntryId = nat

  datatype Index = Index(
    jobs: Jobs,
    nextJob: JobId,
    cronRows: map<JobId, EntryId>,
    entries: map<EntryId, Job>,
    nextEntry: EntryId)

  /** Fields that a REST update may leave out. */
  datatype Patch = Patch(name: Option<string>, url: Option<string>, cron: Option<string>, active: Option<bool>)

  function Or<T>(o: Option<T>, default: T): T {
    if o.Some? then o.value else default
  }

  function Patched(job: Job, p: Patch): Job {
    job.(name := Or(p.name, job.name), url := Or(p.url, job.url), cron := Or(p.cron, job.cron), active := Or(p.active, job.active))
  }

  /** `scheduleJob`; `parses` is the cron parser's verdict and `next` the new entry's next fire. */
  function Schedule(parses: string -> bool, x: Index, job: Job, next: nat): Index {
    if !parses(job.cron) then
      x.(jobs := x.jobs - {job.id}, cronRows := x.cronRows - {job.id})
    else
      x.(jobs := WithNextRun(x.jobs, job.id, Some(next)),
         cronRows := x.cronRows[job.id := x.nextEntry],
         entries := x.entries[x.nextEntry := job],
         nextEntry := x.nextEntry + 1)
  }

  /** `scheduleJob` when writing the cron row or `next_run` may fail; the entry is live by then. */
  function ScheduleWith(parses: string -> bool, x: Index, job: Job, next: nat, rowOk: bool, nextOk: bool): Index {
    if !parses(job.cron) then Schedule(parses, x, job, next)
    else
      var nextWritten := nextOk && (job.id in x.cronRows ==> rowOk);
      x.(jobs := if nextWritten then WithNextRun(x.jobs, job.id, Some(next)) else x.jobs,
         cronRows := if rowOk then x.cronRows[job.id := x.nextEntry] else x.cronRows,
         entries := x.entries[x.nextEntry := job],
         nextEntry := x.nextEntry + 1)
  }

  function NewJob(x: Index, name: string, url: string, cron: string): Job {
    Job(x.nextJob, name, url, cron, true, Scheduled, "", NoReport, None)
  }

  function Inserted(x: Index, job: Job): Index {
    x.(jobs := x.jobs[job.id := job], nextJob := x.nextJob + 1)
  }

  function Create(parses: string -> bool, x: Index, name: string, url: string, cron: string, next: nat): Index {
    var job := NewJob(x, name, url, cron);
    Schedule(parses, Inserted(x, job), job, next)
  }

  function Unschedule(x: Index, id: JobId): Index {
    if id in x.cronRows then x.(entries := x.entries - {x.cronRows[id]}) else x
  }

  function Saved(x: Index, id: JobId, p: Patch): Job
    requires id in x.jobs
  {
    var job := Patched(x.jobs[id], p);
    if job.cron != "" then job.(nextRun := None) else job
  }

  function Update(parses: string -> bool, x: Index, id: JobId, p: Patch, next: nat): Index
    requires id in x.jobs
  {
    var job := Saved(x, id, p);
    var x' := Unschedule(x, id).(jobs := x.jobs[id := job]);
    if job.active && job.cron != "" then Schedule(parses, x', job, next)
    else if !job.active then x'.(jobs := WithNextRun(x'.jobs, id, None))
    else x'
  }

  function Delete(x: Index, id: JobId): Index {
    Unschedule(x, id).(jobs := x.jobs - {id})
  }

  // ---------- agreement ----------

  /** The captured job and the stored row agree on what a fire uses. */
  predicate Coherent(captured: Job, row: Job) {
    captured.id == row.id && captured.name == row.name && captured.url == row.url && captured.cron == row.cron
  }

  /** Entry `e` belongs to one stored active job, whose cron row names `e`. */
  predicate EntryOk(parses: string -> bool, x: Index, e: EntryId)
    requires e in x.entries
  {
    var job := x.entries[e];
    && e < x.nextEntry && parses(job.cron)
    && job.id in x.jobs && x.jobs[job.id].active && Coherent(job, x.jobs[job.id])
    && job.id in x.cronRows && x.cronRows[job.id] == e
  }

  /** The cron row of `id` names an entry of the past or of `id` itself. */
  predicate CronRowOk(x: Index, id: JobId)
    requires id in x.cronRows
  {
    && id < x.nextJob && x.cronRows[id] < x.nextEntry
    && (x.cronRows[id] in x.entries ==> x.entries[x.cronRows[id]].id == id)
  }

  predicate Agreement(parses: string -> bool, x: Index) {
    && (forall id :: id in x.jobs ==> x.jobs[id].id == id && id < x.nextJob)
    && (forall e :: e in x.entries ==> EntryOk(parses, x, e))
    && (forall id :: id in x.cronRows ==> CronRowOk(x, id))
  }

  /** Job `id` has a live entry, and its cron row names it. */
  predicate IsLive(x: Index, id: JobId) {
    id in x.cronRows && x.cronRows[id] in x.entries && x.entries[x.cronRows[id]].id == id
  }

  /** What the three structures stand for: the jobs that fire, with what each fire captured. */
  function Live(x: Index): map<JobId, Job> {
    map id | id in x.cronRows && IsLive(x, id) :: x.entries[x.cronRows[id]]
  }

  /** Two live entries never belong to one job, and each is what `Live` says. */
  lemma OneEntryPerJob(parses: string -> bool, x: Index, e: EntryId, f: EntryId)
    requires Agreement(parses, x) && e in x.entries && f in x.entries
    ensures x.entries[e].id == x.entries[f].id ==> e == f
    ensures x.entries[e].id in Live(x) && Live(x)[x.entries[e].id] == x.entries[e]
  {
    assert EntryOk(parses, x, e) && EntryOk(parses, x, f);
  }

  /** A fire pushes the name and the URL that the row holds now. */
  lemma FireCarriesCurrentRow(parses: string -> bool, x: Index, e: EntryId)
    requires Agreement(parses, x) && e in x.entries
    ensures x.entries[e].id in x.jobs && PayloadOf(x.entries[e]) == PayloadOf(x.jobs[x.entries[e].id])
  {
    assert EntryOk(parses, x, e);
  }

  /** Rows other than `id` may change in nothing that the index uses. */
  predicate SameElsewhere(x: Index, jobs: Jobs, id: JobId) {
    forall i :: i in x.jobs && i != id ==> i in jobs && jobs[i] == x.jobs[i]
  }

  /** `job` is stored and active, and no entry of it is left. */
  predicate Ready(x: Index, job: Job) {
    && job.id in x.jobs && x.jobs[job.id].active && Coherent(job, x.jobs[job.id])
    && forall e :: e in x.entries ==> x.entries[e].id != job.id
  }

  lemma ScheduleAgrees(parses: string -> bool, x: Index, job: Job, next: nat)
    requires Agreement(parses, x) && Ready(x, job)
    ensures Agreement(parses, Schedule(parses, x, job, next))
  {
    var x' := Schedule(parses, x, job, next);
    forall e | e in x'.entries ensures EntryOk(parses, x', e) {
      assert e in x.entries ==> EntryOk(parses, x, e);
    }
    forall id | id in x'.cronRows ensures CronRowOk(x', id) {
      assert id in x.cronRows ==> CronRowOk(x, id);
    }
  }

  lemma ScheduleLive(parses: string -> bool, x: Index, job: Job, next: nat)
    requires Agreement(parses, x) && Ready(x, job)
    ensures Live(Schedule(parses, x, job, next)) == if parses(job.cron) then Live(x)[job.id := job] else Live(x)
  {
    var x' := Schedule(parses, x, job, next);
    assert x.nextEntry in x.entries ==> EntryOk(parses, x, x.nextEntry);
    forall id | id in x.cronRows ensures x.cronRows[id] != x.nextEntry {
      assert CronRowOk(x, id);
    }
    assert !IsLive(x, job.id);
    assert forall id :: IsLive(x', id) <==> (IsLive(x, id) || (id == job.id && parses(job.cron)));
  }

  /** Failing writes: the structures agree iff the cron row was written; otherwise the job fires on even after it is deleted. */
  lemma LeakIff(parses: string -> bool, x: Index, job: Job, next: nat, rowOk: bool, nextOk: bool)
    requires Agreement(parses, x) && Ready(x, job) && parses(job.cron)
    ensures var x' := ScheduleWith(parses, x, job, next, rowOk, nextOk);
      && (Agreement(parses, x') <==> rowOk)
      && (!rowOk ==> x.nextEntry in Delete(x', job.id).entries && Delete(x', job.id).entries[x.nextEntry] == job)
  {
    var x' := ScheduleWith(parses, x, job, next, rowOk, nextOk);
    if rowOk {
      ScheduleAgrees(parses, x, job, next);
      var full := Schedule(parses, x, job, next);
      forall e | e in x'.entries ensures EntryOk(parses, x', e) {
        assert EntryOk(parses, full, e);
      }
      forall id | id in x'.cronRows ensures CronRowOk(x', id) {
        assert CronRowOk(full, id);
      }
    } else {
      assert job.id in x.cronRows ==> CronRowOk(x, job.id);
      assert !EntryOk(parses, x', x.nextEntry);
    }
  }

  lemma UnscheduleAgrees(parses: string -> bool, x: Index, id: JobId, jobs: Jobs)
    requires Agreement(parses, x) && SameElsewhere(x, jobs, id)
    requires forall i :: i in jobs ==> jobs[i].id == i && i < x.nextJob
    ensures var x' := Unschedule(x, id).(jobs := jobs);
      Agreement(parses, x') && forall e :: e in x'.entries ==> x'.entries[e].id != id
  {
    var x' := Unschedule(x, id).(jobs := jobs);
    forall e | e in x'.entries ensures x.entries[e].id != id && EntryOk(parses, x', e) {
      assert EntryOk(parses, x, e);
    }
    forall i | i in x'.cronRows ensures CronRowOk(x', i) {
      assert CronRowOk(x, i);
    }
  }

  lemma UnscheduleLive(parses: string -> bool, x: Index, id: JobId, jobs: Jobs)
    requires Agreement(parses, x)
    ensures Live(Unschedule(x, id).(jobs := jobs)) == Live(x) - {id}
  {
    var x' := Unschedule(x, id).(jobs := jobs);
    forall i ensures IsLive(x', i) <==> (IsLive(x, i) && i != id) {
      if id in x.cronRows && i in x.cronRows {
        assert CronRowOk(x, id) && CronRowOk(x, i);
      }
    }
  }

  lemma InsertAgrees(parses: string -> bool, x: Index, job: Job)
    requires Agreement(parses, x) && job.id == x.nextJob && job.active
    ensures Agreement(parses, Inserted(x, job)) && Ready(Inserted(x, job), job) && Live(Inserted(x, job)) == Live(x)
    ensures Inserted(x, job).jobs - {job.id} == x.jobs
  {
    var y := Inserted(x, job);
    forall e | e in y.entries ensures EntryOk(parses, y, e) && y.entries[e].id != job.id {
      assert EntryOk(parses, x, e);
    }
    forall id | id in y.cronRows ensures CronRowOk(y, id) {
      assert CronRowOk(x, id);
    }
    assert job.id !in x.jobs;
  }

  /** A job created with a cron that parses is live with its own values; otherwise it is gone again. */
  lemma CreateAgrees(parses: string -> bool, x: Index, name: string, url: string, cron: string, next: nat)
    requires Agreement(parses, x)
    ensures var x', job := Create(parses, x, name, url, cron, next), NewJob(x, name, url, cron);
      && Agreement(parses, x')
      && Live(x') == (if parses(cron) then Live(x)[job.id := job] else Live(x))
      && x'.jobs == (if parses(cron) then x.jobs[job.id := job.(nextRun := Some(next))] else x.jobs)
  {
    var job := NewJob(x, name, url, cron);
    var y := Inserted(x, job);
    InsertAgrees(parses, x, job);
    ScheduleAgrees(parses, y, job, next);
    ScheduleLive(parses, y, job, next);
  }

  /** After an update the job fires with its new values iff it is active with a cron that parses. */
  lemma UpdateAgrees(parses: string -> bool, x: Index, id: JobId, p: Patch, next: nat)
    requires Agreement(parses, x) && id in x.jobs && !parses("")
    ensures var x', job := Update(parses, x, id, p, next), Saved(x, id, p);
      && Agreement(parses, x')
      && Live(x') == (if job.active && parses(job.cron) then Live(x)[id := job] else Live(x) - {id})
  {
    var job := Saved(x, id, p);
    var jobs := x.jobs[id := job];
    var y := Unschedule(x, id).(jobs := jobs);
    UnscheduleAgrees(parses, x, id, jobs);
    UnscheduleLive(parses, x, id, jobs);
    var x' := Update(parses, x, id, p, next);
    if job.active && job.cron != "" {
      assert x' == Schedule(parses, y, job, next);
      ScheduleAgrees(parses, y, job, next);
      ScheduleLive(parses, y, job, next);
      assert (Live(x) - {id})[id := job] == Live(x)[id := job];
    } else if !job.active {
      var none := WithNextRun(jobs, id, None);
      assert x' == Unschedule(x, id).(jobs := none);
      UnscheduleAgrees(parses, x, id, none);
      UnscheduleLive(parses, x, id, none);
    }
  }

  /** A created job fires with the name and the URL it was created with. */
  lemma CreatedFires(parses: string -> bool, x: Index, name: string, url: string, cron: string, next: nat)
    requires Agreement(parses, x) && parses(cron)
    ensures var live := Live(Create(parses, x, name, url, cron, next));
      x.nextJob in live && PayloadOf(live[x.nextJob]) == Payload(x.nextJob, name, url) && live[x.nextJob].cron == cron
  {
    CreateAgrees(parses, x, name, url, cron, next);
  }

  /** `row` has each field of the request, and what `was` had where the request gave none; status, assignment and report stay. */
  predicate Answers(was: Job, p: Patch, row: Job) {
    && row.id == was.id && row.status == was.status && row.workerId == was.workerId && row.lastResult == was.lastResult
    && row.name == (match p.name case Some(v) => v case None => was.name)
    && row.url == (match p.url case Some(v) => v case None => was.url)
    && row.cron == (match p.cron case Some(v) => v case None => was.cron)
    && row.active == (match p.active case Some(v) => v case None => was.active)
  }

  /**
   `row` is what the request asks for. After the update it is stored, with its `next_run`, unless it is active with
   a cron that does not parse; then it is gone. No other row changes.
   */
  predicate RequestStored(parses: string -> bool, x: Index, x': Index, row: Job, p: Patch, next: nat) {
    && row.id in x.jobs && Answers(x.jobs[row.id], p, row)
    && x'.jobs - {row.id} == x.jobs - {row.id}
    && if row.active && row.cron != "" && !parses(row.cron) then row.id !in x'.jobs
       else
         && row.id in x'.jobs
         && x'.jobs[row.id] == row.(nextRun := if row.active && row.cron != "" then Some(next)
                                               else if row.active then x.jobs[row.id].nextRun else None)
  }

  lemma UpdateStores(parses: string -> bool, x: Index, id: JobId, p: Patch, next: nat)
    requires id in x.jobs && x.jobs[id].id == id
    ensures RequestStored(parses, x, Update(parses, x, id, p, next), Saved(x, id, p), p, next)
  {
  }

  /** Job `row.id` fires afterwards iff `row` is active with a cron that parses; the other jobs fire as before. */
  predicate FiresAs(parses: string -> bool, x: Index, x': Index, row: Job) {
    && (row.id in Live(x') <==> row.active && parses(row.cron))
    && (row.id in Live(x') ==> Coherent(Live(x')[row.id], row))
    && Live(x') - {row.id} == Live(x) - {row.id}
  }

  lemma OnlyOneDiffers(live: map<JobId, Job>, live': map<JobId, Job>, row: Job, wakes: bool)
    requires live' == if wakes then live[row.id := row] else live - {row.id}
    ensures (row.id in live' <==> wakes) && (wakes ==> live'[row.id] == row) && live' - {row.id} == live - {row.id}
  {
  }

  lemma UpdateWakesIff(parses: string -> bool, x: Index, id: JobId, p: Patch, next: nat)
    requires Agreement(parses, x) && id in x.jobs && !parses("")
    ensures FiresAs(parses, x, Update(parses, x, id, p, next), Saved(x, id, p))
  {
    UpdateAgrees(parses, x, id, p, next);
    var row := Saved(x, id, p);
    OnlyOneDiffers(Live(x), Live(Update(parses, x, id, p, next)), row, row.active && parses(row.cron));
  }

  /** An updated job fires with the values of the request, and where it gave none with those stored before. */
  lemma UpdatedFires(parses: string -> bool, x: Index, id: JobId, p: Patch, next: nat)
    requires Agreement(parses, x) && id in x.jobs && !parses("")
    ensures var live := Live(Update(parses, x, id, p, next));
      id in live ==>
        var before, now := PayloadOf(x.jobs[id]), PayloadOf(live[id]);
        && now.jobId == id
        && (match p.name case Some(name) => now.name == name case None => now.name == before.name)
        && (match p.url case Some(url) => now.url == url case None => now.url == before.url)
        && (match p.cron case Some(cron) => live[id].cron == cron case None => live[id].cron == x.jobs[id].cron)
  {
    UpdateAgrees(parses, x, id, p, next);
  }

  lemma DeleteAgrees(parses: string -> bool, x: Index, id: JobId)
    requires Agreement(parses, x)
    ensures var x' := Delete(x, id);
      Agreement(parses, x') && Live(x') == Live(x) - {id} && x'.jobs == x.jobs - {id}
  {
    UnscheduleAgrees(parses, x, id, x.jobs - {id});
    UnscheduleLive(parses, x, id, x.jobs - {id});
  }

  /**
   `next_run` tells after an update whether the job is live, with one exception: an active job
   whose cron was emptied keeps the `next_run` of the schedule it has just lost.
   */
  lemma UpdateNextRun(parses: string -> bool, x: Index, id: JobId, p: Patch, next: nat)
    requires Agreement(parses, x) && id in x.jobs && !parses("")
    ensures var x', job := Update(parses, x, id, p, next), Saved(x, id, p);
      id in x'.jobs ==>
        ((x'.jobs[id].nextRun.Some? <==> id in Live(x')) <==> !(job.active && job.cron == "" && x.jobs[id].nextRun.Some?))
  {
    UpdateAgrees(parses, x, id, p, next);
  }

  // ---------- every sequence of operations in one process ----------

  /** `Elsewhere` stands for writes by fires and workers: they touch no column that the index uses. */
  datatype Op =
    | CreateOp(name: string, url: string, cron: string, next: nat)
    | UpdateOp(id: JobId, patch: Patch, next: nat)
    | DeleteOp(id: JobId)
    | Elsewhere(jobs: Jobs)

  predicate SameColumns(jobs: Jobs, jobs': Jobs) {
    && jobs.Keys == jobs'.Keys
    && forall id :: id in jobs ==> Coherent(jobs[id], jobs'[id]) && jobs[id].active == jobs'[id].active
  }

  predicate Possible(x: Index, op: Op) {
    match op
    case UpdateOp(id, _, _) => id in x.jobs
    case Elsewhere(jobs) => SameColumns(x.jobs, jobs)
    case _ => true
  }

  function Apply(parses: string -> bool, x: Index, op: Op): Index
    requires Possible(x, op)
  {
    match op
    case CreateOp(name, url, cron, next) => Create(parses, x, name, url, cron, next)
    case UpdateOp(id, p, next) => Update(parses, x, id, p, next)
    case DeleteOp(id) => Delete(x, id)
    case Elsewhere(jobs) => x.(jobs := jobs)
  }

  predicate PossibleRun(parses: string -> bool, x: Index, ops: seq<Op>)
    decreases |ops|
  {
    ops == [] || (Possible(x, ops[0]) && PossibleRun(parses, Apply(parses, x, ops[0]), ops[1..]))
  }

  function Result(parses: string -> bool, x: Index, ops: seq<Op>): Index
    requires PossibleRun(parses, x, ops)
    decreases |ops|
  {
    if ops == [] then x else Result(parses, Apply(parses, x, ops[0]), ops[1..])
  }

  /** Active jobs with a cron that nevertheless do not fire. */
  function Asleep(x: Index): set<JobId> {
    set id | id in x.jobs && x.jobs[id].active && x.jobs[id].cron != "" && !IsLive(x, id)
  }

  lemma ElsewhereAgrees(parses: string -> bool, x: Index, jobs: Jobs)
    requires Agreement(parses, x) && SameColumns(x.jobs, jobs)
    ensures var x' := x.(jobs := jobs);
      Agreement(parses, x') && Live(x') == Live(x)
  {
    var x' := x.(jobs := jobs);
    forall e | e in x'.entries ensures EntryOk(parses, x', e) {
      assert EntryOk(parses, x, e);
    }
    forall id | id in x'.cronRows ensures CronRowOk(x', id) {
      assert CronRowOk(x, id);
    }
  }

  lemma OpKeepsAgreement(parses: string -> bool, x: Index, op: Op)
    requires Agreement(parses, x) && Possible(x, op) && !parses("")
    ensures Agreement(parses, Apply(parses, x, op))
  {
    match op
    case CreateOp(name, url, cron, next) => CreateAgrees(parses, x, name, url, cron, next);
    case UpdateOp(id, p, next) => UpdateAgrees(parses, x, id, p, next);
    case DeleteOp(id) => DeleteAgrees(parses, x, id);
    case Elsewhere(jobs) => ElsewhereAgrees(parses, x, jobs);
  }

  lemma LiveIs(x: Index, id: JobId)
    ensures IsLive(x, id) <==> id in Live(x)
  {
  }

  lemma StaysAwake(parses: string -> bool, x: Index, op: Op, id: JobId)
    requires Agreement(parses, x) && Possible(x, op) && !parses("") && id in Asleep(Apply(parses, x, op))
    ensures id in Asleep(x) && !(op.UpdateOp? && op.id == id)
  {
    LiveIs(x, id);
    LiveIs(Apply(parses, x, op), id);
    match op
    case CreateOp(name, url, cron, next) => CreateAgrees(parses, x, name, url, cron, next);
    case UpdateOp(i, p, next) => UpdateAgrees(parses, x, i, p, next);
    case DeleteOp(i) => DeleteAgrees(parses, x, i);
    case Elsewhere(jobs) => ElsewhereAgrees(parses, x, jobs);
  }

  /** No operation puts a job to sleep, and an update wakes the job it writes. */
  lemma OpAgrees(parses: string -> bool, x: Index, op: Op)
    requires Agreement(parses, x) && Possible(x, op) && !parses("")
    ensures var x' := Apply(parses, x, op);
      Agreement(parses, x') && Asleep(x') <= if op.UpdateOp? then Asleep(x) - {op.id} else Asleep(x)
  {
    OpKeepsAgreement(parses, x, op);
    forall id | id in Asleep(Apply(parses, x, op)) ensures id in Asleep(x) && !(op.UpdateOp? && op.id == id) {
      StaysAwake(parses, x, op, id);
    }
  }

  /**
   Over every run of one process the structures agree, whatever is live is active with a cron,
   and conversely every active job with a cron is live unless it was asleep from the start.
   */
  lemma {:induction false} RunAgrees(parses: string -> bool, x: Index, ops: seq<Op>)
    requires Agreement(parses, x) && PossibleRun(parses, x, ops) && !parses("")
    ensures var r := Result(parses, x, ops);
      && Agreement(parses, r) && Asleep(r) <= Asleep(x)
      && forall id :: id in Live(r) ==> id in r.jobs && r.jobs[id].active && r.jobs[id].cron != ""
    decreases |ops|
  {
    if ops == [] {
      forall id | id in Live(x) ensures id in x.jobs && x.jobs[id].active && x.jobs[id].cron != "" {
        assert EntryOk(parses, x, x.cronRows[id]);
      }
    } else {
      OpAgrees(parses, x, ops[0]);
      RunAgrees(parses, Apply(parses, x, ops[0]), ops[1..]);
    }
  }

  const EMPTY_INDEX := Index(map[], 0, map[], map[], 1)

  /** From empty tables the stored jobs that fire are exactly the active ones that have a cron. */
  lemma FreshRunAgrees(parses: string -> bool, ops: seq<Op>)
    requires PossibleRun(parses, EMPTY_INDEX, ops) && !parses("")
    ensures var r := Result(parses, EMPTY_INDEX, ops);
      Agreement(parses, r) && Live(r).Keys == set id | id in r.jobs && r.jobs[id].active && r.jobs[id].cron != ""
  {
    RunAgrees(parses, EMPTY_INDEX, ops);
    var r := Result(parses, EMPTY_INDEX, ops);
    assert Asleep(EMPTY_INDEX) == {};
    forall id | id in r.jobs && r.jobs[id].active && r.jobs[id].cron != "" ensures id in Live(r) {
      assert id !in Asleep(r);
    }
  }

  // ---------- an emptied cron ----------

  function NewBooks(next: Option<nat>): Job {
    Job(0, "books", "http://books", "@daily", true, Scheduled, "", NoReport, next)
  }

  /** One job is created. */
  function OneJob(): Index {
    Index(map[0 := NewBooks(Some(7))], 1, map[0 := 1], map[1 := NewBooks(None)], 2)
  }

  /** Then its cron is emptied; it stays active. */
  function Emptied(): Index {
    OneJob().(jobs := map[0 := NewBooks(Some(7)).(cron := "")], entries := map[])
  }

  lemma OneJobCreated(parses: string -> bool)
    requires parses("@daily")
    ensures Create(parses, EMPTY_INDEX, "books", "http://books", "@daily", 7) == OneJob()
  {
  }

  /** The exception of `UpdateNextRun` happens: the row announces a next run that will never come. */
  lemma EmptiedCronKeepsNextRun(parses: string -> bool)
    requires parses("@daily") && !parses("")
    ensures var ops := [CreateOp("books", "http://books", "@daily", 7), UpdateOp(0, Patch(None, None, Some(""), None), 8)];
      PossibleRun(parses, EMPTY_INDEX, ops) && Result(parses, EMPTY_INDEX, ops) == Emptied()
    ensures Emptied().jobs[0].active && Emptied().jobs[0].nextRun == Some(7) && Live(Emptied()) == map[]
  {
    OneJobCreated(parses);
    var ops := [CreateOp("books", "http://books", "@daily", 7), UpdateOp(0, Patch(None, None, Some(""), None), 8)];
    assert Apply(parses, EMPTY_INDEX, ops[0]) == OneJob();
    assert OneJob().entries - {1} == map[];
    assert Apply(parses, OneJob(), ops[1]) == Emptied();
    assert ops[1..][0] == ops[1] && ops[1..][1..] == [];
    assert forall id :: !IsLive(Emptied(), id);
  }
}
