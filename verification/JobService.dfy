/** The supervisor's job service: REST operations, cron fires and startup, writing tables, scheduler and queue in place. */
module JobServices {
  import opened Model
  import opened CronIndex
  import opened Startup

  datatype Error = DatabaseError | NotFound

  datatype Result<+T> = Ok(value: T) | Err(error: Error)

  /** Rows once `executeJob` has written `pending` and its push has failed. */
  function GivenUp(jobs: Jobs, id: JobId): Jobs {
    WithUnqueued(WithStatus(jobs, id, Pending), id)
  }

  /** Rows once `executeJob` has pushed; `next` is the live entry's next fire, if there is one. */
  function Fired(jobs: Jobs, id: JobId, next: Option<nat>): Jobs {
    var marked := WithStatus(jobs, id, Pending);
    if next.Some? then WithNextRun(marked, id, next) else marked
  }

  class JobService {
    /** The cron parser: does the expression parse? */
    const parses: string -> bool
    var jobs: Jobs
    var nextJob: JobId
    var cronRows: map<JobId, EntryId>
    var entries: map<EntryId, Job>
    var nextEntry: EntryId
    var queue: seq<Payload>

    ghost function View(): Index
      reads this
    {
      Index(jobs, nextJob, cronRows, entries, nextEntry)
    }

    ghost predicate Valid()
      reads this
    {
      !parses("") && Agreement(parses, View())
    }

    /** A process starts with the tables and the queue it finds and an empty scheduler. */
    constructor (parses: string -> bool, jobs: Jobs, nextJob: JobId, cronRows: map<JobId, EntryId>, queue: seq<Payload>)
      ensures this.parses == parses && this.queue == queue
      ensures View() == Index(jobs, nextJob, cronRows, map[], 1)
    {
      this.parses := parses;
      this.jobs, this.nextJob, this.cronRows, this.queue := jobs, nextJob, cronRows, queue;
      entries, nextEntry := map[], 1;
    }

    /** `rowOk` and `nextOk` tell whether the cron row and `next_run` can be written. */
    method ScheduleJob(job: Job, next: nat, rowOk: bool, nextOk: bool)
      modifies this
      ensures View() == ScheduleWith(parses, old(View()), job, next, rowOk, nextOk) && queue == old(queue)
      ensures old(Valid()) && Ready(old(View()), job) && parses(job.cron) ==> (Valid() <==> rowOk)
      ensures !parses(job.cron) ==>
        jobs == old(jobs) - {job.id} && cronRows == old(cronRows) - {job.id} && entries == old(entries) && nextEntry == old(nextEntry)
      ensures parses(job.cron) ==>
        && entries == old(entries)[old(nextEntry) := job] && nextEntry == old(nextEntry) + 1
        && cronRows == (if rowOk then old(cronRows)[job.id := old(nextEntry)] else old(cronRows))
        && jobs.Keys == old(jobs).Keys && (forall i :: i in jobs && i != job.id ==> jobs[i] == old(jobs)[i])
        && (job.id in jobs ==> jobs[job.id] == old(jobs)[job.id].(
              nextRun := if nextOk && (rowOk || job.id !in old(cronRows)) then Some(next) else old(jobs)[job.id].nextRun))
    {
      if Valid() && Ready(View(), job) && parses(job.cron) {
        LeakIff(parses, View(), job, next, rowOk, nextOk);
      }
      if !parses(job.cron) {
        jobs := jobs - {job.id};
        cronRows := cronRows - {job.id};
        return;
      }
      var entryId := nextEntry;
      entries := entries[entryId := job];
      nextEntry := nextEntry + 1;
      if job.id in cronRows {
        if !rowOk {
          return;
        }
        cronRows := cronRows[job.id := entryId];
        if !nextOk {
          return;
        }
        jobs := WithNextRun(jobs, job.id, Some(next));
      } else {
        if nextOk {
          jobs := WithNextRun(jobs, job.id, Some(next));
        }
        if !rowOk {
          return;
        }
        cronRows := cronRows[job.id := entryId];
      }
    }

    lemma CreateKeeps(name: string, url: string, cron: string, next: nat)
      ensures Valid() ==> Agreement(parses, Create(parses, View(), name, url, cron, next))
    {
      if Valid() {
        CreateAgrees(parses, View(), name, url, cron, next);
      }
    }

    method CreateJob(name: string, url: string, cron: string, next: nat, dbOk: bool) returns (r: Result<Job>)
      modifies this
      ensures queue == old(queue) && (old(Valid()) ==> Valid())
      ensures !dbOk ==> r == Err(DatabaseError) && View() == old(View())
      ensures dbOk ==> View() == Create(parses, old(View()), name, url, cron, next)
      ensures dbOk ==> r == Ok(Job(old(nextJob), name, url, cron, true, Scheduled, "", NoReport, None)) && nextJob == old(nextJob) + 1
      ensures dbOk && !parses(cron) ==> jobs == old(jobs) - {old(nextJob)} && entries == old(entries)
      ensures dbOk && parses(cron) ==>
        && jobs == old(jobs)[old(nextJob) := Job(old(nextJob), name, url, cron, true, Scheduled, "", NoReport, Some(next))]
        && cronRows == old(cronRows)[old(nextJob) := old(nextEntry)]
        && entries == old(entries)[old(nextEntry) := Job(old(nextJob), name, url, cron, true, Scheduled, "", NoReport, None)]
    {
      if !dbOk {
        return Err(DatabaseError);
      }
      CreateKeeps(name, url, cron, next);
      var job := Job(nextJob, name, url, cron, true, Scheduled, "", NoReport, None);
      jobs := jobs[job.id := job];
      nextJob := nextJob + 1;
      ScheduleJob(job, next, true, true);
      r := Ok(job);
    }

    lemma UpdateKeeps(id: JobId, patch: Patch, next: nat)
      requires id in jobs
      ensures Valid() ==>
        var x', row := Update(parses, View(), id, patch, next), Saved(View(), id, patch);
        && Agreement(parses, x') && Answers(jobs[id], patch, row)
        && RequestStored(parses, View(), x', row, patch, next) && FiresAs(parses, View(), x', row)
    {
      if Valid() {
        UpdateAgrees(parses, View(), id, patch, next);
        UpdateStores(parses, View(), id, patch, next);
        UpdateWakesIff(parses, View(), id, patch, next);
      }
    }

    /** The controller's read and the service's save of the whole row are one step. */
    method UpdateJob(id: JobId, patch: Patch, next: nat, dbOk: bool) returns (r: Result<Job>)
      modifies this
      ensures queue == old(queue) && (old(Valid()) ==> Valid())
      ensures id !in old(jobs) ==> r == Err(NotFound) && View() == old(View())
      ensures id in old(jobs) && !dbOk ==> r == Err(DatabaseError) && View() == old(View())
      ensures id in old(jobs) && dbOk ==> r.Ok? && View() == Update(parses, old(View()), id, patch, next)
      ensures r.Ok? && old(Valid()) ==>
        && RequestStored(parses, old(View()), View(), r.value, patch, next) && FiresAs(parses, old(View()), View(), r.value)
        && r.value.id == id && r.value.nextRun == if r.value.active && r.value.cron == "" then old(jobs)[id].nextRun else None
    {
      if id !in jobs {
        return Err(NotFound);
      }
      if !dbOk {
        return Err(DatabaseError);
      }
      UpdateKeeps(id, patch, next);
      var job := Patched(jobs[id], patch);
      if job.cron != "" {
        job := job.(nextRun := None);
      }
      jobs := jobs[id := job];
      if id in cronRows {
        entries := entries - {cronRows[id]};
      }
      if job.active && job.cron != "" {
        ScheduleJob(job, next, true, true);
      } else if !job.active {
        jobs := WithNextRun(jobs, id, None);
        job := job.(nextRun := None);
      }
      r := Ok(job);
    }

    /** The entry is removed before the row, so a failed delete leaves a row that no longer fires. */
    method DeleteJob(id: JobId, dbOk: bool) returns (ok: bool)
      modifies this
      ensures queue == old(queue) && ok == dbOk
      ensures View() == if dbOk then Delete(old(View()), id) else Unschedule(old(View()), id)
      ensures jobs == (if dbOk then old(jobs) - {id} else old(jobs)) && cronRows == old(cronRows) && nextEntry == old(nextEntry)
      ensures old(Valid()) ==> Valid() && Live(View()) == Live(old(View())) - {id}
    {
      if Valid() {
        DeleteAgrees(parses, View(), id);
        UnscheduleAgrees(parses, View(), id, jobs);
        UnscheduleLive(parses, View(), id, jobs);
      }
      if id in cronRows {
        entries := entries - {cronRows[id]};
      }
      if !dbOk {
        return false;
      }
      jobs := jobs - {id};
      ok := true;
    }

    /** `next` is the scheduler's answer about the job's entry after the push. */
    method ExecuteJob(job: Job, readOk: bool, marshalOk: bool, pushOk: bool, next: Option<nat>)
      modifies this`jobs, this`queue
      ensures SameColumns(old(jobs), jobs)
      ensures var runs := readOk && job.id in old(jobs) && old(jobs)[job.id].active;
        && (!runs ==> jobs == old(jobs) && queue == old(queue))
        && (runs && !(marshalOk && pushOk) ==> jobs == GivenUp(old(jobs), job.id) && queue == old(queue))
        && (runs && marshalOk && pushOk ==>
              && queue == [Payload(job.id, job.name, job.url)] + old(queue)
              && jobs == Fired(old(jobs), job.id, if job.id in cronRows && cronRows[job.id] in entries then next else None))
      ensures var runs := readOk && job.id in old(jobs) && old(jobs)[job.id].active;
        && (runs && !(marshalOk && pushOk) ==>
              jobs == old(jobs)[job.id := old(jobs)[job.id].(status := Scheduled, lastResult := NotQueued)])
        && (runs && marshalOk && pushOk ==>
              var nextRun := if job.id in cronRows && cronRows[job.id] in entries && next.Some? then next else old(jobs)[job.id].nextRun;
              jobs == old(jobs)[job.id := old(jobs)[job.id].(status := Pending, nextRun := nextRun)])
    {
      if !readOk || job.id !in jobs {
        return;
      }
      if !jobs[job.id].active {
        return;
      }
      jobs := WithStatus(jobs, job.id, Pending);
      if !marshalOk || !pushOk {
        jobs := WithUnqueued(jobs, job.id);
        return;
      }
      queue := [PayloadOf(job)] + queue;
      if job.id in cronRows && cronRows[job.id] in entries && next.Some? {
        jobs := WithNextRun(jobs, job.id, next);
      }
    }

    /** What a live entry does when its time comes: the payload carries the row's present name and URL. */
    method FireEntry(e: EntryId, readOk: bool, marshalOk: bool, pushOk: bool, next: Option<nat>)
      requires Valid() && e in entries
      modifies this`jobs, this`queue
      ensures Valid()
      ensures var id := entries[e].id;
        && id in old(jobs) && old(jobs)[id].active
        && queue == if readOk && marshalOk && pushOk then [PayloadOf(old(jobs)[id])] + old(queue) else old(queue)
    {
      FireCarriesCurrentRow(parses, View(), e);
      assert EntryOk(parses, View(), e);
      ghost var before := View();
      ExecuteJob(entries[e], readOk, marshalOk, pushOk, next);
      ElsewhereAgrees(parses, before, jobs);
    }

    method ScheduleIfDue(job: Job, next: nat)
      modifies this
      ensures View() == Looked(parses, old(View()), job, next) && queue == old(queue)
    {
      if job.active && job.status != Completed && job.status != Failed {
        ScheduleJob(job, next, true, true);
      }
    }

    method ScheduleAll(next: JobId -> nat) returns (ghost order: seq<JobId>)
      modifies this
      ensures queue == old(queue) && Distinct(order) && Elements(order) == old(jobs).Keys
      ensures forall id :: id in order ==> id in old(jobs)
      ensures View() == Folded(parses, old(View()), order, next)
    {
      var all, rest := jobs, jobs.Keys;
      order := [];
      while rest != {}
        invariant rest <= all.Keys && queue == old(queue)
        invariant forall id :: id in all ==> (id in order <==> id !in rest)
        invariant forall id :: id in order ==> id in all
        invariant Distinct(order)
        invariant View() == Folded(parses, old(View()), order, next)
      {
        var id :| id in rest;
        assert (order + [id])[..|order|] == order;
        ScheduleIfDue(all[id], next(id));
        rest, order := rest - {id}, order + [id];
      }
      assert Elements(order) == all.Keys;
    }

    /**
     The loop runs over the rows as they were read, in whatever order the database returns them; if the rows
     cannot be read nothing is scheduled.
     */
    method LoadAndScheduleAllJobs(flushOk: bool, resetOk: bool, readOk: bool, next: JobId -> nat) returns (ok: bool)
      requires AtBoot(View())
      modifies this
      ensures ok == readOk && queue == if flushOk then [] else old(queue)
      ensures readOk && resetOk ==> StartedFrom(parses, old(View()), View())
      ensures readOk && !resetOk ==> Midway(parses, old(View()), View(), old(jobs).Keys)
      ensures !readOk ==> View() == old(View()).(jobs := if resetOk then ResetInFlight(old(jobs)) else old(jobs))
      ensures !readOk ==> jobs.Keys == old(jobs).Keys && forall id :: id in jobs ==>
        jobs[id] == if resetOk && (old(jobs)[id].status == Pending || old(jobs)[id].status == Running)
                    then old(jobs)[id].(status := Scheduled) else old(jobs)[id]
    {
      if flushOk {
        queue := [];
      }
      if resetOk {
        jobs := ResetInFlight(jobs);
      }
      if !readOk {
        return false;
      }
      ghost var x := View();
      ghost var order := ScheduleAll(next);
      if resetOk {
        LoopStarts(parses, old(View()), order, next);
      } else {
        FoldedMidway(parses, x, order, next);
      }
      ok := true;
    }
  }
}
