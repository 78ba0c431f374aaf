/** What `LoadAndScheduleAllJobs` leaves behind, and when the cron index survives a restart. */
module Startup {
  import opened Model
  import opened CronIndex

  /** Startup schedules the jobs that are active and did not end in `completed` or `failed`. */
  predicate Due(job: Job) {
    job.active && job.status != Completed && job.status != Failed
  }

  /** Of the jobs in `ids`, `good` are due with a cron that parses and `bad` are due with one that does not. */
  predicate Classified(parses: string -> bool, jobs: Jobs, ids: set<JobId>, good: set<JobId>, bad: set<JobId>) {
    && ids <= jobs.Keys && good <= ids && bad <= ids
    && forall id :: id in ids ==>
         && (id in good <==> Due(jobs[id]) && parses(jobs[id].cron))
         && (id in bad <==> Due(jobs[id]) && !parses(jobs[id].cron))
  }

  predicate JobsAfter(jobs: Jobs, jobs': Jobs, good: set<JobId>, bad: set<JobId>) {
    && good <= jobs.Keys && jobs'.Keys == jobs.Keys - bad
    && forall id :: id in jobs' ==>
         if id in good then jobs'[id].nextRun.Some? && jobs'[id].(nextRun := jobs[id].nextRun) == jobs[id]
         else jobs'[id] == jobs[id]
  }

  predicate CronRowsAfter(rows: map<JobId, EntryId>, rows': map<JobId, EntryId>, good: set<JobId>, bad: set<JobId>) {
    && rows'.Keys == (rows.Keys - bad) + good
    && forall id :: id in rows' && id !in good ==> rows'[id] == rows[id]
  }

  predicate Numbered(entries: map<EntryId, Job>, first: EntryId, next: EntryId, good: set<JobId>) {
    next == first + |good| && entries.Keys == Between(first, next)
  }

  predicate Owned(entries: map<EntryId, Job>, rows: map<JobId, EntryId>, good: set<JobId>) {
    forall e :: e in entries ==> entries[e].id in good && entries[e].id in rows && rows[entries[e].id] == e
  }

  predicate Capturing(jobs: Jobs, entries: map<EntryId, Job>, rows: map<JobId, EntryId>, good: set<JobId>)
  {
    forall id :: id in good ==> id in jobs && id in rows && rows[id] in entries && entries[rows[id]] == jobs[id]
  }

  /** One fresh entry for each good job, and no other; it captured the row and its cron row names it. */
  predicate EntriesAfter(x: Index, y: Index, good: set<JobId>) {
    && Numbered(y.entries, x.nextEntry, y.nextEntry, good)
    && Owned(y.entries, y.cronRows, good)
    && Capturing(x.jobs, y.entries, y.cronRows, good)
  }

  /** `y` is `x` after the good jobs were scheduled and the bad ones deleted, in whatever order. */
  predicate Progress(x: Index, y: Index, good: set<JobId>, bad: set<JobId>) {
    && y.nextJob == x.nextJob
    && JobsAfter(x.jobs, y.jobs, good, bad)
    && CronRowsAfter(x.cronRows, y.cronRows, good, bad)
    && EntriesAfter(x, y, good)
  }

  lemma GoodOwned(entries: map<EntryId, Job>, rows: map<JobId, EntryId>, good: set<JobId>, job: Job, e: EntryId)
    requires Owned(entries, rows, good) && job.id !in good
    ensures Owned(entries[e := job], rows[job.id := e], good + {job.id})
  {
  }

  lemma GoodCaptured(jobs: Jobs, entries: map<EntryId, Job>, rows: map<JobId, EntryId>, good: set<JobId>, job: Job, e: EntryId)
    requires job.id in jobs && jobs[job.id] == job && e !in entries
    requires Capturing(jobs, entries, rows, good)
    ensures Capturing(jobs, entries[e := job], rows[job.id := e], good + {job.id})
  {
  }

  lemma GoodNumbered(entries: map<EntryId, Job>, first: EntryId, next: EntryId, good: set<JobId>, job: Job)
    requires Numbered(entries, first, next, good) && job.id !in good
    ensures next !in entries && Numbered(entries[next := job], first, next + 1, good + {job.id})
  {
    assert next !in entries.Keys;
    assert entries[next := job].Keys == entries.Keys + {next};
    assert |good + {job.id}| == |good| + 1;
  }

  lemma GoodEntries(parses: string -> bool, x: Index, y: Index, good: set<JobId>, job: Job, next: nat)
    requires EntriesAfter(x, y, good) && job.id !in good && parses(job.cron)
    requires job.id in x.jobs && x.jobs[job.id] == job
    ensures EntriesAfter(x, Schedule(parses, y, job, next), good + {job.id})
  {
    GoodNumbered(y.entries, x.nextEntry, y.nextEntry, good, job);
    GoodOwned(y.entries, y.cronRows, good, job, y.nextEntry);
    GoodCaptured(x.jobs, y.entries, y.cronRows, good, job, y.nextEntry);
  }

  lemma GoodJob(jobs: Jobs, jobs': Jobs, good: set<JobId>, bad: set<JobId>, id: JobId, next: nat)
    requires JobsAfter(jobs, jobs', good, bad) && id in jobs && id !in bad
    ensures JobsAfter(jobs, WithNextRun(jobs', id, Some(next)), good + {id}, bad)
  {
  }

  lemma BadJob(jobs: Jobs, jobs': Jobs, good: set<JobId>, bad: set<JobId>, id: JobId)
    requires JobsAfter(jobs, jobs', good, bad) && id !in good
    ensures JobsAfter(jobs, jobs' - {id}, good, bad + {id})
  {
  }

  lemma GoodCronRow(rows: map<JobId, EntryId>, rows': map<JobId, EntryId>, good: set<JobId>, bad: set<JobId>, id: JobId, e: EntryId)
    requires CronRowsAfter(rows, rows', good, bad)
    ensures CronRowsAfter(rows, rows'[id := e], good + {id}, bad)
  {
  }

  lemma BadCronRow(rows: map<JobId, EntryId>, rows': map<JobId, EntryId>, good: set<JobId>, bad: set<JobId>, id: JobId)
    requires CronRowsAfter(rows, rows', good, bad) && id !in good
    ensures CronRowsAfter(rows, rows' - {id}, good, bad + {id})
  {
  }

  lemma GoodStep(parses: string -> bool, x: Index, y: Index, good: set<JobId>, bad: set<JobId>, job: Job, next: nat)
    requires Progress(x, y, good, bad) && job.id !in good + bad && parses(job.cron)
    requires job.id in x.jobs && x.jobs[job.id] == job
    ensures Progress(x, Schedule(parses, y, job, next), good + {job.id}, bad)
  {
    GoodEntries(parses, x, y, good, job, next);
    GoodJob(x.jobs, y.jobs, good, bad, job.id, next);
    GoodCronRow(x.cronRows, y.cronRows, good, bad, job.id, y.nextEntry);
  }

  lemma BadEntries(x: Index, y: Index, good: set<JobId>, id: JobId)
    requires EntriesAfter(x, y, good) && id !in good
    ensures EntriesAfter(x, y.(jobs := y.jobs - {id}, cronRows := y.cronRows - {id}), good)
  {
  }

  lemma BadStep(parses: string -> bool, x: Index, y: Index, good: set<JobId>, bad: set<JobId>, job: Job, next: nat)
    requires Progress(x, y, good, bad) && job.id !in good + bad && !parses(job.cron)
    requires job.id in x.jobs && x.jobs[job.id] == job
    ensures Progress(x, Schedule(parses, y, job, next), good, bad + {job.id})
  {
    BadEntries(x, y, good, job.id);
    BadJob(x.jobs, y.jobs, good, bad, job.id);
    BadCronRow(x.cronRows, y.cronRows, good, bad, job.id);
  }

  /** What the loop does with one row: schedule it (which may delete it) if it is due. */
  function Looked(parses: string -> bool, y: Index, job: Job, next: nat): Index {
    if Due(job) then Schedule(parses, y, job, next) else y
  }

  predicate MidwayWith(parses: string -> bool, x: Index, y: Index, done: set<JobId>, good: set<JobId>, bad: set<JobId>) {
    Classified(parses, x.jobs, done, good, bad) && Progress(x, y, good, bad)
  }

  /** The loop has looked at the jobs `done` of `x`, and reached `y`. */
  ghost predicate Midway(parses: string -> bool, x: Index, y: Index, done: set<JobId>) {
    exists good, bad :: MidwayWith(parses, x, y, done, good, bad)
  }

  lemma NothingDone(parses: string -> bool, x: Index)
    requires x.entries == map[]
    ensures Midway(parses, x, x, {})
  {
    assert MidwayWith(parses, x, x, {}, {}, {});
  }

  lemma SkipClassified(parses: string -> bool, jobs: Jobs, done: set<JobId>, good: set<JobId>, bad: set<JobId>, id: JobId)
    requires Classified(parses, jobs, done, good, bad) && id in jobs && id !in done && !Due(jobs[id])
    ensures Classified(parses, jobs, done + {id}, good, bad)
  {
  }

  lemma GoodClassified(parses: string -> bool, jobs: Jobs, done: set<JobId>, good: set<JobId>, bad: set<JobId>, id: JobId)
    requires Classified(parses, jobs, done, good, bad) && id in jobs && id !in done && Due(jobs[id]) && parses(jobs[id].cron)
    ensures Classified(parses, jobs, done + {id}, good + {id}, bad)
  {
  }

  lemma BadClassified(parses: string -> bool, jobs: Jobs, done: set<JobId>, good: set<JobId>, bad: set<JobId>, id: JobId)
    requires Classified(parses, jobs, done, good, bad) && id in jobs && id !in done && Due(jobs[id]) && !parses(jobs[id].cron)
    ensures Classified(parses, jobs, done + {id}, good, bad + {id})
  {
  }

  lemma LookStep(parses: string -> bool, x: Index, y: Index, done: set<JobId>, job: Job, next: nat)
    requires Midway(parses, x, y, done) && job.id in x.jobs && x.jobs[job.id] == job && job.id !in done
    ensures Midway(parses, x, Looked(parses, y, job, next), done + {job.id})
  {
    var good, bad :| MidwayWith(parses, x, y, done, good, bad);
    var id, z := job.id, Looked(parses, y, job, next);
    if !Due(job) {
      SkipClassified(parses, x.jobs, done, good, bad, id);
      assert MidwayWith(parses, x, z, done + {id}, good, bad);
    } else if parses(job.cron) {
      GoodClassified(parses, x.jobs, done, good, bad, id);
      GoodStep(parses, x, y, good, bad, job, next);
      assert MidwayWith(parses, x, z, done + {id}, good + {id}, bad);
    } else {
      BadClassified(parses, x.jobs, done, good, bad, id);
      BadStep(parses, x, y, good, bad, job, next);
      assert MidwayWith(parses, x, z, done + {id}, good, bad + {id});
    }
  }

  predicate StartedWith(parses: string -> bool, x: Index, y: Index, good: set<JobId>, bad: set<JobId>) {
    && Classified(parses, x.jobs, x.jobs.Keys, good, bad)
    && Progress(x.(jobs := ResetInFlight(x.jobs)), y, good, bad)
  }

  /** The state of the index once startup has looked at every row of `x`. */
  ghost predicate StartedFrom(parses: string -> bool, x: Index, y: Index) {
    exists good, bad :: StartedWith(parses, x, y, good, bad)
  }

  /** The loop over `order`, a prefix of the rows in the order in which the database returned them. */
  function Folded(parses: string -> bool, x: Index, order: seq<JobId>, next: JobId -> nat): Index
    requires forall id :: id in order ==> id in x.jobs
  {
    if order == [] then x
    else
      var last := |order| - 1;
      Looked(parses, Folded(parses, x, order[..last], next), x.jobs[order[last]], next(order[last]))
  }

  lemma FoldedLast(parses: string -> bool, x: Index, before: seq<JobId>, id: JobId, next: JobId -> nat)
    requires id in x.jobs && (forall i :: i in before ==> i in x.jobs)
    ensures forall i :: i in before + [id] ==> i in x.jobs
    ensures Folded(parses, x, before + [id], next) == Looked(parses, Folded(parses, x, before, next), x.jobs[id], next(id))
  {
    assert (before + [id])[..|before|] == before;
  }

  lemma FoldedStep(parses: string -> bool, x: Index, before: seq<JobId>, id: JobId, next: JobId -> nat)
    requires Keyed(x.jobs) && id in x.jobs && id !in before && (forall i :: i in before ==> i in x.jobs)
    requires Midway(parses, x, Folded(parses, x, before, next), Elements(before))
    ensures Midway(parses, x, Folded(parses, x, before + [id], next), Elements(before + [id]))
  {
    FoldedLast(parses, x, before, id, next);
    LookStep(parses, x, Folded(parses, x, before, next), Elements(before), x.jobs[id], next(id));
    assert Elements(before + [id]) == Elements(before) + {id};
  }

  lemma {:induction false} FoldedMidway(parses: string -> bool, x: Index, order: seq<JobId>, next: JobId -> nat)
    requires x.entries == map[] && Keyed(x.jobs) && Distinct(order)
    requires forall id :: id in order ==> id in x.jobs
    ensures Midway(parses, x, Folded(parses, x, order, next), Elements(order))
  {
    if order == [] {
      NothingDone(parses, x);
      assert Elements(order) == {};
    } else {
      var before, id := order[..|order| - 1], order[|order| - 1];
      assert order == before + [id];
      FoldedMidway(parses, x, before, next);
      FoldedStep(parses, x, before, id, next);
    }
  }

  lemma ResetKeepsClasses(parses: string -> bool, jobs: Jobs, good: set<JobId>, bad: set<JobId>)
    requires Classified(parses, ResetInFlight(jobs), jobs.Keys, good, bad)
    ensures Classified(parses, jobs, jobs.Keys, good, bad)
  {
    forall id | id in jobs ensures Due(jobs[id]) == Due(ResetInFlight(jobs)[id]) {
    }
  }

  lemma MidwayStarts(parses: string -> bool, x: Index, y: Index)
    requires Midway(parses, x.(jobs := ResetInFlight(x.jobs)), y, x.jobs.Keys)
    ensures StartedFrom(parses, x, y)
  {
    var good, bad :| MidwayWith(parses, x.(jobs := ResetInFlight(x.jobs)), y, x.jobs.Keys, good, bad);
    ResetKeepsClasses(parses, x.jobs, good, bad);
    assert StartedWith(parses, x, y, good, bad);
  }

  lemma LoopStarts(parses: string -> bool, x: Index, order: seq<JobId>, next: JobId -> nat)
    requires x.entries == map[] && Keyed(x.jobs) && Distinct(order) && Elements(order) == x.jobs.Keys
    requires forall id :: id in order ==> id in x.jobs
    ensures StartedFrom(parses, x, Folded(parses, x.(jobs := ResetInFlight(x.jobs)), order, next))
  {
    FoldedMidway(parses, x.(jobs := ResetInFlight(x.jobs)), order, next);
    MidwayStarts(parses, x, Folded(parses, x.(jobs := ResetInFlight(x.jobs)), order, next));
  }

  /** A row left by the previous process belongs to a job that startup schedules, or deletes. */
  predicate LeftoversDue(x: Index) {
    forall id :: id in x.cronRows ==> id in x.jobs && Due(x.jobs[id])
  }

  /** Tables as a process finds them: keys in range, and a scheduler that has handed out nothing. */
  predicate AtBoot(x: Index) {
    && x.entries == map[] && x.nextEntry == 1
    && (forall id :: id in x.jobs ==> x.jobs[id].id == id && id < x.nextJob)
    && (forall id :: id in x.cronRows ==> id < x.nextJob && x.cronRows[id] >= 1)
  }

  lemma BootEntryOk(parses: string -> bool, x: Index, y: Index, good: set<JobId>, bad: set<JobId>, e: EntryId)
    requires AtBoot(x) && StartedWith(parses, x, y, good, bad) && e in y.entries
    ensures EntryOk(parses, y, e)
  {
    var id := y.entries[e].id;
    assert id in good && id !in bad && id in y.jobs;
    assert e in y.entries.Keys;
  }

  lemma LeftoverBreaks(parses: string -> bool, x: Index, y: Index, good: set<JobId>, bad: set<JobId>, id: JobId)
    requires AtBoot(x) && StartedWith(parses, x, y, good, bad)
    requires id in x.cronRows && !(id in x.jobs && Due(x.jobs[id]))
    ensures id in y.cronRows && !CronRowOk(y, id)
  {
    assert id !in good && id !in bad;
    assert y.cronRows[id] == x.cronRows[id] >= 1;
    if y.cronRows[id] < y.nextEntry {
      assert y.cronRows[id] in y.entries.Keys;
    }
  }

  lemma ResetJobOk(jobs: Jobs, jobs': Jobs, good: set<JobId>, bad: set<JobId>, id: JobId)
    requires JobsAfter(ResetInFlight(jobs), jobs', good, bad) && id in jobs'
    ensures id in jobs && jobs'[id].id == jobs[id].id && !InFlight(jobs'[id].status)
  {
    var r := ResetInFlight(jobs);
    assert id in r && !InFlight(r[id].status);
    assert id in good ==> jobs'[id] == r[id].(nextRun := jobs'[id].nextRun);
  }

  lemma BootJobOk(parses: string -> bool, x: Index, y: Index, good: set<JobId>, bad: set<JobId>, id: JobId)
    requires AtBoot(x) && StartedWith(parses, x, y, good, bad) && id in y.jobs
    ensures y.jobs[id].id == id && id < y.nextJob && !InFlight(y.jobs[id].status)
  {
    ResetJobOk(x.jobs, y.jobs, good, bad, id);
  }

  lemma BootJobKept(parses: string -> bool, x: Index, y: Index, good: set<JobId>, bad: set<JobId>, id: JobId)
    requires StartedWith(parses, x, y, good, bad) && id in x.jobs
    ensures id !in y.jobs <==> id in bad
  {
    assert id in ResetInFlight(x.jobs);
    assert JobsAfter(ResetInFlight(x.jobs), y.jobs, good, bad);
  }

  lemma BootCronRowOk(parses: string -> bool, x: Index, y: Index, good: set<JobId>, bad: set<JobId>, id: JobId)
    requires AtBoot(x) && StartedWith(parses, x, y, good, bad) && id in y.cronRows
    requires id in x.cronRows ==> id in x.jobs && Due(x.jobs[id])
    ensures CronRowOk(y, id)
  {
    assert id in good;
    assert y.cronRows[id] in y.entries.Keys;
  }

  lemma DueLeftoversAgree(parses: string -> bool, x: Index, y: Index, good: set<JobId>, bad: set<JobId>)
    requires AtBoot(x) && StartedWith(parses, x, y, good, bad) && LeftoversDue(x)
    ensures Agreement(parses, y)
  {
    forall id | id in y.jobs ensures y.jobs[id].id == id && id < y.nextJob {
      BootJobOk(parses, x, y, good, bad, id);
    }
    forall e | e in y.entries ensures EntryOk(parses, y, e) {
      BootEntryOk(parses, x, y, good, bad, e);
    }
    forall id | id in y.cronRows ensures CronRowOk(y, id) {
      BootCronRowOk(parses, x, y, good, bad, id);
    }
  }

  /**
   After a restart the three structures agree iff every leftover cron row belongs to a job that
   is due: a row of a deactivated, finished or deleted job still names an entry number that the
   new process hands out again, now or later.
   */
  lemma StartupAgreesIff(parses: string -> bool, x: Index, y: Index)
    requires AtBoot(x) && StartedFrom(parses, x, y)
    ensures Agreement(parses, y) <==> LeftoversDue(x)
  {
    var good, bad :| StartedWith(parses, x, y, good, bad);
    if LeftoversDue(x) {
      DueLeftoversAgree(parses, x, y, good, bad);
    } else {
      var id :| id in x.cronRows && !(id in x.jobs && Due(x.jobs[id]));
      LeftoverBreaks(parses, x, y, good, bad, id);
    }
  }

  /** No row is in flight, and live are exactly the due jobs whose cron parses. */
  lemma StartupRows(parses: string -> bool, x: Index, y: Index, id: JobId)
    requires AtBoot(x) && StartedFrom(parses, x, y)
    ensures id in y.jobs ==> !InFlight(y.jobs[id].status)
    ensures id in x.jobs ==> (id !in y.jobs <==> Due(x.jobs[id]) && !parses(x.jobs[id].cron))
    ensures id in x.cronRows && id in x.jobs && id !in y.jobs ==> id !in y.cronRows
    ensures (exists e :: e in y.entries && y.entries[e].id == id) <==> id in x.jobs && Due(x.jobs[id]) && parses(x.jobs[id].cron)
  {
    var good, bad :| StartedWith(parses, x, y, good, bad);
    if id in y.jobs {
      BootJobOk(parses, x, y, good, bad, id);
    }
    if id in x.jobs {
      BootJobKept(parses, x, y, good, bad, id);
    }
    if id in good {
      var e := y.cronRows[id];
      assert e in y.entries && y.entries[e].id == id;
    }
    forall e | e in y.entries ensures y.entries[e].id in good {
    }
  }

  lemma BootColumns(parses: string -> bool, x: Index, y: Index, good: set<JobId>, bad: set<JobId>, id: JobId)
    requires StartedWith(parses, x, y, good, bad) && id in y.jobs
    ensures id in x.jobs && y.jobs[id].active == x.jobs[id].active && y.jobs[id].cron == x.jobs[id].cron
  {
    assert JobsAfter(ResetInFlight(x.jobs), y.jobs, good, bad);
    assert id in good ==> y.jobs[id].(nextRun := ResetInFlight(x.jobs)[id].nextRun) == ResetInFlight(x.jobs)[id];
  }

  lemma BootLive(parses: string -> bool, x: Index, y: Index, good: set<JobId>, bad: set<JobId>, id: JobId)
    requires AtBoot(x) && StartedWith(parses, x, y, good, bad)
    ensures IsLive(y, id) <==> id in good
  {
    if id in good {
      assert id in ResetInFlight(x.jobs) && ResetInFlight(x.jobs)[id].id == id;
    }
  }

  lemma KeptRow(parses: string -> bool, x: Index, y: Index, good: set<JobId>, bad: set<JobId>, id: JobId)
    requires StartedWith(parses, x, y, good, bad) && id in y.jobs
    ensures id in x.jobs
    ensures var was, row := x.jobs[id], y.jobs[id];
      var status := if was.status == Pending || was.status == Running then Scheduled else was.status;
      var due := was.active && was.status != Completed && was.status != Failed;
      && row == was.(status := status, nextRun := row.nextRun)
      && (if due then row.nextRun.Some? && parses(was.cron) else row.nextRun == was.nextRun)
  {
    var r := ResetInFlight(x.jobs);
    assert JobsAfter(r, y.jobs, good, bad) && id in r;
    assert id in good ==> y.jobs[id] == r[id].(nextRun := y.jobs[id].nextRun);
  }

  /**
   Whatever row startup keeps differs from the row before it only in `next_run`, set for the jobs it
   scheduled, and in `status`, back to `scheduled` where it was `pending` or `running`.
   */
  lemma StartupKeepsRest(parses: string -> bool, x: Index, y: Index, id: JobId)
    requires AtBoot(x) && StartedFrom(parses, x, y) && id in y.jobs
    ensures id in x.jobs
    ensures var was, row := x.jobs[id], y.jobs[id];
      var status := if was.status == Pending || was.status == Running then Scheduled else was.status;
      var due := was.active && was.status != Completed && was.status != Failed;
      && row == was.(status := status, nextRun := row.nextRun)
      && (if due then row.nextRun.Some? && parses(was.cron) else row.nextRun == was.nextRun)
  {
    var good, bad :| StartedWith(parses, x, y, good, bad);
    KeptRow(parses, x, y, good, bad, id);
  }

  /** What startup did with job `id`. */
  predicate BootedAt(parses: string -> bool, x: Index, y: Index, id: JobId) {
    && (id in y.jobs <==> id in x.jobs && !(Due(x.jobs[id]) && !parses(x.jobs[id].cron)))
    && (id in y.jobs ==> y.jobs[id].active == x.jobs[id].active && y.jobs[id].cron == x.jobs[id].cron)
    && (IsLive(y, id) <==> id in x.jobs && Due(x.jobs[id]) && parses(x.jobs[id].cron))
  }

  lemma BootsAt(parses: string -> bool, x: Index, y: Index, good: set<JobId>, bad: set<JobId>, id: JobId)
    requires AtBoot(x) && StartedWith(parses, x, y, good, bad)
    ensures BootedAt(parses, x, y, id)
  {
    BootLive(parses, x, y, good, bad, id);
    if id in y.jobs {
      BootColumns(parses, x, y, good, bad, id);
    }
    if id in x.jobs {
      BootJobKept(parses, x, y, good, bad, id);
    }
  }

  lemma BootedAsleep(parses: string -> bool, x: Index, y: Index, id: JobId)
    requires BootedAt(parses, x, y, id) && !parses("")
    ensures id in Asleep(y) <==>
              && id in x.jobs && x.jobs[id].active && x.jobs[id].cron != ""
              && (x.jobs[id].status == Completed || x.jobs[id].status == Failed)
  {
  }

  /**
   The active jobs with a cron that do not fire after a restart are exactly those whose last run had
   ended: a recurring job that was completed once is not scheduled again.
   */
  lemma AsleepAfterStartup(parses: string -> bool, x: Index, y: Index, id: JobId)
    requires AtBoot(x) && StartedFrom(parses, x, y) && !parses("")
    ensures id in Asleep(y) <==>
              && id in x.jobs && x.jobs[id].active && x.jobs[id].cron != ""
              && (x.jobs[id].status == Completed || x.jobs[id].status == Failed)
  {
    var good, bad :| StartedWith(parses, x, y, good, bad);
    BootsAt(parses, x, y, good, bad, id);
    BootedAsleep(parses, x, y, id);
  }

  lemma NothingDue(parses: string -> bool, x: Index)
    requires x.entries == map[] && forall id :: id in x.jobs ==> !Due(x.jobs[id]) && !InFlight(x.jobs[id].status)
    ensures StartedFrom(parses, x, x)
  {
    assert ResetInFlight(x.jobs) == x.jobs;
    assert StartedWith(parses, x, x, {}, {});
  }

  /** The rows of `OneJob` after one fire and one successful execution of it. */
  function RanOnce(rows: Jobs): Jobs {
    WithStatus(WithResult(WithRunning(WithStatus(rows, 0, Pending), 0, "w"), 0, ScrapedItems(20)), 0, Completed)
  }

  function CompletedAtBoot(): Index {
    var row := NewBooks(Some(7)).(status := Completed, workerId := "w", lastResult := ScrapedItems(20));
    OneJob().(jobs := map[0 := row], entries := map[], nextEntry := 1)
  }

  lemma RanOnceRun(parses: string -> bool)
    requires parses("@daily")
    ensures var ops := [CreateOp("books", "http://books", "@daily", 7), Elsewhere(RanOnce(OneJob().jobs))];
      PossibleRun(parses, EMPTY_INDEX, ops) && Result(parses, EMPTY_INDEX, ops).(entries := map[], nextEntry := 1) == CompletedAtBoot()
  {
    var ops := [CreateOp("books", "http://books", "@daily", 7), Elsewhere(RanOnce(OneJob().jobs))];
    OneJobCreated(parses);
    assert Apply(parses, EMPTY_INDEX, ops[0]) == OneJob();
    assert RanOnce(OneJob().jobs) == CompletedAtBoot().jobs;
    assert ops[1..][0] == ops[1] && ops[1..][1..] == [];
  }

  /** A job is created, fires, is completed, and the supervisor restarts: the job is active and never fires again. */
  lemma CompletedJobFallsAsleep(parses: string -> bool)
    requires parses("@daily") && !parses("")
    ensures var ops := [CreateOp("books", "http://books", "@daily", 7), Elsewhere(RanOnce(OneJob().jobs))];
      PossibleRun(parses, EMPTY_INDEX, ops) && Result(parses, EMPTY_INDEX, ops).(entries := map[], nextEntry := 1) == CompletedAtBoot()
    ensures var x := CompletedAtBoot();
      AtBoot(x) && StartedFrom(parses, x, x) && 0 in x.jobs && x.jobs[0].active && 0 in Asleep(x)
  {
    RanOnceRun(parses);
    NothingDue(parses, CompletedAtBoot());
    AsleepAfterStartup(parses, CompletedAtBoot(), CompletedAtBoot(), 0);
  }

  /** An active job without a cron, which updates allow, is deleted with its cron row unless its last run had ended. */
  lemma EmptiedCronIsDeleted(parses: string -> bool, x: Index, y: Index, id: JobId)
    requires AtBoot(x) && StartedFrom(parses, x, y) && !parses("")
    requires id in x.jobs && Due(x.jobs[id]) && x.jobs[id].cron == ""
    ensures id !in y.jobs && id !in y.cronRows
  {
    var good, bad :| StartedWith(parses, x, y, good, bad);
    BootJobKept(parses, x, y, good, bad, id);
    assert id in bad && id !in good;
  }

  function EmptiedAtBoot(): Index {
    Emptied().(entries := map[], nextEntry := 1)
  }

  /** Such a job comes from a create and an update, and is gone after the next restart. */
  lemma EmptiedJobIsDeleted(parses: string -> bool, y: Index)
    requires parses("@daily") && !parses("") && StartedFrom(parses, EmptiedAtBoot(), y)
    ensures var ops := [CreateOp("books", "http://books", "@daily", 7), UpdateOp(0, Patch(None, None, Some(""), None), 8)];
      PossibleRun(parses, EMPTY_INDEX, ops) && Result(parses, EMPTY_INDEX, ops).(entries := map[], nextEntry := 1) == EmptiedAtBoot()
    ensures EmptiedAtBoot().jobs[0].active && 0 !in y.jobs && 0 !in y.cronRows
  {
    EmptiedCronKeepsNextRun(parses);
    EmptiedCronIsDeleted(parses, EmptiedAtBoot(), y, 0);
  }

  /** And that restart is possible: it leaves empty tables. */
  lemma EmptiedJobRestarts(parses: string -> bool)
    requires !parses("")
    ensures StartedFrom(parses, EmptiedAtBoot(), Index(map[], 1, map[], map[], 1))
  {
    var x, y := EmptiedAtBoot(), Index(map[], 1, map[], map[], 1);
    assert ResetInFlight(x.jobs) == x.jobs && x.jobs.Keys == {0};
    assert Classified(parses, x.jobs, {0}, {}, {0});
    assert JobsAfter(x.jobs, y.jobs, {}, {0}) && CronRowsAfter(x.cronRows, y.cronRows, {}, {0});
    assert EntriesAfter(x, y, {});
    assert StartedWith(parses, x, y, {}, {0});
  }

  // ---------- entry numbers that survive a restart ----------

  function TestJob(id: JobId, name: string, active: bool, next: Option<nat>): Job {
    Job(id, name, "http://books", "@daily", active, Scheduled, "", NoReport, next)
  }

  /** Two jobs are created, then the first is deactivated. */
  function TwoJobs(): seq<Op> {
    [CreateOp("a", "http://books", "@daily", 7), CreateOp("b", "http://books", "@daily", 7),
     UpdateOp(0, Patch(None, None, None, Some(false)), 7)]
  }

  function BeforeRestart(): Index {
    Index(map[0 := TestJob(0, "a", false, None), 1 := TestJob(1, "b", true, Some(7))], 2,
          map[0 := 1, 1 := 2], map[2 := TestJob(1, "b", true, None)], 3)
  }

  function AfterRestart(): Index {
    BeforeRestart().(cronRows := map[0 := 1, 1 := 1], entries := map[1 := TestJob(1, "b", true, Some(7))], nextEntry := 2)
  }

  lemma TwoJobsRun(parses: string -> bool)
    requires parses("@daily")
    ensures PossibleRun(parses, EMPTY_INDEX, TwoJobs()) && Result(parses, EMPTY_INDEX, TwoJobs()) == BeforeRestart()
  {
    var ops := TwoJobs();
    var x1 := Apply(parses, EMPTY_INDEX, ops[0]);
    assert x1 == Index(map[0 := TestJob(0, "a", true, Some(7))], 1, map[0 := 1], map[1 := TestJob(0, "a", true, None)], 2);
    var x2 := Apply(parses, x1, ops[1]);
    assert x2.entries == map[1 := TestJob(0, "a", true, None), 2 := TestJob(1, "b", true, None)];
    assert x2.jobs == map[0 := TestJob(0, "a", true, Some(7)), 1 := TestJob(1, "b", true, Some(7))];
    assert Apply(parses, x2, ops[2]) == BeforeRestart();
    assert ops[1..][1..] == [ops[2]] && ops[1..][1..][1..] == [];
  }

  function Rebooted(): Index {
    BeforeRestart().(entries := map[], nextEntry := 1)
  }

  lemma OnlySecondIsDue(parses: string -> bool)
    requires parses("@daily")
    ensures AtBoot(Rebooted()) && Classified(parses, Rebooted().jobs, Rebooted().jobs.Keys, {1}, {})
    ensures ResetInFlight(Rebooted().jobs) == Rebooted().jobs
  {
    assert Rebooted().jobs.Keys == {0, 1};
  }

  lemma RestartAliases(parses: string -> bool)
    requires parses("@daily")
    ensures AtBoot(Rebooted()) && StartedFrom(parses, Rebooted(), AfterRestart())
  {
    OnlySecondIsDue(parses);
    var x, y := Rebooted(), AfterRestart();
    assert JobsAfter(x.jobs, y.jobs, {1}, {});
    assert CronRowsAfter(x.cronRows, y.cronRows, {1}, {});
    assert y.entries.Keys == {1} == Between(1, 2);
    assert EntriesAfter(x, y, {1});
    assert StartedWith(parses, x, y, {1}, {});
  }

  lemma RenameStopsOther(parses: string -> bool)
    ensures var z := Update(parses, AfterRestart(), 0, Patch(Some("c"), None, None, None), 8);
      IsLive(AfterRestart(), 1) && 1 in z.jobs && z.jobs[1].active && z.entries == map[]
  {
  }

  /**
   Agreement across a restart is false: the leftover row of the deactivated job 0 now names the
   entry of job 1, and renaming job 0 stops job 1, which stays active with a cron that parses.
   */
  lemma RestartThenUpdateStopsOtherJob(parses: string -> bool)
    requires parses("@daily") && !parses("")
    ensures PossibleRun(parses, EMPTY_INDEX, TwoJobs())
    ensures Result(parses, EMPTY_INDEX, TwoJobs()).(entries := map[], nextEntry := 1) == Rebooted()
    ensures StartedFrom(parses, Rebooted(), AfterRestart())
    ensures var z := Update(parses, AfterRestart(), 0, Patch(Some("c"), None, None, None), 8);
      IsLive(AfterRestart(), 1) && 1 in z.jobs && z.jobs[1].active && z.entries == map[]
  {
    TwoJobsRun(parses);
    RestartAliases(parses);
    RenameStopsOther(parses);
  }
}
