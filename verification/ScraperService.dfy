/** One execution on a worker: `running`, the scrape, the report, and the final status. */
module ScraperServices {
  import opened Model
  import opened Aggregator

  /** One status write: only `running` writes the worker's name beside it. */
  function StatusWritten(jobs: Jobs, id: JobId, worker: string, status: Status): Jobs {
    if status == Running then WithRunning(jobs, id, worker) else WithStatus(jobs, id, status)
  }

  /** Status writes of one row by any executions on any workers, in the order in which they reach the database. */
  function AllStatusWritten(jobs: Jobs, id: JobId, writes: seq<(string, Status)>): Jobs {
    if writes == [] then jobs
    else
      var last := writes[|writes| - 1];
      StatusWritten(AllStatusWritten(jobs, id, writes[..|writes| - 1]), id, last.0, last.1)
  }

  /** The worker of the last `running` write, and `worker` if there was none. */
  function LastStarter(writes: seq<(string, Status)>, worker: string): string {
    if writes == [] then worker
    else
      var last := writes[|writes| - 1];
      if last.1 == Running then last.0 else LastStarter(writes[..|writes| - 1], worker)
  }

  /**
   However executions of one job overlap: the status is that of the last write, the row is assigned to the
   worker that started last, even if another one finished it, and nothing else changes in any row.
   */
  lemma {:induction false} LastWriterWins(jobs: Jobs, id: JobId, writes: seq<(string, Status)>)
    ensures var jobs' := AllStatusWritten(jobs, id, writes);
      && jobs'.Keys == jobs.Keys
      && (forall i :: i in jobs && i != id ==> jobs'[i] == jobs[i])
      && (id in jobs && writes != [] ==> jobs'[id].status == writes[|writes| - 1].1)
      && (id in jobs ==>
            jobs'[id].workerId == LastStarter(writes, jobs[id].workerId)
            && jobs'[id].(status := jobs[id].status, workerId := jobs[id].workerId) == jobs[id])
  {
    if writes != [] {
      LastWriterWins(jobs, id, writes[..|writes| - 1]);
    }
  }

  /** The rows after a whole execution that saved `saved` items. */
  function Executed(jobs: Jobs, id: JobId, worker: string, ok: bool, saved: nat): Jobs {
    WithStatus(WithResult(WithRunning(jobs, id, worker), id, if ok then ScrapedItems(saved) else ErrorAfter(saved)),
               id, if ok then Completed else Failed)
  }

  class ScraperService<T> {
    /** The name in the supervisor client's configuration, or "" without a client. */
    const worker: string
    var jobs: Jobs
    var stored: seq<T>
    /** The status writes of this process. */
    ghost var writes: seq<(JobId, Status)>

    constructor (worker: string, jobs: Jobs, stored: seq<T>)
      ensures this.worker == worker && this.jobs == jobs && this.stored == stored && writes == []
    {
      this.worker, this.jobs, this.stored, writes := worker, jobs, stored, [];
    }

    method UpdateJobStatus(id: JobId, status: Status)
      modifies this`jobs, this`writes
      ensures jobs.Keys == old(jobs).Keys && forall i :: i in jobs && i != id ==> jobs[i] == old(jobs)[i]
      ensures id in jobs ==> jobs[id].status == status && (jobs[id].workerId == if status == Running then worker else old(jobs)[id].workerId)
      ensures jobs == StatusWritten(old(jobs), id, worker, status)
      ensures writes == old(writes) + [(id, status)]
    {
      if status == Running {
        jobs := WithRunning(jobs, id, worker);
      } else {
        jobs := WithStatus(jobs, id, status);
      }
      writes := writes + [(id, status)];
    }

    method ScrapeURL(payload: Payload, items: seq<T>, visitOk: bool, writeOk: nat -> bool) returns (ok: bool)
      modifies this
      ensures ok <==> visitOk && AllWritten(|Batches(items)|, writeOk)
      ensures stored == old(stored) + Stored(Batches(items), writeOk, 0)
      ensures ok ==> stored == old(stored) + items
      ensures writes == old(writes) + [(payload.jobId, Running)]
      ensures var saved := |stored| - |old(stored)|;
        jobs == WithResult(WithRunning(old(jobs), payload.jobId, worker), payload.jobId,
                           if ok then ScrapedItems(saved) else ErrorAfter(saved))
      ensures jobs.Keys == old(jobs).Keys && forall i :: i in jobs && i != payload.jobId ==> jobs[i] == old(jobs)[i]
      ensures var id, saved := payload.jobId, |stored| - |old(stored)|;
        id in jobs ==> jobs[id] == old(jobs)[id].(
          status := Running, workerId := worker, lastResult := if ok then ScrapedItems(saved) else ErrorAfter(saved))
    {
      UpdateJobStatus(payload.jobId, Running);
      NothingDroppedIff(items, writeOk);
      var total, err, _, rows := RunScrape(items, visitOk, writeOk);
      stored := stored + rows;
      if err.Some? {
        jobs := WithResult(jobs, payload.jobId, ErrorAfter(total));
        return false;
      }
      jobs := WithResult(jobs, payload.jobId, ScrapedItems(total));
      ok := true;
    }

    /**
     An execution writes `running` and then exactly one of `completed` and `failed`; it writes `completed`
     iff the seed visit succeeded and every batch was saved, and then the report counts the items that were
     emitted and stored. A payload that cannot be decoded has no effect.
     */
    method ProcessJob(data: Option<Payload>, items: seq<T>, visitOk: bool, writeOk: nat -> bool)
      modifies this
      ensures data.None? ==> jobs == old(jobs) && stored == old(stored) && writes == old(writes)
      ensures data.Some? ==>
        var id, ok := data.value.jobId, visitOk && AllWritten(|Batches(items)|, writeOk);
        && writes == old(writes) + [(id, Running), (id, if ok then Completed else Failed)]
        && stored == old(stored) + Stored(Batches(items), writeOk, 0)
        && (ok ==> stored == old(stored) + items)
        && jobs.Keys == old(jobs).Keys && (forall i :: i in jobs && i != id ==> jobs[i] == old(jobs)[i])
        && (id in jobs ==> jobs[id] == old(jobs)[id].(
              status := if ok then Completed else Failed, workerId := worker,
              lastResult := if ok then ScrapedItems(|items|) else ErrorAfter(|stored| - |old(stored)|)))
      ensures data.Some? ==> jobs == Executed(old(jobs), data.value.jobId, worker, visitOk && AllWritten(|Batches(items)|, writeOk), |stored| - |old(stored)|)
    {
      if data.None? {
        return;
      }
      var ok := ScrapeURL(data.value, items, visitOk, writeOk);
      UpdateJobStatus(data.value.jobId, if ok then Completed else Failed);
    }
  }
}
