/** The supervisor's side of the workers: registration, heartbeats and the recovery of jobs of dead workers. */
module WorkerServices {
  import opened Model
  import opened Recovery

  function StaleNames(workers: Registry, now: int): set<string> {
    set w | w in workers && Stale(workers[w], now)
  }

  function MarkedOffline(workers: Registry, names: set<string>, markOk: string -> bool): Registry {
    map w | w in workers :: if w in names && markOk(w) then workers[w].(status := Offline) else workers[w]
  }

  lemma MarkStep(workers: Registry, done: set<string>, w: string, markOk: string -> bool)
    requires w in workers && w !in done
    ensures var marked := MarkedOffline(workers, done, markOk);
      && w in marked
      && (if markOk(w) then marked[w := marked[w].(status := Offline)] else marked) == MarkedOffline(workers, done + {w}, markOk)
  {
  }

  lemma SavedStep(done: set<JobId>, id: JobId, attempt: JobId -> Attempt)
    requires id !in done
    ensures id !in Saved(done, attempt)
    ensures Saved(done + {id}, attempt) == if attempt(id) == Succeeds then Saved(done, attempt) + {id} else Saved(done, attempt)
    ensures |Saved(done + {id}, attempt)| == |Saved(done, attempt)| + if attempt(id) == Succeeds then 1 else 0
  {
    assert Saved(done + {id}, attempt) == if attempt(id) == Succeeds then Saved(done, attempt) + {id} else Saved(done, attempt);
  }

  function RecoveredUnder(jobs: Jobs, names: set<string>, o: Outcomes): set<JobId> {
    set id | id in jobs && jobs[id].status == Running && jobs[id].workerId in names && o.findOk(jobs[id].workerId) && o.attempt(id) == Succeeds
  }

  /** Requeueing the jobs of other workers does not change which jobs are stuck under `w`. */
  lemma StuckUnder(s: Supervisor, s': Supervisor, done: set<string>, w: string, o: Outcomes)
    requires Requeued(s.jobs, s.queue, s'.jobs, s'.queue, RecoveredUnder(s.jobs, done, o))
    requires w !in done
    ensures (if o.findOk(w) then Saved(Stuck(s'.jobs, w), o.attempt) else {}) == RecoveredUnder(s.jobs, {w}, o)
    ensures RecoveredUnder(s.jobs, done, o) + RecoveredUnder(s.jobs, {w}, o)
         == RecoveredUnder(s.jobs, done + {w}, o)
    ensures RecoveredUnder(s.jobs, done, o) !! RecoveredUnder(s.jobs, {w}, o)
    ensures Keyed(s.jobs) ==> Keyed(s'.jobs)
  {
    RequeuedRows(s.jobs, s.queue, s'.jobs, s'.queue, RecoveredUnder(s.jobs, done, o));
  }

  lemma AllStaleDone(s: Supervisor, now: int, o: Outcomes)
    ensures RecoveredUnder(s.jobs, StaleNames(s.workers, now), o) == Recovered(s, now, o)
    ensures MarkedOffline(s.workers, StaleNames(s.workers, now), o.markOk) == AllChecked(s.workers, now, o.markOk)
  {
  }

  class WorkerService {
    var workers: Registry
    var jobs: Jobs
    var queue: seq<Payload>

    ghost function View(): Supervisor
      reads this
    {
      Supervisor(workers, jobs, queue)
    }

    constructor (workers: Registry, jobs: Jobs, queue: seq<Payload>)
      ensures View() == Supervisor(workers, jobs, queue)
    {
      this.workers, this.jobs, this.queue := workers, jobs, queue;
    }

    method RegisterWorker(id: string, host: string, now: int, dbOk: bool) returns (success: bool)
      modifies this`workers
      ensures success <==> id != "" && dbOk
      ensures !success ==> workers == old(workers)
      ensures success ==>
        && workers.Keys == old(workers).Keys + {id}
        && workers[id].status == Active && workers[id].lastHeartbeat == now
        && (host != "" || id !in old(workers) ==> workers[id].host == host)
        && (host == "" && id in old(workers) ==> workers[id].host == old(workers)[id].host)
        && workers[id].activeJobs == (if id in old(workers) then old(workers)[id].activeJobs else 0)
        && workers[id].capacity == (if id in old(workers) then old(workers)[id].capacity else 0)
        && forall w :: w in old(workers) && w != id ==> workers[w] == old(workers)[w]
      ensures success ==> workers == Registered(old(workers), id, host, now)
    {
      RegisteredMeans(workers, id, host, now);
      if id == "" || !dbOk {
        return false;
      }
      if id !in workers {
        workers := workers[id := Worker(Active, host, 0, 0, now)];
      } else {
        var w := workers[id];
        if host != "" {
          w := w.(host := host);
        }
        workers := workers[id := w.(status := Active, lastHeartbeat := now)];
      }
      success := true;
    }

    /** A heartbeat of an unknown worker is refused, which makes the worker register again. */
    method Heartbeat(id: string, activeJobs: int, capacity: int, now: int, dbOk: bool) returns (acknowledged: bool)
      modifies this`workers
      ensures acknowledged <==> id != "" && dbOk && id in old(workers)
      ensures workers == if acknowledged then old(workers)[id := Beaten(old(workers)[id], activeJobs, capacity, now)] else old(workers)
      ensures acknowledged ==>
        && workers.Keys == old(workers).Keys && (forall w :: w in workers && w != id ==> workers[w] == old(workers)[w])
        && workers[id].status == Active && workers[id].activeJobs == activeJobs && workers[id].capacity == capacity
        && workers[id].lastHeartbeat == now && workers[id].host == old(workers)[id].host
    {
      if id == "" || !dbOk || id !in workers {
        return false;
      }
      workers := workers[id := workers[id].(status := Active, activeJobs := activeJobs, capacity := capacity, lastHeartbeat := now)];
      acknowledged := true;
    }

    /** The transaction of one job: update the row, push, and roll back if the push fails. */
    method RequeueOne(job: Job, attempt: Attempt) returns (ok: bool)
      modifies this`jobs, this`queue
      ensures ok <==> attempt == Succeeds
      ensures jobs == if ok then WithRequeued(old(jobs), job.id) else old(jobs)
      ensures queue == if ok then [Payload(job.id, job.name, job.url)] + old(queue) else old(queue)
      ensures jobs.Keys == old(jobs).Keys && forall i :: i in jobs ==>
        jobs[i] == if ok && i == job.id then old(jobs)[i].(status := Pending, workerId := "") else old(jobs)[i]
    {
      if attempt == MarshalFails || attempt == UpdateFails {
        return false;
      }
      var before := jobs;
      jobs := WithRequeued(jobs, job.id);
      if attempt == PushFails {
        jobs := before;
        return false;
      }
      queue := [PayloadOf(job)] + queue;
      ok := true;
    }

    /** One turn of the loop over the stuck jobs; the jobs in `done` were tried already. */
    method TryOne(job: Job, attempt: JobId -> Attempt, ghost rows: Jobs, ghost q: seq<Payload>, ghost done: set<JobId>) returns (ok: bool)
      requires job.id in rows && rows[job.id] == job && job.id !in done
      requires Requeued(rows, q, jobs, queue, Saved(done, attempt))
      modifies this`jobs, this`queue
      ensures ok <==> attempt(job.id) == Succeeds
      ensures Requeued(rows, q, jobs, queue, Saved(done + {job.id}, attempt))
    {
      SavedStep(done, job.id, attempt);
      RequeuedOne(rows, q, jobs, queue, Saved(done, attempt), job.id);
      ok := RequeueOne(job, attempt(job.id));
    }

    /** Whatever fails: exactly the stuck jobs whose attempt succeeds are requeued, and `count` counts them. */
    method RequeueWorkerJobs(worker: string, findOk: bool, attempt: JobId -> Attempt) returns (count: nat)
      requires Keyed(jobs)
      modifies this`jobs, this`queue
      ensures var saved := if findOk then Saved(Stuck(old(jobs), worker), attempt) else {};
        count == |saved| && Requeued(old(jobs), old(queue), jobs, queue, saved)
    {
      count := 0;
      NoneRequeued(jobs, queue);
      if !findOk {
        return;
      }
      var found, rest := jobs, Stuck(jobs, worker);
      ghost var all, done: set<JobId> := rest, {};
      while rest != {}
        invariant rest !! done && all == rest + done
        invariant count == |Saved(done, attempt)|
        invariant Requeued(found, old(queue), jobs, queue, Saved(done, attempt))
      {
        var id :| id in rest;
        SavedStep(done, id, attempt);
        assert all == (rest - {id}) + (done + {id});
        var ok := TryOne(found[id], attempt, found, old(queue), done);
        if ok {
          count := count + 1;
        }
        rest, done := rest - {id}, done + {id};
      }
      assert all == done;
    }

    /** One turn of the loop over the stale workers; the jobs of the workers in `done` are requeued already. */
    method RecoverWorker(w: string, o: Outcomes, ghost s: Supervisor, ghost done: set<string>)
      requires w in workers && w !in done && Keyed(s.jobs)
      requires Requeued(s.jobs, s.queue, jobs, queue, RecoveredUnder(s.jobs, done, o))
      modifies this
      ensures workers == if o.markOk(w) then old(workers)[w := old(workers)[w].(status := Offline)] else old(workers)
      ensures Requeued(s.jobs, s.queue, jobs, queue, RecoveredUnder(s.jobs, done + {w}, o))
    {
      if o.markOk(w) {
        workers := workers[w := workers[w].(status := Offline)];
      }
      StuckUnder(s, View(), done, w, o);
      ghost var rows, q := jobs, queue;
      var _ := RequeueWorkerJobs(w, o.findOk(w), o.attempt);
      RequeuedJoin(s.jobs, s.queue, rows, q, jobs, queue,
                   RecoveredUnder(s.jobs, done, o), RecoveredUnder(s.jobs, {w}, o));
    }

    /** One health check at `now`. */
    method CheckAndRecover(now: int, queryOk: bool, o: Outcomes)
      requires Keyed(jobs)
      modifies this
      ensures !queryOk ==> View() == old(View())
      ensures queryOk ==> HealthChecked(old(View()), View(), now, o)
      ensures queryOk ==> workers.Keys == old(workers).Keys && forall w :: w in workers ==>
        var was := old(workers)[w];
        workers[w] == if was.status == Active && was.lastHeartbeat < now - 45000 && o.markOk(w) then was.(status := Offline) else was
    {
      if !queryOk {
        return;
      }
      var rest := set w | w in workers && Stale(workers[w], now);
      ghost var s, done: set<string> := View(), {};
      NoneRequeued(jobs, queue);
      assert RecoveredUnder(s.jobs, {}, o) == {};
      while rest != {}
        invariant rest !! done && rest + done == StaleNames(s.workers, now)
        invariant workers == MarkedOffline(s.workers, done, o.markOk)
        invariant Requeued(s.jobs, s.queue, jobs, queue, RecoveredUnder(s.jobs, done, o))
      {
        var w :| w in rest;
        MarkStep(s.workers, done, w, o.markOk);
        RecoverWorker(w, o, s, done);
        rest, done := rest - {w}, done + {w};
      }
      assert done == StaleNames(s.workers, now);
      AllStaleDone(s, now, o);
    }
  }
}
