/** The worker registry, one health check, and what any number of health checks can and cannot repair. */
module Recovery {
  import opened Model

  datatype WorkerStatus = Active | Offline

  /** Times are in milliseconds. */
  datatype Worker = Worker(status: WorkerStatus, host: string, activeJobs: int, capacity: int, lastHeartbeat: int)

  type Registry = map<string, Worker>

  const HEARTBEAT_TIMEOUT := 45000
  const HEALTH_CHECK_INTERVAL := 30000

  /** `status = 'active' AND last_heartbeat < now - 45 s`. */
  predicate Stale(w: Worker, now: int) {
    w.status == Active && w.lastHeartbeat < now - HEARTBEAT_TIMEOUT
  }

  /** A registration of a known worker skips an empty host name, as an update with a struct does. */
  function Registered(workers: Registry, id: string, host: string, now: int): Registry {
    if id in workers
    then workers[id := workers[id].(status := Active, host := if host == "" then workers[id].host else host, lastHeartbeat := now)]
    else workers[id := Worker(Active, host, 0, 0, now)]
  }

  function Beaten(w: Worker, activeJobs: int, capacity: int, now: int): Worker {
    Worker(Active, w.host, activeJobs, capacity, now)
  }

  function Checked(w: Worker, now: int): Worker {
    if Stale(w, now) then w.(status := Offline) else w
  }

  /** What a registration means: the worker is active from `now` on, with the given host if there is one; no other worker changes. */
  lemma RegisteredMeans(workers: Registry, id: string, host: string, now: int)
    ensures var r := Registered(workers, id, host, now);
      && r.Keys == workers.Keys + {id}
      && r[id].status == Active && r[id].lastHeartbeat == now
      && (host != "" || id !in workers ==> r[id].host == host)
      && r[id].activeJobs == (if id in workers then workers[id].activeJobs else 0)
      && r[id].capacity == (if id in workers then workers[id].capacity else 0)
      && (id in workers && host == "" ==> r[id].host == workers[id].host)
      && forall w :: w in workers && w != id ==> r[w] == workers[w]
  {
  }

  /** A stale worker is offline after a check, unless writing that fails. */
  function AllChecked(workers: Registry, now: int, markOk: string -> bool): Registry {
    map w | w in workers :: if markOk(w) then Checked(workers[w], now) else workers[w]
  }

  // ---------- requeueing ----------

  /** How requeueing one job ends; an error after the row update rolls the update back. */
  datatype Attempt = MarshalFails | UpdateFails | PushFails | Succeeds

  /** What fails during a health check: writing a worker offline, reading its jobs, requeueing a job. */
  datatype Outcomes = Outcomes(markOk: string -> bool, findOk: string -> bool, attempt: JobId -> Attempt)

  /** Rows after the jobs in `order` were requeued. */
  function RowsAfter(rows: Jobs, order: seq<JobId>): Jobs {
    if order == [] then rows
    else WithRequeued(RowsAfter(rows, order[..|order| - 1]), order[|order| - 1])
  }

  /** Each requeued job pushed one payload made from its row. */
  function QueueAfter(rows: Jobs, queue: seq<Payload>, order: seq<JobId>): seq<Payload>
    requires forall id :: id in order ==> id in rows
  {
    Reversed(PayloadsOf(rows, order)) + queue
  }

  lemma {:induction false} RowsAfterAt(rows: Jobs, order: seq<JobId>)
    ensures RowsAfter(rows, order).Keys == rows.Keys
    ensures forall id :: id in rows ==>
              RowsAfter(rows, order)[id] == if id in order then rows[id].(status := Pending, workerId := "") else rows[id]
  {
    if order != [] {
      RowsAfterAt(rows, order[..|order| - 1]);
      assert order == order[..|order| - 1] + [order[|order| - 1]];
    }
  }

  lemma ReversedAppend<T>(s: seq<T>, x: T)
    ensures Reversed(s + [x]) == [x] + Reversed(s)
  {
  }

  lemma OneMore(rows: Jobs, queue: seq<Payload>, order: seq<JobId>, id: JobId)
    requires id in rows && forall i :: i in order ==> i in rows
    ensures RowsAfter(rows, order + [id]) == WithRequeued(RowsAfter(rows, order), id)
    ensures QueueAfter(rows, queue, order + [id]) == [PayloadOf(rows[id])] + QueueAfter(rows, queue, order)
  {
    assert (order + [id])[..|order|] == order;
    assert PayloadsOf(rows, order + [id]) == PayloadsOf(rows, order) + [PayloadOf(rows[id])];
    ReversedAppend(PayloadsOf(rows, order), PayloadOf(rows[id]));
  }

  function Stuck(rows: Jobs, worker: string): set<JobId> {
    set id | id in rows && IsRunning(rows, id) && rows[id].workerId == worker
  }

  /** The stuck jobs of `ids` whose requeue succeeds. */
  function Saved(ids: set<JobId>, attempt: JobId -> Attempt): set<JobId> {
    set id | id in ids && attempt(id) == Succeeds
  }

  lemma {:induction false} RowsAfterJoin(rows: Jobs, o1: seq<JobId>, o2: seq<JobId>)
    ensures RowsAfter(rows, o1 + o2) == RowsAfter(RowsAfter(rows, o1), o2)
  {
    if o2 == [] {
      assert o1 + o2 == o1;
    } else {
      RowsAfterJoin(rows, o1, o2[..|o2| - 1]);
      assert (o1 + o2)[..|o1 + o2| - 1] == o1 + o2[..|o2| - 1];
    }
  }

  lemma PayloadsOfJoin(rows: Jobs, rows': Jobs, o1: seq<JobId>, o2: seq<JobId>)
    requires forall id :: id in o1 + o2 ==> id in rows
    requires forall id :: id in o2 ==> id in rows && id in rows' && PayloadOf(rows'[id]) == PayloadOf(rows[id])
    requires forall id :: id in o1 ==> id in rows
    ensures PayloadsOf(rows, o1 + o2) == PayloadsOf(rows, o1) + PayloadsOf(rows', o2)
  {
  }

  lemma ReversedJoin<T>(s: seq<T>, t: seq<T>)
    ensures Reversed(s + t) == Reversed(t) + Reversed(s)
  {
  }

  /** The jobs `ids` were requeued, in the order of `order`. */
  predicate RequeuedInOrder(rows: Jobs, queue: seq<Payload>, rows': Jobs, queue': seq<Payload>, ids: set<JobId>, order: seq<JobId>) {
    && Distinct(order) && Elements(order) == ids
    && (forall id :: id in order ==> id in rows)
    && rows' == RowsAfter(rows, order)
    && queue' == QueueAfter(rows, queue, order)
  }

  /**
   Exactly the jobs `ids` were requeued: for some order of them each was set to pending and unassigned,
   and one payload each was pushed, the last of them now being at the front of the queue.
   */
  ghost predicate Requeued(rows: Jobs, queue: seq<Payload>, rows': Jobs, queue': seq<Payload>, ids: set<JobId>) {
    exists order :: RequeuedInOrder(rows, queue, rows', queue', ids, order)
  }

  lemma NoneRequeued(rows: Jobs, queue: seq<Payload>)
    ensures Requeued(rows, queue, rows, queue, {})
  {
    assert PayloadsOf(rows, []) == [];
    assert RequeuedInOrder(rows, queue, rows, queue, {}, []);
  }

  lemma DistinctJoin(o1: seq<JobId>, o2: seq<JobId>)
    requires Distinct(o1) && Distinct(o2) && Elements(o1) !! Elements(o2)
    ensures Distinct(o1 + o2) && Elements(o1 + o2) == Elements(o1) + Elements(o2)
  {
    forall i, j | 0 <= i < j < |o1 + o2| ensures (o1 + o2)[i] != (o1 + o2)[j] {
      if i < |o1| <= j {
        assert o1[i] in Elements(o1) && o2[j - |o1|] in Elements(o2);
      }
    }
  }

  lemma JoinedInOrder(rows: Jobs, q: seq<Payload>, rows': Jobs, q': seq<Payload>, rows'': Jobs, q'': seq<Payload>,
                      ids: set<JobId>, o1: seq<JobId>, more: set<JobId>, o2: seq<JobId>)
    requires RequeuedInOrder(rows, q, rows', q', ids, o1) && RequeuedInOrder(rows', q', rows'', q'', more, o2) && ids !! more
    ensures RequeuedInOrder(rows, q, rows'', q'', ids + more, o1 + o2)
  {
    RowsAfterAt(rows, o1);
    RowsAfterJoin(rows, o1, o2);
    PayloadsOfJoin(rows, rows', o1, o2);
    ReversedJoin(PayloadsOf(rows, o1), PayloadsOf(rows', o2));
    DistinctJoin(o1, o2);
  }

  lemma RequeuedJoin(rows: Jobs, q: seq<Payload>, rows': Jobs, q': seq<Payload>, rows'': Jobs, q'': seq<Payload>,
                     ids: set<JobId>, more: set<JobId>)
    requires Requeued(rows, q, rows', q', ids) && Requeued(rows', q', rows'', q'', more) && ids !! more
    ensures Requeued(rows, q, rows'', q'', ids + more)
  {
    var o1 :| RequeuedInOrder(rows, q, rows', q', ids, o1);
    var o2 :| RequeuedInOrder(rows', q', rows'', q'', more, o2);
    JoinedInOrder(rows, q, rows', q', rows'', q'', ids, o1, more, o2);
  }

  lemma RequeuedOne(rows: Jobs, q: seq<Payload>, rows': Jobs, q': seq<Payload>, ids: set<JobId>, id: JobId)
    requires Requeued(rows, q, rows', q', ids) && id in rows && id !in ids
    ensures Requeued(rows, q, WithRequeued(rows', id), [PayloadOf(rows[id])] + q', ids + {id})
  {
    var order :| RequeuedInOrder(rows, q, rows', q', ids, order);
    OneMore(rows, q, order, id);
    DistinctJoin(order, [id]);
    assert Elements([id]) == {id};
    assert RequeuedInOrder(rows, q, WithRequeued(rows', id), [PayloadOf(rows[id])] + q', ids + {id}, order + [id]);
  }

  /** The whole effect on the rows: each job of `ids` is pending and unassigned, the others are untouched. */
  lemma RequeuedRows(rows: Jobs, q: seq<Payload>, rows': Jobs, q': seq<Payload>, ids: set<JobId>)
    requires Requeued(rows, q, rows', q', ids)
    ensures ids <= rows.Keys == rows'.Keys
    ensures forall id :: id in rows ==> rows'[id] == if id in ids then rows[id].(status := Pending, workerId := "") else rows[id]
  {
    var order :| RequeuedInOrder(rows, q, rows', q', ids, order);
    RowsAfterAt(rows, order);
    assert forall id :: id in order <==> id in Elements(order);
  }

  // ---------- one health check ----------

  datatype Supervisor = Supervisor(workers: Registry, jobs: Jobs, queue: seq<Payload>)

  predicate IsStale(workers: Registry, worker: string, now: int) {
    worker in workers && Stale(workers[worker], now)
  }

  /** The jobs that a health check puts back: running under a stale worker whose jobs could be read. */
  function Recovered(s: Supervisor, now: int, o: Outcomes): set<JobId> {
    set id | id in s.jobs && s.jobs[id].status == Running
             && IsStale(s.workers, s.jobs[id].workerId, now) && o.findOk(s.jobs[id].workerId) && o.attempt(id) == Succeeds
  }

  /** `s'` is `s` after a health check at `now` with the given failures. */
  ghost predicate HealthChecked(s: Supervisor, s': Supervisor, now: int, o: Outcomes) {
    && s'.workers == AllChecked(s.workers, now, o.markOk)
    && Requeued(s.jobs, s.queue, s'.jobs, s'.queue, Recovered(s, now, o))
  }

  /** One payload for each job in `ids`, made from its row, and no other. */
  ghost predicate OnePayloadEach(rows: Jobs, ids: set<JobId>, added: seq<Payload>) {
    && (forall i, j :: 0 <= i < j < |added| ==> added[i].jobId != added[j].jobId)
    && (forall i :: 0 <= i < |added| ==> added[i].jobId in ids && added[i].jobId in rows && added[i] == PayloadOf(rows[added[i].jobId]))
    && (forall id :: id in ids ==> exists i :: 0 <= i < |added| && added[i].jobId == id)
  }

  ghost predicate Gained(rows: Jobs, queue: seq<Payload>, queue': seq<Payload>, ids: set<JobId>) {
    exists added :: OnePayloadEach(rows, ids, added) && queue' == added + queue
  }

  lemma PushedOnce(rows: Jobs, order: seq<JobId>)
    requires Keyed(rows) && Distinct(order) && forall id :: id in order ==> id in rows
    ensures OnePayloadEach(rows, Elements(order), Reversed(PayloadsOf(rows, order)))
  {
    var n := |order|;
    var added := Reversed(PayloadsOf(rows, order));
    forall i | 0 <= i < n ensures added[i] == PayloadOf(rows[order[n - 1 - i]]) && order[n - 1 - i] in order {
    }
    forall id | id in Elements(order) ensures exists i :: 0 <= i < n && added[i].jobId == id {
      var k :| 0 <= k < n && order[k] == id;
      assert added[n - 1 - k].jobId == id;
    }
  }

  lemma {:induction false} DistinctCount(order: seq<JobId>)
    requires Distinct(order)
    ensures |Elements(order)| == |order|
  {
    if order == [] {
      assert Elements(order) == {};
    } else {
      var before, id := order[..|order| - 1], order[|order| - 1];
      DistinctCount(before);
      assert id !in before;
      assert Elements(order) == Elements(before) + {id};
    }
  }

  /** The queue gains exactly one payload for each requeued job, with the row's id, name and URL. */
  lemma RequeuedPayloads(rows: Jobs, q: seq<Payload>, rows': Jobs, q': seq<Payload>, ids: set<JobId>) returns (added: seq<Payload>)
    requires Requeued(rows, q, rows', q', ids) && Keyed(rows)
    ensures q' == added + q && OnePayloadEach(rows, ids, added) && |added| == |ids|
  {
    var order :| RequeuedInOrder(rows, q, rows', q', ids, order);
    PushedOnce(rows, order);
    added := Reversed(PayloadsOf(rows, order));
    DistinctCount(order);
  }

  /**
   If every operation succeeds, a stale worker is offline afterwards, no row runs under it, and the
   queue gained one payload for each recovered row, among them every row that was running under it.
   */
  lemma RecoveryIsComplete(s: Supervisor, s': Supervisor, now: int, o: Outcomes, worker: string)
    requires HealthChecked(s, s', now, o) && IsStale(s.workers, worker, now) && Keyed(s.jobs)
    requires o.findOk(worker) && forall id :: id in Stuck(s.jobs, worker) ==> o.attempt(id) == Succeeds
    ensures worker in s'.workers && (o.markOk(worker) ==> s'.workers[worker].status == Offline)
    ensures Stuck(s'.jobs, worker) == {}
    ensures forall id :: id in Stuck(s.jobs, worker) ==>
              id in s'.jobs && s'.jobs[id] == s.jobs[id].(status := Pending, workerId := "")
    ensures var ids := Recovered(s, now, o);
      Stuck(s.jobs, worker) <= ids && Gained(s.jobs, s.queue, s'.queue, ids)
  {
    var ids := Recovered(s, now, o);
    RequeuedRows(s.jobs, s.queue, s'.jobs, s'.queue, ids);
    forall id | id in Stuck(s.jobs, worker) ensures id in ids {
    }
    var added := RequeuedPayloads(s.jobs, s.queue, s'.jobs, s'.queue, ids);
    assert s'.queue == added + s.queue;
  }

  /** Rows of workers that are not stale stay as they are, and so do those workers. */
  lemma OthersUntouched(s: Supervisor, s': Supervisor, now: int, o: Outcomes, id: JobId)
    requires HealthChecked(s, s', now, o) && id in s.jobs && !IsStale(s.workers, s.jobs[id].workerId, now)
    ensures id in s'.jobs && s'.jobs[id] == s.jobs[id]
    ensures forall w :: w in s.workers && !Stale(s.workers[w], now) ==> w in s'.workers && s'.workers[w] == s.workers[w]
  {
    RequeuedRows(s.jobs, s.queue, s'.jobs, s'.queue, Recovered(s, now, o));
  }

  // ---------- any number of health checks ----------

  predicate IsStuck(s: Supervisor, worker: string, id: JobId) {
    id in s.jobs && s.jobs[id].status == Running && s.jobs[id].workerId == worker
  }

  predicate Abandoned(s: Supervisor, worker: string, id: JobId) {
    worker in s.workers && s.workers[worker].status == Offline && IsStuck(s, worker, id)
  }

  /** A stuck job of a stale worker is abandoned by the check exactly when the worker goes offline and reading or requeueing the job fails. */
  lemma AbandonedIffFailed(s: Supervisor, s': Supervisor, now: int, o: Outcomes, worker: string, id: JobId)
    requires HealthChecked(s, s', now, o) && IsStale(s.workers, worker, now) && id in Stuck(s.jobs, worker)
    ensures Abandoned(s', worker, id) <==> o.markOk(worker) && !(o.findOk(worker) && o.attempt(id) == Succeeds)
  {
    RequeuedRows(s.jobs, s.queue, s'.jobs, s'.queue, Recovered(s, now, o));
  }

  /** What may happen, one thing after the other; `Elsewhere` is everything that does not concern the worker and the job watched. */
  datatype Happening =
    | Beats(worker: string, activeJobs: int, capacity: int, at: int)
    | Registers(worker: string, host: string, at: int)
    | Checks(now: int, o: Outcomes)
    | Elsewhere

  /** Status and last heartbeat of the worker, and status and assignment of the job, stay; all else, other rows and workers included, may change. */
  predicate Aside(s: Supervisor, s': Supervisor, worker: string, id: JobId) {
    && (worker in s.workers ==>
          && worker in s'.workers
          && s'.workers[worker].status == s.workers[worker].status
          && s'.workers[worker].lastHeartbeat == s.workers[worker].lastHeartbeat)
    && (id in s.jobs ==> id in s'.jobs && s'.jobs[id].status == s.jobs[id].status && s'.jobs[id].workerId == s.jobs[id].workerId)
  }

  ghost predicate Happens(s: Supervisor, h: Happening, s': Supervisor, worker: string, id: JobId) {
    match h
    case Beats(w, jobs, capacity, at) => w in s.workers && s' == s.(workers := s.workers[w := Beaten(s.workers[w], jobs, capacity, at)])
    case Registers(w, host, at) => s' == s.(workers := Registered(s.workers, w, host, at))
    case Checks(now, o) => HealthChecked(s, s', now, o)
    case Elsewhere => Aside(s, s', worker, id)
  }

  ghost predicate History(states: seq<Supervisor>, hs: seq<Happening>, worker: string, id: JobId) {
    && |states| == |hs| + 1
    && forall i :: 0 <= i < |hs| ==> Happens(states[i], hs[i], states[i + 1], worker, id)
  }

  /** A heartbeat or a registration of `worker` was accepted. */
  predicate Returns(h: Happening, worker: string) {
    match h
    case Beats(w, _, _, _) => w == worker
    case Registers(w, _, _) => w == worker
    case _ => false
  }

  predicate Returned(hs: seq<Happening>, worker: string) {
    hs != [] && (Returns(hs[0], worker) || Returned(hs[1..], worker))
  }

  /** A health check turns to the job: it finds the worker stale and the job still running under it. */
  predicate Retries(s: Supervisor, h: Happening, worker: string, id: JobId) {
    h.Checks? && IsStale(s.workers, worker, h.now) && IsStuck(s, worker, id)
  }

  predicate Retried(states: seq<Supervisor>, hs: seq<Happening>, worker: string, id: JobId)
    requires |states| == |hs| + 1
  {
    hs != [] && (Retries(states[0], hs[0], worker, id) || Retried(states[1..], hs[1..], worker, id))
  }

  lemma HistoryTail(states: seq<Supervisor>, hs: seq<Happening>, worker: string, id: JobId)
    requires hs != [] && History(states, hs, worker, id)
    ensures Happens(states[0], hs[0], states[1], worker, id) && History(states[1..], hs[1..], worker, id)
  {
  }

  lemma AbandonedStays(s: Supervisor, h: Happening, s': Supervisor, worker: string, id: JobId)
    requires Happens(s, h, s', worker, id) && Abandoned(s, worker, id) && !Returns(h, worker)
    ensures Abandoned(s', worker, id) && !Retries(s, h, worker, id)
  {
    if h.Checks? {
      RequeuedRows(s.jobs, s.queue, s'.jobs, s'.queue, Recovered(s, h.now, h.o));
    }
  }

  /**
   The promised retry does not happen: once a requeue failed, the worker is already offline, and until
   it returns no health check turns to the job, whatever else happens to workers, rows and queue.
   */
  lemma {:induction false} NoRetryWhileOffline(states: seq<Supervisor>, hs: seq<Happening>, worker: string, id: JobId)
    requires History(states, hs, worker, id) && Abandoned(states[0], worker, id) && !Returned(hs, worker)
    ensures !Retried(states, hs, worker, id) && Abandoned(states[|hs|], worker, id)
  {
    if hs != [] {
      HistoryTail(states, hs, worker, id);
      AbandonedStays(states[0], hs[0], states[1], worker, id);
      NoRetryWhileOffline(states[1..], hs[1..], worker, id);
    }
  }

  /** The worker is active, was last heard of no later than `limit`, and the job runs under it. */
  predicate Back(s: Supervisor, worker: string, id: JobId, limit: int) {
    && worker in s.workers && s.workers[worker].status == Active && s.workers[worker].lastHeartbeat <= limit
    && IsStuck(s, worker, id)
  }

  /** No sign of life of `worker` is later than `limit`. */
  predicate HeardBy(h: Happening, worker: string, limit: int) {
    match h
    case Beats(w, _, _, at) => w == worker ==> at <= limit
    case Registers(w, _, at) => w == worker ==> at <= limit
    case _ => true
  }

  lemma BackStays(s: Supervisor, h: Happening, s': Supervisor, worker: string, id: JobId, limit: int)
    requires Happens(s, h, s', worker, id) && HeardBy(h, worker, limit) && !Retries(s, h, worker, id)
    requires Back(s, worker, id, limit) || (Abandoned(s, worker, id) && Returns(h, worker))
    ensures Back(s', worker, id, limit)
  {
    if h.Checks? {
      OthersUntouched(s, s', h.now, h.o, id);
    }
  }

  lemma {:induction false} BackIsRetried(states: seq<Supervisor>, hs: seq<Happening>, worker: string, id: JobId, limit: int)
    requires History(states, hs, worker, id) && Back(states[0], worker, id, limit)
    requires forall i :: 0 <= i < |hs| ==> HeardBy(hs[i], worker, limit)
    requires hs != [] && hs[|hs| - 1].Checks? && hs[|hs| - 1].now > limit + HEARTBEAT_TIMEOUT
    ensures Retried(states, hs, worker, id)
  {
    if !Retries(states[0], hs[0], worker, id) {
      HistoryTail(states, hs, worker, id);
      BackStays(states[0], hs[0], states[1], worker, id, limit);
      BackIsRetried(states[1..], hs[1..], worker, id, limit);
    }
  }

  /**
   Exactly when an abandoned job is retried by the end of a history that ends in a check more than 45 s
   after every sign of life: iff the worker returned, by a heartbeat or by a registration.
   */
  lemma {:induction false} RetriedIffReturned(states: seq<Supervisor>, hs: seq<Happening>, worker: string, id: JobId, limit: int)
    requires History(states, hs, worker, id) && Abandoned(states[0], worker, id)
    requires forall i :: 0 <= i < |hs| ==> HeardBy(hs[i], worker, limit)
    requires hs != [] && hs[|hs| - 1].Checks? && hs[|hs| - 1].now > limit + HEARTBEAT_TIMEOUT
    ensures Retried(states, hs, worker, id) <==> Returned(hs, worker)
  {
    if !Returned(hs, worker) {
      NoRetryWhileOffline(states, hs, worker, id);
    } else {
      HistoryTail(states, hs, worker, id);
      if Returns(hs[0], worker) {
        BackStays(states[0], hs[0], states[1], worker, id, limit);
        BackIsRetried(states[1..], hs[1..], worker, id, limit);
      } else {
        AbandonedStays(states[0], hs[0], states[1], worker, id);
        assert Returned(hs[1..], worker);
        RetriedIffReturned(states[1..], hs[1..], worker, id, limit);
      }
    }
  }

  // ---------- one failed push ----------

  function BooksUnder(worker: string): Job {
    Job(0, "books", "http://books", "@daily", true, Running, worker, NoReport, None)
  }

  /** One worker, last heard of at 0, is running one job; it is `status` in the registry. */
  function OneStuck(status: WorkerStatus): Supervisor {
    Supervisor(map["w" := Worker(status, "host", 1, 2, 0)], map[0 := BooksUnder("w")], [])
  }

  function PushesFail(): Outcomes {
    Outcomes(_ => true, _ => true, _ => PushFails)
  }

  /** A failed push leaves the job abandoned: the health check at 46 s turns to it, and none after that does. */
  lemma FailedPushAbandons(states: seq<Supervisor>, hs: seq<Happening>)
    requires History(states, hs, "w", 0) && states[0] == OneStuck(Offline) && !Returned(hs, "w")
    ensures HealthChecked(OneStuck(Active), OneStuck(Offline), 46000, PushesFail())
    ensures Retries(OneStuck(Active), Checks(46000, PushesFail()), "w", 0)
    ensures !Retried(states, hs, "w", 0) && Abandoned(states[|hs|], "w", 0)
  {
    var s := OneStuck(Active);
    NoneRequeued(s.jobs, s.queue);
    assert Recovered(s, 46000, PushesFail()) == {};
    NoRetryWhileOffline(states, hs, "w", 0);
  }
}
