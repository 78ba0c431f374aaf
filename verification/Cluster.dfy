/**
 The job ledger and the worker registry together. A health check turns only to registered workers that
 are active and stale; here it is one step made of ledger actions, and everything else interleaves with it.
 */
module Clusters {
  import opened Model
  import opened JobLedger
  import opened LedgerSafety
  import opened Recovery
  import FailureDetector
  import LedgerRuns
  import Refinement
  import WorkerServices

  datatype Cluster = Cluster(ledger: Ledger, workers: Registry)

  datatype Step =
    | Do(action: Action)
    | Beat(worker: string, activeJobs: int, capacity: int, at: int)
    | Register(worker: string, host: string, at: int)
    | Check(now: int, order: seq<string>, listing: string -> seq<JobId>, o: Outcomes)

  /** What the supervisor sees of it. */
  function View(c: Cluster): Supervisor {
    Supervisor(c.workers, c.ledger.board.rows, c.ledger.list.queue)
  }

  // ---------- a health check as ledger actions ----------

  function WorkerActions(w: string, listing: string -> seq<JobId>, o: Outcomes): seq<Action> {
    if o.findOk(w) then [FindStuck(w, listing(w))] + Refinement.Attempts(listing(w), o.attempt) else []
  }

  /** The workers of `order`, one after the other. */
  function CheckActions(order: seq<string>, listing: string -> seq<JobId>, o: Outcomes): seq<Action> {
    if order == [] then []
    else CheckActions(order[..|order| - 1], listing, o) + WorkerActions(order[|order| - 1], listing, o)
  }

  predicate NoRepeats(order: seq<string>) {
    forall i, j :: 0 <= i < j < |order| ==> order[i] != order[j]
  }

  function Names(order: seq<string>): set<string> {
    set w | w in order
  }

  predicate Lists(rows: Jobs, order: seq<string>, listing: string -> seq<JobId>) {
    forall w :: w in order ==> ListsStuck(rows, w, listing(w))
  }

  /** The check visits the stale workers in `order` and finds their jobs in the order of `listing`. */
  predicate CanCheck(c: Cluster, now: int, order: seq<string>, listing: string -> seq<JobId>) {
    && c.ledger.phase == Serving && c.ledger.recovery == []
    && NoRepeats(order) && Names(order) == WorkerServices.StaleNames(c.workers, now)
    && Lists(c.ledger.board.rows, order, listing)
  }

  ghost predicate Steps(c: Cluster, step: Step, c': Cluster) {
    match step
    case Do(a) => !a.FindStuck? && !a.Requeue? && Enabled(c.ledger, a) && c' == c.(ledger := Next(c.ledger, a))
    case Beat(w, jobs, capacity, at) => w in c.workers && c' == c.(workers := c.workers[w := Beaten(c.workers[w], jobs, capacity, at)])
    case Register(w, host, at) => w != "" && c' == c.(workers := Registered(c.workers, w, host, at))
    case Check(now, order, listing, o) =>
      && CanCheck(c, now, order, listing)
      && Runs(c.ledger, CheckActions(order, listing, o))
      && c' == Cluster(After(c.ledger, CheckActions(order, listing, o)), AllChecked(c.workers, now, o.markOk))
  }

  /** After the workers of `done`, the ledger `l` has become `l'`. */
  ghost predicate Partly(l: Ledger, l': Ledger, done: seq<string>, o: Outcomes) {
    && Inv(l') && l'.phase == Serving && l'.recovery == []
    && Requeued(l.board.rows, l.list.queue, l'.board.rows, l'.list.queue,
                WorkerServices.RecoveredUnder(l.board.rows, Names(done), o))
  }

  lemma StillListed(l: Ledger, l': Ledger, done: seq<string>, w: string, listing: seq<JobId>, o: Outcomes)
    requires Partly(l, l', done, o) && w !in done && ListsStuck(l.board.rows, w, listing)
    ensures ListsStuck(l'.board.rows, w, listing)
  {
    RequeuedRows(l.board.rows, l.list.queue, l'.board.rows, l'.list.queue,
                 WorkerServices.RecoveredUnder(l.board.rows, Names(done), o));
  }

  /** One more worker. */
  lemma WorkerRuns(l: Ledger, l': Ledger, done: seq<string>, w: string, listing: string -> seq<JobId>, o: Outcomes)
    requires Partly(l, l', done, o) && w !in done && ListsStuck(l.board.rows, w, listing(w))
    ensures Runs(l', WorkerActions(w, listing, o)) && Partly(l, After(l', WorkerActions(w, listing, o)), done + [w], o)
  {
    StillListed(l, l', done, w, listing(w), o);
    var s, s' := Supervisor(map[], l.board.rows, l.list.queue), Supervisor(map[], l'.board.rows, l'.list.queue);
    WorkerServices.StuckUnder(s, s', Names(done), w, o);
    assert Names(done + [w]) == Names(done) + {w};
    if o.findOk(w) {
      Refinement.RequeueIsRecovery(l', w, listing(w), o.attempt);
    } else {
      NoneRequeued(s'.jobs, s'.queue);
    }
    var e := After(l', WorkerActions(w, listing, o));
    InvAlways(l', WorkerActions(w, listing, o));
    RequeuedJoin(s.jobs, s.queue, s'.jobs, s'.queue, e.board.rows, e.list.queue,
                 WorkerServices.RecoveredUnder(s.jobs, Names(done), o), WorkerServices.RecoveredUnder(s.jobs, {w}, o));
  }

  lemma {:induction false} CheckRuns(l: Ledger, order: seq<string>, listing: string -> seq<JobId>, o: Outcomes)
    requires Inv(l) && l.phase == Serving && l.recovery == [] && NoRepeats(order) && Lists(l.board.rows, order, listing)
    ensures Runs(l, CheckActions(order, listing, o)) && Partly(l, After(l, CheckActions(order, listing, o)), order, o)
  {
    if order == [] {
      NoneRequeued(l.board.rows, l.list.queue);
      assert WorkerServices.RecoveredUnder(l.board.rows, Names([]), o) == {};
    } else {
      var before, w := order[..|order| - 1], order[|order| - 1];
      assert order == before + [w];
      CheckRuns(l, before, listing, o);
      WorkerRuns(l, After(l, CheckActions(before, listing, o)), before, w, listing, o);
      LedgerRuns.Joined(l, CheckActions(before, listing, o), WorkerActions(w, listing, o));
    }
  }

  /** A health check is always possible while the supervisor serves, and does to rows, queue and registry what the service promises. */
  lemma CheckIsHealthCheck(c: Cluster, now: int, order: seq<string>, listing: string -> seq<JobId>, o: Outcomes) returns (c': Cluster)
    requires Inv(c.ledger) && CanCheck(c, now, order, listing)
    ensures Steps(c, Check(now, order, listing, o), c')
    ensures HealthChecked(View(c), View(c'), now, o)
  {
    CheckRuns(c.ledger, order, listing, o);
    c' := Cluster(After(c.ledger, CheckActions(order, listing, o)), AllChecked(c.workers, now, o.markOk));
    WorkerServices.AllStaleDone(View(c), now, o);
  }

  lemma CheckMeans(c: Cluster, step: Step, c': Cluster)
    requires Inv(c.ledger) && Steps(c, step, c') && step.Check?
    ensures HealthChecked(View(c), View(c'), step.now, step.o)
  {
    var made := CheckIsHealthCheck(c, step.now, step.order, step.listing, step.o);
  }

  lemma StepKeepsInv(c: Cluster, step: Step, c': Cluster)
    requires Inv(c.ledger) && Steps(c, step, c')
    ensures Inv(c'.ledger)
  {
    match step
    case Do(a) => InvKept(c.ledger, a);
    case Check(_, order, listing, o) => InvAlways(c.ledger, CheckActions(order, listing, o));
    case _ =>
  }

  // ---------- exactly what ends an abandonment ----------

  /** A status write of job `id` that reaches the database, or the end of its row. */
  predicate StatusWrite(l: Ledger, a: Action, id: JobId) {
    match a
    case CreateRow(job) => job.id == id
    case RemoveRow(i) => i == id
    case FireMark(f, ok) => ok && f in l.fires && l.fires[f].payload.jobId == id
    case FireRevert(f, ok) => ok && f in l.fires && l.fires[f].payload.jobId == id
    case Begin(t, ok) => ok && t in l.runs && l.runs[t].payload.jobId == id
    case Finish(t, ok) => ok && t in l.runs && l.runs[t].payload.jobId == id
    case ResetRows(ok) => ok
    case _ => false
  }

  /** The write leaves the job running under `w`. */
  predicate StartsUnder(l: Ledger, a: Action, w: string) {
    a.Begin? && a.ticket in l.runs && l.runs[a.ticket].worker == w
  }

  predicate Ends(c: Cluster, step: Step, w: string, id: JobId) {
    match step
    case Do(a) => StatusWrite(c.ledger, a, id) && !StartsUnder(c.ledger, a, w)
    case Beat(v, _, _, _) => v == w
    case Register(v, _, _) => v == w
    case Check(_, _, _, _) => false
  }

  predicate SameStatus(rows: Jobs, rows': Jobs, id: JobId) {
    id in rows && id in rows' && rows'[id].status == rows[id].status && rows'[id].workerId == rows[id].workerId
  }

  lemma WorkUntouched(l: Ledger, a: Action, id: JobId)
    requires Enabled(l, a) && !StatusWrite(l, a, id) && id in l.board.rows && (IsFireAction(a) || IsRunAction(a))
    ensures SameStatus(l.board.rows, Next(l, a).board.rows, id)
  {
  }

  lemma RestUntouched(l: Ledger, a: Action, id: JobId)
    requires Enabled(l, a) && !StatusWrite(l, a, id) && id in l.board.rows && !IsFireAction(a) && !IsRunAction(a) && !a.Requeue?
    ensures SameStatus(l.board.rows, Next(l, a).board.rows, id)
  {
  }

  /** Every other action leaves status and assignment of the row alone. */
  lemma StatusUntouched(l: Ledger, a: Action, id: JobId)
    requires Enabled(l, a) && !StatusWrite(l, a, id) && !a.Requeue? && id in l.board.rows
    ensures SameStatus(l.board.rows, Next(l, a).board.rows, id)
  {
    if IsFireAction(a) || IsRunAction(a) {
      WorkUntouched(l, a, id);
    } else {
      RestUntouched(l, a, id);
    }
  }

  lemma StatusWriteEnds(l: Ledger, a: Action, id: JobId, w: string)
    requires Enabled(l, a) && StatusWrite(l, a, id) && IsRunning(l.board.rows, id) && l.board.rows[id].workerId == w
    ensures var rows := Next(l, a).board.rows;
      (id in rows && rows[id].status == Running && rows[id].workerId == w) <==> StartsUnder(l, a, w)
  {
  }

  /**
   Of all steps in the system, exactly these end an abandonment: a heartbeat or a registration of the worker, a
   status write of the job by a fire, a restart or an execution (unless it starts under the same name), and the
   removal of the row. No health check does.
   */
  lemma AbandonmentEndsIff(c: Cluster, step: Step, c': Cluster, w: string, id: JobId)
    requires Inv(c.ledger) && Steps(c, step, c') && Abandoned(View(c), w, id)
    ensures !Abandoned(View(c'), w, id) <==> Ends(c, step, w, id)
  {
    match step
    case Do(a) =>
      if StatusWrite(c.ledger, a, id) {
        StatusWriteEnds(c.ledger, a, id, w);
      } else {
        StatusUntouched(c.ledger, a, id);
      }
    case Check(now, _, _, o) =>
      CheckMeans(c, step, c');
      AbandonedStays(View(c), Checks(now, o), View(c'), w, id);
    case _ =>
  }

  // ---------- runs ----------

  ghost predicate ClusterRun(states: seq<Cluster>, steps: seq<Step>) {
    && |states| == |steps| + 1 && Inv(states[0].ledger)
    && forall i :: 0 <= i < |steps| ==> Steps(states[i], steps[i], states[i + 1])
  }

  lemma RunTail(states: seq<Cluster>, steps: seq<Step>)
    requires ClusterRun(states, steps) && steps != []
    ensures Steps(states[0], steps[0], states[1]) && ClusterRun(states[1..], steps[1..])
  {
    StepKeepsInv(states[0], steps[0], states[1]);
  }

  /** The health check turns to job `id`: it reads it among the jobs of a stale worker. */
  predicate Found(step: Step, id: JobId) {
    step.Check? && exists w :: w in step.order && step.o.findOk(w) && id in step.listing(w)
  }

  /** Who a row runs under, if it does and that worker is registered as active. */
  predicate RunsUnderActive(c: Cluster, id: JobId) {
    && IsRunning(c.ledger.board.rows, id)
    && var w := c.ledger.board.rows[id].workerId;
       w in c.workers && c.workers[w].status == Active
  }

  lemma FoundMeans(c: Cluster, step: Step, c': Cluster, id: JobId)
    requires Steps(c, step, c') && Found(step, id)
    ensures RunsUnderActive(c, id)
  {
    var w :| w in step.order && step.o.findOk(w) && id in step.listing(w);
    assert w in Names(step.order);
  }

  /** The step touches neither the status of the job nor the registration of the worker it runs under. */
  predicate Bystander(c: Cluster, step: Step, id: JobId)
    requires id in c.ledger.board.rows
  {
    match step
    case Do(a) => !StatusWrite(c.ledger, a, id)
    case Beat(v, _, _, _) => v != c.ledger.board.rows[id].workerId
    case Register(v, _, _) => v != c.ledger.board.rows[id].workerId
    case Check(_, _, _, _) => true
  }

  /** The row stays where no health check will find it. */
  lemma HiddenStays(c: Cluster, step: Step, c': Cluster, id: JobId)
    requires Inv(c.ledger) && Steps(c, step, c') && id in c.ledger.board.rows && Bystander(c, step, id) && !RunsUnderActive(c, id)
    ensures id in c'.ledger.board.rows && !RunsUnderActive(c', id)
  {
    match step
    case Do(a) => StatusUntouched(c.ledger, a, id);
    case Check(now, _, _, o) =>
      CheckMeans(c, step, c');
      var (s, s') := (View(c), View(c'));
      RequeuedRows(s.jobs, s.queue, s'.jobs, s'.queue, Recovered(s, now, o));
    case _ =>
  }

  /** All steps are bystanders of the job, and some health check finds it. */
  ghost predicate FoundInRun(states: seq<Cluster>, steps: seq<Step>, id: JobId) {
    && ClusterRun(states, steps)
    && (forall i :: 0 <= i < |steps| ==> id in states[i].ledger.board.rows && Bystander(states[i], steps[i], id))
    && exists i :: 0 <= i < |steps| && Found(steps[i], id)
  }

  lemma {:induction false} HiddenIsNeverFound(states: seq<Cluster>, steps: seq<Step>, id: JobId)
    requires ClusterRun(states, steps) && id in states[0].ledger.board.rows && !RunsUnderActive(states[0], id)
    requires forall i :: 0 <= i < |steps| ==> id in states[i].ledger.board.rows && Bystander(states[i], steps[i], id)
    ensures forall i :: 0 <= i < |steps| ==> !Found(steps[i], id)
  {
    if steps != [] {
      RunTail(states, steps);
      HiddenStays(states[0], steps[0], states[1], id);
      if Found(steps[0], id) {
        FoundMeans(states[0], steps[0], states[1], id);
      }
      HiddenIsNeverFound(states[1..], steps[1..], id);
      assert forall i :: 0 < i < |steps| ==> steps[i] == steps[1..][i - 1];
    }
  }

  ghost function InSomeOrder(names: set<string>): (r: seq<string>)
    ensures NoRepeats(r) && Names(r) == names
  {
    if names == {} then []
    else
      var w :| w in names;
      var rest := InSomeOrder(names - {w});
      assert Names([w] + rest) == {w} + Names(rest);
      assert w !in Names(rest);
      [w] + rest
  }

  ghost function Listing(ids: set<JobId>): (r: seq<JobId>)
    ensures Distinct(r) && forall id :: id in r <==> id in ids
  {
    if ids == {} then []
    else
      var id :| id in ids;
      [id] + Listing(ids - {id})
  }

  ghost function StuckListing(rows: Jobs): string -> seq<JobId> {
    w => Listing(Stuck(rows, w))
  }

  /** A health check late enough for the worker of `id`. */
  lemma SomeCheckFinds(c: Cluster, id: JobId, o: Outcomes) returns (step: Step, c': Cluster)
    requires Inv(c.ledger) && c.ledger.phase == Serving && c.ledger.recovery == [] && RunsUnderActive(c, id)
    requires o.findOk(c.ledger.board.rows[id].workerId)
    ensures Steps(c, step, c') && Found(step, id)
  {
    var rows := c.ledger.board.rows;
    var w := rows[id].workerId;
    var now := c.workers[w].lastHeartbeat + HEARTBEAT_TIMEOUT + 1;
    var order := InSomeOrder(WorkerServices.StaleNames(c.workers, now));
    step := Check(now, order, StuckListing(rows), o);
    assert w in Names(order) && id in Stuck(rows, w);
    c' := CheckIsHealthCheck(c, now, order, StuckListing(rows), o);
  }

  /**
   Exactly which rows a health check can still find as long as nobody writes their status and their worker
   stays silent, whatever else happens: those that say `running` under a worker that is registered and active.
   */
  lemma FoundIffUnderActive(c: Cluster, id: JobId)
    requires Inv(c.ledger) && c.ledger.phase == Serving && c.ledger.recovery == [] && id in c.ledger.board.rows
    ensures (exists states, steps :: FoundInRun(states, steps, id) && states[0] == c) <==> RunsUnderActive(c, id)
  {
    if RunsUnderActive(c, id) {
      var step, c' := SomeCheckFinds(c, id, Outcomes(_ => true, _ => true, _ => Succeeds));
      var states, steps := [c, c'], [step];
      assert Found(steps[0], id) && ClusterRun(states, steps);
      assert FoundInRun(states, steps, id);
    }
    forall states, steps | FoundInRun(states, steps, id) && states[0] == c ensures RunsUnderActive(c, id) {
      if !RunsUnderActive(c, id) {
        HiddenIsNeverFound(states, steps, id);
      }
    }
  }

  /** A worker without a name never gets into the registry, so no health check finds a row that was written under the empty name. */
  lemma {:induction false} NamelessIsNeverRegistered(states: seq<Cluster>, steps: seq<Step>)
    requires ClusterRun(states, steps) && "" !in states[0].workers
    ensures "" !in states[|steps|].workers
  {
    if steps != [] {
      RunTail(states, steps);
      NamelessIsNeverRegistered(states[1..], steps[1..]);
    }
  }

  // ---------- a dead worker's jobs are back within 75 seconds ----------

  /** Nothing is heard of `w`. */
  predicate Silence(step: Step, w: string) {
    match step
    case Beat(v, _, _, _) => v != w
    case Register(v, _, _) => v != w
    case _ => true
  }

  /** The times of the health checks in the run. */
  function CheckTimes(steps: seq<Step>): seq<int> {
    if steps == [] then []
    else
      var last := steps[|steps| - 1];
      CheckTimes(steps[..|steps| - 1]) + if last.Check? then [last.now] else []
  }

  /** The ticker's times, 30 s apart. */
  predicate Ticking(times: seq<int>, first: int) {
    forall k :: 0 <= k < |times| ==> times[k] == first + k * HEALTH_CHECK_INTERVAL
  }

  predicate AllBy(times: seq<int>, limit: int) {
    forall k :: 0 <= k < |times| ==> times[k] <= limit
  }

  lemma ChecksBefore(steps: seq<Step>, limit: int)
    requires steps != [] && AllBy(CheckTimes(steps), limit)
    ensures AllBy(CheckTimes(steps[..|steps| - 1]), limit)
    ensures steps[|steps| - 1].Check? ==> steps[|steps| - 1].now <= limit
  {
    var times, before := CheckTimes(steps), CheckTimes(steps[..|steps| - 1]);
    assert forall k :: 0 <= k < |before| ==> before[k] == times[k];
    assert steps[|steps| - 1].Check? ==> times[|before|] == steps[|steps| - 1].now;
  }

  /** The worker is active and was last heard of at `beat`. */
  predicate Waits(c: Cluster, w: string, beat: int) {
    w in c.workers && c.workers[w].status == Active && c.workers[w].lastHeartbeat == beat
  }

  lemma WaitsOn(c: Cluster, step: Step, c': Cluster, w: string, beat: int)
    requires Inv(c.ledger) && Steps(c, step, c') && Silence(step, w) && Waits(c, w, beat)
    requires step.Check? ==> step.now <= beat + HEARTBEAT_TIMEOUT
    ensures Waits(c', w, beat)
  {
  }

  lemma {:induction false} WaitsAlways(states: seq<Cluster>, steps: seq<Step>, w: string, beat: int)
    requires ClusterRun(states, steps) && Waits(states[0], w, beat)
    requires forall i :: 0 <= i < |steps| ==> Silence(steps[i], w)
    requires AllBy(CheckTimes(steps), beat + HEARTBEAT_TIMEOUT)
    ensures Inv(states[|steps|].ledger) && Waits(states[|steps|], w, beat)
  {
    if steps != [] {
      var n := |steps| - 1;
      assert ClusterRun(states[..n + 1], steps[..n]);
      ChecksBefore(steps, beat + HEARTBEAT_TIMEOUT);
      WaitsAlways(states[..n + 1], steps[..n], w, beat);
      StepKeepsInv(states[n], steps[n], states[n + 1]);
      WaitsOn(states[n], steps[n], states[n + 1], w, beat);
    }
  }

  /** The last step is the first tick more than 45 s after the worker's last heartbeat. */
  predicate EndsAtDetection(steps: seq<Step>, first: int, beat: int) {
    && steps != [] && steps[|steps| - 1].Check? && Ticking(CheckTimes(steps), first)
    && |CheckTimes(steps)| == FailureDetector.Patience(first, beat) + 1
  }

  lemma TickInTime(first: int, beat: int, k: nat)
    requires k < FailureDetector.Patience(first, beat)
    ensures first + k * HEALTH_CHECK_INTERVAL <= beat + HEARTBEAT_TIMEOUT
  {
  }

  lemma DetectionTime(steps: seq<Step>, first: int, beat: int)
    requires EndsAtDetection(steps, first, beat)
    ensures var now := steps[|steps| - 1].now;
      && now == first + FailureDetector.Patience(first, beat) * HEALTH_CHECK_INTERVAL
      && now > beat + HEARTBEAT_TIMEOUT
      && (first <= beat + HEARTBEAT_TIMEOUT + HEALTH_CHECK_INTERVAL ==> now <= beat + HEARTBEAT_TIMEOUT + HEALTH_CHECK_INTERVAL)
    ensures AllBy(CheckTimes(steps[..|steps| - 1]), beat + HEARTBEAT_TIMEOUT)
  {
    var n := |steps| - 1;
    var times, before := CheckTimes(steps), CheckTimes(steps[..n]);
    assert times == before + [steps[n].now];
    assert times[|before|] == steps[n].now;
    FailureDetector.SilentWorkerIsFound(Worker(Active, "", 0, 0, beat), first, 0);
    forall k | 0 <= k < |before| ensures before[k] <= beat + HEARTBEAT_TIMEOUT {
      assert times[k] == before[k];
      TickInTime(first, beat, k);
    }
  }

  lemma GainedAreQueued(rows: Jobs, queue: seq<Payload>, queue': seq<Payload>, ids: set<JobId>)
    requires Gained(rows, queue, queue', ids)
    ensures forall id :: id in ids ==> InQueue(queue', id)
  {
    var added :| OnePayloadEach(rows, ids, added) && queue' == added + queue;
    forall id | id in ids ensures InQueue(queue', id) {
      var i :| 0 <= i < |added| && added[i].jobId == id;
      assert queue'[i].jobId == id;
    }
  }

  /**
   However the other processes interleave: at the first tick more than 45 s after a worker's last sign of life,
   which comes within 75 s, every row that still runs under it becomes pending and unassigned with a payload in
   the queue, and no row runs under it any more, if that check succeeds for it.
   */
  lemma SilentWorkerIsCleared(states: seq<Cluster>, steps: seq<Step>, w: string, beat: int, first: int)
    requires ClusterRun(states, steps) && Waits(states[0], w, beat)
    requires forall i :: 0 <= i < |steps| ==> Silence(steps[i], w)
    requires EndsAtDetection(steps, first, beat)
    requires var o := steps[|steps| - 1].o;
      o.markOk(w) && o.findOk(w) && forall id :: id in Stuck(View(states[|steps| - 1]).jobs, w) ==> o.attempt(id) == Succeeds
    ensures first <= beat + HEARTBEAT_TIMEOUT + HEALTH_CHECK_INTERVAL ==>
              beat + HEARTBEAT_TIMEOUT < steps[|steps| - 1].now <= beat + HEARTBEAT_TIMEOUT + HEALTH_CHECK_INTERVAL
    ensures var before, e := states[|steps| - 1].ledger, states[|steps|].ledger;
      && w in states[|steps|].workers && states[|steps|].workers[w].status == Offline
      && Stuck(e.board.rows, w) == {}
      && forall id :: id in Stuck(before.board.rows, w) ==>
           IsPending(e.board.rows, id) && e.board.rows[id].workerId == "" && InQueue(e.list.queue, id)
  {
    var n := |steps| - 1;
    DetectionTime(steps, first, beat);
    assert ClusterRun(states[..n + 1], steps[..n]);
    WaitsAlways(states[..n + 1], steps[..n], w, beat);
    var c, c', now, o := states[n], states[n + 1], steps[n].now, steps[n].o;
    CheckMeans(c, steps[n], c');
    RecoveryIsComplete(View(c), View(c'), now, o, w);
    GainedAreQueued(View(c).jobs, View(c).queue, View(c').queue, Recovered(View(c), now, o));
  }

  lemma StuckStep(c: Cluster, step: Step, c': Cluster, w: string, beat: int, id: JobId)
    requires Inv(c.ledger) && Steps(c, step, c') && Waits(c, w, beat) && IsStuck(View(c), w, id)
    requires step.Do? ==> !StatusWrite(c.ledger, step.action, id)
    requires step.Check? ==> step.now <= beat + HEARTBEAT_TIMEOUT
    ensures IsStuck(View(c'), w, id)
  {
    match step
    case Do(a) => StatusUntouched(c.ledger, a, id);
    case Check(now, _, _, o) =>
      CheckMeans(c, step, c');
      OthersUntouched(View(c), View(c'), now, o, id);
    case _ =>
  }

  lemma {:induction false} StuckUntilWritten(states: seq<Cluster>, steps: seq<Step>, w: string, beat: int, id: JobId)
    requires ClusterRun(states, steps) && Waits(states[0], w, beat) && IsStuck(View(states[0]), w, id)
    requires forall i :: 0 <= i < |steps| ==> Silence(steps[i], w)
    requires forall i :: 0 <= i < |steps| && steps[i].Do? ==> !StatusWrite(states[i].ledger, steps[i].action, id)
    requires AllBy(CheckTimes(steps), beat + HEARTBEAT_TIMEOUT)
    ensures IsStuck(View(states[|steps|]), w, id)
  {
    if steps != [] {
      var n := |steps| - 1;
      assert ClusterRun(states[..n + 1], steps[..n]);
      ChecksBefore(steps, beat + HEARTBEAT_TIMEOUT);
      StuckUntilWritten(states[..n + 1], steps[..n], w, beat, id);
      WaitsAlways(states[..n + 1], steps[..n], w, beat);
      StuckStep(states[n], steps[n], states[n + 1], w, beat, id);
    }
  }

  /**
   From the heartbeat to the queue: a node dies while its worker is registered as active and a row runs under it. If nobody
   else writes the row, it is pending, unassigned and queued at most 75 s after the worker's last sign of life.
   */
  lemma DeadWorkersJobIsQueued(states: seq<Cluster>, steps: seq<Step>, node: string, w: string, id: JobId, beat: int, first: int)
    requires ClusterRun(states, steps) && Waits(states[0], w, beat) && IsStuck(View(states[0]), w, id)
    requires steps != [] && steps[0] == Do(NodeCrash(node))
    requires forall i :: 0 <= i < |steps| ==> Silence(steps[i], w)
    requires forall i :: 0 <= i < |steps| && steps[i].Do? ==> !StatusWrite(states[i].ledger, steps[i].action, id)
    requires EndsAtDetection(steps, first, beat) && first <= beat + HEARTBEAT_TIMEOUT + HEALTH_CHECK_INTERVAL
    requires var o := steps[|steps| - 1].o;
      o.markOk(w) && o.findOk(w) && forall i :: i in Stuck(View(states[|steps| - 1]).jobs, w) ==> o.attempt(i) == Succeeds
    ensures steps[|steps| - 1].now <= beat + 75000
    ensures var e := states[|steps|].ledger;
      IsPending(e.board.rows, id) && e.board.rows[id].workerId == "" && InQueue(e.list.queue, id)
  {
    var n := |steps| - 1;
    DetectionTime(steps, first, beat);
    assert ClusterRun(states[..n + 1], steps[..n]);
    StuckUntilWritten(states[..n + 1], steps[..n], w, beat, id);
    SilentWorkerIsCleared(states, steps, w, beat, first);
  }
}
