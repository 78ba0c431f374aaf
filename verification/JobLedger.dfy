/**
 The job ledger: job rows, the Redis list, cron fires in the supervisor and
 executions on the workers, one atomic action per database or queue operation.
 Actions of different processes interleave freely, so one job may be queued and
 executed several times at once.
 */
module JobLedger {
  import opened Model

  /** Where one call of `executeJob` stands. */
  datatype FireStage = Started | Confirmed | Marked | Unqueued | Queued

  datatype Fire = Fire(payload: Payload, stage: FireStage)

  type Fires = map<nat, Fire>

  /** Where one goroutine running `processJob` stands; `Claimed` is before its `running` write. */
  datatype Stage = Claimed | Scraping | Scraped(ok: bool)

  /** `worker` is the name that the node writes into `worker_id`. */
  datatype Execution = Execution(node: string, worker: string, payload: Payload, stage: Stage)

  type Executions = map<nat, Execution>

  /** `Down` and `Flushed` are before and after the queue is cleared at startup. */
  datatype Phase = Serving | Down | Flushed

  /** Why nobody is working for a row that says `pending` or `running`; the last three are failed writes. */
  datatype Cause = NodeDied | SupervisorDied | QueueCleared | BeginFailed | FinishFailed | RevertFailed

  /** Job rows, and as history the rows whose last trace was destroyed and that were not written since. */
  datatype Board = Board(rows: Jobs, orphans: map<JobId, Cause>)

  /**
   The Redis list; index 0 is the end that LPush writes to. As history: every payload
   ever pushed (its index there is its ticket), how many of them were pushed before the
   last flush, and what was popped since.
   */
  datatype RedisList = RedisList(queue: seq<Payload>, issued: seq<Payload>, epoch: nat, popped: seq<Payload>)

  /** History: where the tickets ended that nobody holds any more, and the executions that died with their node. */
  datatype Fates = Fates(finished: set<nat>, flushed: set<nat>, lost: Executions)

  /** History: fires that died with the supervisor, and the processes whose status write failed, as they were before it. */
  datatype Failures = Failures(cut: set<Fire>, unreverted: set<Fire>, unbegun: set<Execution>, unfinished: set<Execution>)

  /** Executions are keyed by the ticket they hold; `nodes` gives each live node its worker name. */
  datatype Ledger = Ledger(
    board: Board,
    list: RedisList,
    fires: Fires,
    nextFire: nat,
    nodes: map<string, string>,
    runs: Executions,
    fates: Fates,
    failures: Failures,
    recovery: seq<Payload>,
    phase: Phase)

  datatype Action =
    | CreateRow(job: Job)
    | EditRow(id: JobId, name: string, url: string, cron: string, active: bool, next: Option<nat>)
    | RemoveRow(id: JobId)
    | FireCron(payload: Payload)
    | FireRead(fire: nat, readOk: bool)
    | FireMark(fire: nat, dbOk: bool)
    | FirePush(fire: nat, pushOk: bool)
    | FireRevert(fire: nat, dbOk: bool)
    | FireNote(fire: nat, next: Option<nat>)
    | NodeStart(node: string, worker: string)
    | NodeStop(node: string)
    | NodeCrash(node: string)
    | Claim(node: string)
    | Begin(ticket: nat, dbOk: bool)
    | Scrape(ticket: nat, scrapeOk: bool, report: Report)
    | Finish(ticket: nat, dbOk: bool)
    | FindStuck(worker: string, stuck: seq<JobId>)
    | Requeue(requeueOk: bool)
    | Crash
    | FlushQueue(flushOk: bool)
    | ResetRows(dbOk: bool)

  predicate Init(s: Ledger) {
    s == Ledger(Board(map[], map[]), RedisList([], [], 0, []), map[], 0, map[], map[], Fates({}, {}, map[]), Failures({}, {}, {}, {}), [], Serving)
  }

  // ---------- the list ----------

  /** The ticket of the payload that the next BRPop returns. */
  function Head(l: RedisList): nat {
    l.epoch + |l.popped|
  }

  function Push(l: RedisList, p: Payload): RedisList {
    l.(queue := [p] + l.queue, issued := l.issued + [p])
  }

  function Pop(l: RedisList): RedisList
    requires l.queue != []
  {
    var last := |l.queue| - 1;
    l.(queue := l.queue[..last], popped := l.popped + [l.queue[last]])
  }

  function Flush(l: RedisList): RedisList {
    l.(queue := [], popped := [], epoch := |l.issued|)
  }

  /** Pushed since the last flush = popped since, then the queue from its old end to its new end. */
  predicate Fifo(l: RedisList) {
    && l.epoch <= |l.issued|
    && l.issued[l.epoch..] == l.popped + Reversed(l.queue)
  }

  // ---------- traces of a job ----------

  predicate InQueue(queue: seq<Payload>, id: JobId) {
    exists i :: 0 <= i < |queue| && queue[i].jobId == id
  }

  /** Some worker popped a payload of the job and has not yet tried its `running` write. */
  predicate IsClaimed(runs: Executions, id: JobId) {
    exists t :: t in runs && runs[t].payload.jobId == id && runs[t].stage == Claimed
  }

  predicate InWindow(stage: FireStage) {
    stage == Marked || stage == Unqueued
  }

  /** Some `executeJob` has passed its `pending` update and has neither pushed nor given up. */
  predicate IsFiring(fires: Fires, id: JobId) {
    exists f :: f in fires && fires[f].payload.jobId == id && InWindow(fires[f].stage)
  }

  /** Some execution of `worker` is past its `running` write and before its final write. */
  predicate IsExecuting(runs: Executions, id: JobId, worker: string) {
    exists t :: t in runs && runs[t].payload.jobId == id && runs[t].worker == worker && runs[t].stage != Claimed
  }

  // ---------- the board ----------

  /** The status of row `id` was written: whatever orphaned it before is over. */
  function Settle(b: Board, id: JobId, rows: Jobs): Board {
    Board(rows, b.orphans - {id})
  }

  function Orphan(b: Board, ids: set<JobId>, cause: Cause): Board {
    b.(orphans := b.orphans + map id | id in ids :: cause)
  }

  /** A status write that failed: the row is left to nobody if it is still `stuck`. */
  function Unwritten(b: Board, id: JobId, stuck: bool, cause: Cause): Board {
    if stuck then Orphan(b, {id}, cause) else b
  }

  function Marking(b: Board, id: JobId, dbOk: bool): Board {
    if dbOk then Settle(b, id, WithStatus(b.rows, id, Pending)) else b
  }

  function Reverting(b: Board, id: JobId, dbOk: bool): Board {
    if dbOk then Settle(b, id, WithUnqueued(b.rows, id)) else Unwritten(b, id, IsPending(b.rows, id), RevertFailed)
  }

  function Beginning(b: Board, id: JobId, worker: string, dbOk: bool): Board {
    if dbOk then Settle(b, id, WithRunning(b.rows, id, worker)) else Unwritten(b, id, IsPending(b.rows, id), BeginFailed)
  }

  function Finishing(b: Board, id: JobId, worker: string, ok: bool, dbOk: bool): Board {
    if dbOk then Settle(b, id, WithStatus(b.rows, id, if ok then Completed else Failed))
    else Unwritten(b, id, IsRunning(b.rows, id) && b.rows[id].workerId == worker, FinishFailed)
  }

  function Resetting(b: Board, dbOk: bool): Board {
    if dbOk then Board(ResetInFlight(b.rows), map[]) else b
  }

  // ---------- crashes ----------

  function OnNode(runs: Executions, n: string): Executions {
    map t | t in runs && runs[t].node == n :: runs[t]
  }

  function OffNode(runs: Executions, n: string): Executions {
    map t | t in runs && runs[t].node != n :: runs[t]
  }

  function ClaimedJobs(rows: Jobs, runs: Executions): set<JobId> {
    set id | id in rows && IsPending(rows, id) && IsClaimed(runs, id)
  }

  function ExecutingJobs(rows: Jobs, runs: Executions): set<JobId> {
    set id | id in rows && IsRunning(rows, id) && IsExecuting(runs, id, rows[id].workerId)
  }

  function UnpushedJobs(rows: Jobs, fires: Fires): set<JobId> {
    set id | id in rows && IsPending(rows, id) && IsFiring(fires, id)
  }

  function QueuedJobs(rows: Jobs, queue: seq<Payload>): set<JobId> {
    set id | id in rows && IsPending(rows, id) && InQueue(queue, id)
  }

  // ---------- one function per group of actions ----------

  predicate HasFire(s: Ledger, f: nat, stage: FireStage) {
    f in s.fires && s.fires[f].stage == stage
  }

  function MoveFire(fires: Fires, f: nat, stage: FireStage): Fires
    requires f in fires
  {
    fires[f := fires[f].(stage := stage)]
  }

  predicate HasRun(s: Ledger, t: nat, stage: Stage) {
    t in s.runs && s.runs[t].stage == stage
  }

  function MoveRun(runs: Executions, t: nat, stage: Stage): Executions
    requires t in runs
  {
    runs[t := runs[t].(stage := stage)]
  }

  function DoRead(s: Ledger, f: nat, readOk: bool): Ledger
    requires HasFire(s, f, Started)
  {
    var id := s.fires[f].payload.jobId;
    if readOk && id in s.board.rows && s.board.rows[id].active
    then s.(fires := MoveFire(s.fires, f, Confirmed))
    else s.(fires := s.fires - {f})
  }

  function DoMark(s: Ledger, f: nat, dbOk: bool): Ledger
    requires HasFire(s, f, Confirmed)
  {
    s.(fires := MoveFire(s.fires, f, Marked), board := Marking(s.board, s.fires[f].payload.jobId, dbOk))
  }

  function DoPush(s: Ledger, f: nat, pushOk: bool): Ledger
    requires HasFire(s, f, Marked)
  {
    if pushOk
    then s.(fires := MoveFire(s.fires, f, Queued), list := Push(s.list, s.fires[f].payload))
    else s.(fires := MoveFire(s.fires, f, Unqueued))
  }

  function DoRevert(s: Ledger, f: nat, dbOk: bool): Ledger
    requires HasFire(s, f, Unqueued)
  {
    s.(fires := s.fires - {f},
       board := Reverting(s.board, s.fires[f].payload.jobId, dbOk),
       failures := if dbOk then s.failures else s.failures.(unreverted := s.failures.unreverted + {s.fires[f]}))
  }

  function DoNote(s: Ledger, f: nat, next: Option<nat>): Ledger
    requires HasFire(s, f, Queued)
  {
    var rows := if next.Some? then WithNextRun(s.board.rows, s.fires[f].payload.jobId, next) else s.board.rows;
    s.(fires := s.fires - {f}, board := s.board.(rows := rows))
  }

  function DoNodeCrash(s: Ledger, n: string): Ledger {
    var gone := OnNode(s.runs, n);
    var ids := ClaimedJobs(s.board.rows, gone) + ExecutingJobs(s.board.rows, gone);
    s.(nodes := s.nodes - {n},
       runs := OffNode(s.runs, n),
       fates := s.fates.(lost := s.fates.lost + gone),
       board := Orphan(s.board, ids, NodeDied))
  }

  function DoClaim(s: Ledger, n: string): Ledger
    requires n in s.nodes && s.list.queue != []
  {
    var p := s.list.queue[|s.list.queue| - 1];
    s.(runs := s.runs[Head(s.list) := Execution(n, s.nodes[n], p, Claimed)], list := Pop(s.list))
  }

  function DoBegin(s: Ledger, t: nat, dbOk: bool): Ledger
    requires HasRun(s, t, Claimed)
  {
    var x := s.runs[t];
    s.(runs := MoveRun(s.runs, t, Scraping),
       board := Beginning(s.board, x.payload.jobId, x.worker, dbOk),
       failures := if dbOk then s.failures else s.failures.(unbegun := s.failures.unbegun + {x}))
  }

  function DoScrape(s: Ledger, t: nat, ok: bool, report: Report): Ledger
    requires HasRun(s, t, Scraping)
  {
    s.(runs := MoveRun(s.runs, t, Scraped(ok)),
       board := s.board.(rows := WithResult(s.board.rows, s.runs[t].payload.jobId, report)))
  }

  function DoFinish(s: Ledger, t: nat, dbOk: bool): Ledger
    requires t in s.runs && s.runs[t].stage.Scraped?
  {
    var x := s.runs[t];
    s.(runs := s.runs - {t},
       fates := s.fates.(finished := s.fates.finished + {t}),
       board := Finishing(s.board, x.payload.jobId, x.worker, x.stage.ok, dbOk),
       failures := if dbOk then s.failures else s.failures.(unfinished := s.failures.unfinished + {x}))
  }

  function DoRequeue(s: Ledger, ok: bool): Ledger
    requires s.recovery != []
  {
    var p := s.recovery[0];
    var s' := s.(recovery := s.recovery[1..]);
    if ok
    then s'.(list := Push(s.list, p), board := Settle(s.board, p.jobId, WithRequeued(s.board.rows, p.jobId)))
    else s'
  }

  function DoCrash(s: Ledger): Ledger {
    s.(phase := Down, fires := map[], recovery := [],
       failures := s.failures.(cut := s.failures.cut + s.fires.Values),
       board := Orphan(s.board, UnpushedJobs(s.board.rows, s.fires), SupervisorDied))
  }

  function DoFlush(s: Ledger, ok: bool): Ledger {
    if ok
    then s.(phase := Flushed, list := Flush(s.list),
            fates := s.fates.(flushed := s.fates.flushed + Between(Head(s.list), |s.list.issued|)),
            board := Orphan(s.board, QueuedJobs(s.board.rows, s.list.queue), QueueCleared))
    else s.(phase := Flushed)
  }

  predicate Enabled(s: Ledger, a: Action) {
    match a
    case CreateRow(job) => s.phase == Serving && job.id !in s.board.rows && job.status == Scheduled
    case EditRow(id, _, _, _, _, _) => s.phase == Serving && id in s.board.rows
    case RemoveRow(_) => s.phase == Serving
    case FireCron(p) => s.phase == Serving && p.jobId in s.board.rows && p == PayloadOf(s.board.rows[p.jobId])
    case FireRead(f, _) => HasFire(s, f, Started)
    case FireMark(f, _) => HasFire(s, f, Confirmed)
    case FirePush(f, _) => HasFire(s, f, Marked)
    case FireRevert(f, _) => HasFire(s, f, Unqueued)
    case FireNote(f, _) => HasFire(s, f, Queued)
    case NodeStart(n, _) => n !in s.nodes
    case NodeStop(n) => n in s.nodes && forall t :: t in s.runs ==> s.runs[t].node != n
    case NodeCrash(n) => n in s.nodes
    case Claim(n) => n in s.nodes && s.list.queue != []
    case Begin(t, _) => HasRun(s, t, Claimed)
    case Scrape(t, _, _) => HasRun(s, t, Scraping)
    case Finish(t, _) => t in s.runs && s.runs[t].stage.Scraped?
    case FindStuck(worker, stuck) => s.phase == Serving && s.recovery == [] && ListsStuck(s.board.rows, worker, stuck)
    case Requeue(_) => s.recovery != []
    case Crash => s.phase != Down
    case FlushQueue(_) => s.phase == Down
    case ResetRows(_) => s.phase == Flushed
  }

  function Next(s: Ledger, a: Action): Ledger
    requires Enabled(s, a)
  {
    match a
    case CreateRow(job) => s.(board := s.board.(rows := s.board.rows[job.id := job]))
    case EditRow(id, name, url, cron, active, next) =>
      var row := s.board.rows[id].(name := name, url := url, cron := cron, active := active, nextRun := next);
      s.(board := s.board.(rows := s.board.rows[id := row]))
    case RemoveRow(id) => s.(board := Settle(s.board, id, s.board.rows - {id}))
    case FireCron(p) => s.(fires := s.fires[s.nextFire := Fire(p, Started)], nextFire := s.nextFire + 1)
    case FireRead(f, ok) => DoRead(s, f, ok)
    case FireMark(f, ok) => DoMark(s, f, ok)
    case FirePush(f, ok) => DoPush(s, f, ok)
    case FireRevert(f, ok) => DoRevert(s, f, ok)
    case FireNote(f, next) => DoNote(s, f, next)
    case NodeStart(n, worker) => s.(nodes := s.nodes[n := worker])
    case NodeStop(n) => s.(nodes := s.nodes - {n})
    case NodeCrash(n) => DoNodeCrash(s, n)
    case Claim(n) => DoClaim(s, n)
    case Begin(t, ok) => DoBegin(s, t, ok)
    case Scrape(t, ok, report) => DoScrape(s, t, ok, report)
    case Finish(t, ok) => DoFinish(s, t, ok)
    case FindStuck(worker, stuck) => s.(recovery := PayloadsOf(s.board.rows, stuck))
    case Requeue(ok) => DoRequeue(s, ok)
    case Crash => DoCrash(s)
    case FlushQueue(ok) => DoFlush(s, ok)
    case ResetRows(ok) => s.(phase := Serving, board := Resetting(s.board, ok))
  }

  // ---------- runs ----------

  predicate Runs(s: Ledger, acts: seq<Action>)
    decreases |acts|
  {
    acts == [] || (Enabled(s, acts[0]) && Runs(Next(s, acts[0]), acts[1..]))
  }

  function After(s: Ledger, acts: seq<Action>): Ledger
    requires Runs(s, acts)
    decreases |acts|
  {
    if acts == [] then s else After(Next(s, acts[0]), acts[1..])
  }

  // ---------- what every reachable state satisfies ----------

  /** Keys are in range, live nodes own their executions, and a supervisor that is down has no process. */
  predicate Formed(s: Ledger) {
    && Keyed(s.board.rows)
    && (forall f :: f in s.fires ==> f < s.nextFire)
    && (forall t :: t in s.runs ==> s.runs[t].node in s.nodes && s.nodes[s.runs[t].node] == s.runs[t].worker)
    && (s.phase != Serving ==> s.fires == map[] && s.recovery == [])
  }

  /** Every ticket that left the queue is held by one execution, finished, flushed or lost: exactly one of them. */
  predicate Conserved(l: RedisList, runs: Executions, x: Fates) {
    && runs.Keys + x.finished + x.flushed + x.lost.Keys == Between(0, Head(l))
    && runs.Keys !! x.finished !! x.flushed !! x.lost.Keys
    && (forall t :: t in runs ==> t < |l.issued| && runs[t].payload == l.issued[t])
    && (forall t :: t in x.lost ==> t < |l.issued| && x.lost[t].payload == l.issued[t])
  }

  /** A `pending` or `running` row has somebody working for it, or is known to be orphaned. */
  predicate TracedAt(b: Board, queue: seq<Payload>, runs: Executions, fires: Fires, id: JobId) {
    && (IsPending(b.rows, id) ==> InQueue(queue, id) || IsClaimed(runs, id) || IsFiring(fires, id) || id in b.orphans)
    && (IsRunning(b.rows, id) ==> IsExecuting(runs, id, b.rows[id].workerId) || id in b.orphans)
    && (id in b.orphans ==> id in b.rows && InFlight(b.rows[id].status))
  }

  ghost predicate Traced(b: Board, queue: seq<Payload>, runs: Executions, fires: Fires) {
    forall id :: TracedAt(b, queue, runs, fires, id)
  }

  // ---------- why a row is orphaned ----------

  predicate FireAmong(fires: set<Fire>, id: JobId) {
    exists x :: x in fires && x.payload.jobId == id && InWindow(x.stage)
  }

  predicate ExecutionAmong(runs: set<Execution>, id: JobId) {
    exists x :: x in runs && x.payload.jobId == id
  }

  predicate WorkerAmong(runs: set<Execution>, id: JobId, worker: string) {
    exists x :: x in runs && x.payload.jobId == id && x.worker == worker
  }

  predicate TicketAmong(tickets: set<nat>, issued: seq<Payload>, id: JobId) {
    exists t :: t in tickets && t < |issued| && issued[t].jobId == id
  }

  /** What was destroyed that had been working for a row that says `pending`. */
  predicate PendingBlame(cause: Cause, issued: seq<Payload>, x: Fates, y: Failures, id: JobId) {
    match cause
    case NodeDied => IsClaimed(x.lost, id)
    case SupervisorDied => FireAmong(y.cut, id)
    case QueueCleared => TicketAmong(x.flushed, issued, id)
    case BeginFailed => ExecutionAmong(y.unbegun, id)
    case RevertFailed => FireAmong(y.unreverted, id)
    case FinishFailed => false
  }

  /** What ended without its final write for a row that says `running` under `worker`. */
  predicate RunningBlame(cause: Cause, x: Fates, y: Failures, id: JobId, worker: string) {
    match cause
    case NodeDied => IsExecuting(x.lost, id, worker)
    case FinishFailed => WorkerAmong(y.unfinished, id, worker)
    case _ => false
  }

  /** The record of an orphaned row names what was destroyed. */
  predicate BlamedAt(b: Board, issued: seq<Payload>, x: Fates, y: Failures, id: JobId) {
    id in b.orphans && id in b.rows ==>
      && (IsPending(b.rows, id) ==> PendingBlame(b.orphans[id], issued, x, y, id))
      && (IsRunning(b.rows, id) ==> RunningBlame(b.orphans[id], x, y, id, b.rows[id].workerId))
  }

  ghost predicate Blamed(b: Board, issued: seq<Payload>, x: Fates, y: Failures) {
    forall id :: BlamedAt(b, issued, x, y, id)
  }

  ghost predicate Inv(s: Ledger) {
    && Formed(s)
    && Fifo(s.list)
    && Conserved(s.list, s.runs, s.fates)
    && Traced(s.board, s.list.queue, s.runs, s.fires)
    && Blamed(s.board, s.list.issued, s.fates, s.failures)
  }
}
