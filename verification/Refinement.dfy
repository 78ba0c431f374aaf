/**
 The methods of the services and the actions of the ledger describe the same code: run without
 interference, the actions of one call leave exactly the rows and the queue that the method promises.
 */
module Refinement {
  import opened Model
  import opened JobLedger
  import opened LedgerSafety
  import opened LedgerRuns
  import Recovery
  import JobServices
  import ScraperServices

  /** `s` with other rows and another list; processes as in `s`. */
  predicate OnlyData(s: Ledger, e: Ledger, rows: Jobs, queue: seq<Payload>) {
    && e.board.rows == rows && e.list.queue == queue
    && e.fires == s.fires && e.runs == s.runs && e.nodes == s.nodes && e.phase == s.phase
  }

  /** `JobService.ExecuteJob` of an active job, with a push that succeeds or fails. */
  lemma ExecuteJobIsFire(s: Ledger, p: Payload, pushOk: bool, next: Option<nat>)
    requires Inv(s) && s.phase == Serving && Current(s, p) && s.board.rows[p.jobId].active
    ensures var acts := MarkActions(s.nextFire, p) + PushActions(s.nextFire, pushOk, next);
      && Runs(s, acts)
      && OnlyData(s, After(s, acts),
           if pushOk then JobServices.Fired(s.board.rows, p.jobId, next) else JobServices.GivenUp(s.board.rows, p.jobId),
           if pushOk then [p] + s.list.queue else s.list.queue)
  {
    var f := s.nextFire;
    MarkRuns(s, p);
    PushRuns(MarkedState(s, p), f, p, pushOk, next);
    Joined(s, MarkActions(f, p), PushActions(f, pushOk, next));
    assert s.fires[f := Fire(p, Marked)] - {f} == s.fires;
  }

  /** A fire that cannot read its row, or finds it deleted or inactive by now, ends there and leaves no trace. */
  lemma SkippedFire(s: Ledger, f: nat, readOk: bool)
    requires HasFire(s, f, Started)
    requires var id := s.fires[f].payload.jobId; !(readOk && id in s.board.rows && s.board.rows[id].active)
    ensures Runs(s, [FireRead(f, readOk)]) && After(s, [FireRead(f, readOk)]) == s.(fires := s.fires - {f})
  {
    Unroll(s, FireRead(f, readOk), []);
  }

  function ExecutionActions(t: nat, ok: bool, saved: nat): seq<Action> {
    [Begin(t, true), Scrape(t, ok, if ok then ScrapedItems(saved) else ErrorAfter(saved)), Finish(t, true)]
  }

  /** `ScraperService.ProcessJob` of a claimed payload. */
  lemma ProcessJobIsExecution(s: Ledger, t: nat, ok: bool, saved: nat)
    requires HasRun(s, t, Claimed)
    ensures Runs(s, ExecutionActions(t, ok, saved))
    ensures var e, x := After(s, ExecutionActions(t, ok, saved)), s.runs[t];
      && e.board.rows == ScraperServices.Executed(s.board.rows, x.payload.jobId, x.worker, ok, saved)
      && e.list == s.list && e.runs == s.runs - {t} && e.fates.finished == s.fates.finished + {t}
  {
    var acts := ExecutionActions(t, ok, saved);
    var s1 := DoBegin(s, t, true);
    var s2 := Next(s1, acts[1]);
    var s3 := DoFinish(s2, t, true);
    assert s3.runs == s.runs - {t};
    Unroll(s2, acts[2], []);
    Unroll(s1, acts[1], acts[2..]);
    Unroll(s, acts[0], acts[1..]);
  }

  function Attempts(stuck: seq<JobId>, attempt: JobId -> Recovery.Attempt): seq<Action> {
    if stuck == [] then [] else [Requeue(attempt(stuck[0]) == Recovery.Succeeds)] + Attempts(stuck[1..], attempt)
  }

  /** The jobs of `stuck` whose attempt succeeds, in their order. */
  function Successes(stuck: seq<JobId>, attempt: JobId -> Recovery.Attempt): seq<JobId> {
    if stuck == [] then []
    else (if attempt(stuck[0]) == Recovery.Succeeds then [stuck[0]] else []) + Successes(stuck[1..], attempt)
  }

  lemma {:induction false} SuccessesAre(stuck: seq<JobId>, attempt: JobId -> Recovery.Attempt)
    requires Distinct(stuck)
    ensures Distinct(Successes(stuck, attempt)) && Elements(Successes(stuck, attempt)) == Recovery.Saved(Elements(stuck), attempt)
    ensures forall id :: id in Successes(stuck, attempt) ==> id in stuck
  {
    if stuck != [] {
      SuccessesAre(stuck[1..], attempt);
      assert Elements(stuck) == {stuck[0]} + Elements(stuck[1..]);
      assert stuck[0] !in stuck[1..];
      assert Elements([stuck[0]]) == {stuck[0]};
      var rest := Successes(stuck[1..], attempt);
      if attempt(stuck[0]) == Recovery.Succeeds {
        Recovery.DistinctJoin([stuck[0]], rest);
        assert Recovery.Saved(Elements(stuck), attempt) == {stuck[0]} + Recovery.Saved(Elements(stuck[1..]), attempt);
      } else {
        assert [] + rest == rest;
        assert Recovery.Saved(Elements(stuck), attempt) == Recovery.Saved(Elements(stuck[1..]), attempt);
      }
    } else {
      assert Elements(stuck) == {};
    }
  }

  /** One turn of the requeue loop. */
  lemma OneAttempt(s: Ledger, rows: Jobs, stuck: seq<JobId>, ok: bool)
    requires stuck != [] && forall id :: id in stuck ==> id in rows && rows[id].id == id
    requires s.recovery == PayloadsOf(rows, stuck)
    ensures var id := stuck[0];
      && Next(s, Requeue(ok)).recovery == PayloadsOf(rows, stuck[1..])
      && OnlyData(s, Next(s, Requeue(ok)),
                  if ok then WithRequeued(s.board.rows, id) else s.board.rows,
                  if ok then [PayloadOf(rows[id])] + s.list.queue else s.list.queue)
  {
    assert s.recovery[0] == PayloadOf(rows[stuck[0]]);
    assert s.recovery[1..] == PayloadsOf(rows, stuck[1..]);
  }

  lemma FirstRow(now: Jobs, id: JobId, rest: seq<JobId>)
    ensures Recovery.RowsAfter(now, [id] + rest) == Recovery.RowsAfter(WithRequeued(now, id), rest)
  {
    Recovery.RowsAfterJoin(now, [id], rest);
    assert [id][..0] == [];
  }

  lemma PushedBefore(p: Payload, ps: seq<Payload>, queue: seq<Payload>)
    ensures Reversed([p] + ps) + queue == Reversed(ps) + ([p] + queue)
  {
    ReversedCons(p, ps);
  }

  lemma FirstPush(rows: Jobs, queue: seq<Payload>, id: JobId, rest: seq<JobId>)
    requires id in rows && forall i :: i in rest ==> i in rows
    ensures Recovery.QueueAfter(rows, queue, [id] + rest) == Recovery.QueueAfter(rows, [PayloadOf(rows[id])] + queue, rest)
  {
    var p, ps := PayloadOf(rows[id]), PayloadsOf(rows, rest);
    assert PayloadsOf(rows, [id] + rest) == [p] + ps;
    PushedBefore(p, ps, queue);
  }

  lemma {:induction false} AttemptsRun(s: Ledger, rows: Jobs, stuck: seq<JobId>, attempt: JobId -> Recovery.Attempt)
    requires (forall id :: id in stuck ==> id in rows && rows[id].id == id) && Distinct(stuck)
    requires s.recovery == PayloadsOf(rows, stuck)
    ensures Runs(s, Attempts(stuck, attempt))
    ensures forall id :: id in Successes(stuck, attempt) ==> id in rows
    ensures OnlyData(s, After(s, Attempts(stuck, attempt)), Recovery.RowsAfter(s.board.rows, Successes(stuck, attempt)),
                     Recovery.QueueAfter(rows, s.list.queue, Successes(stuck, attempt)))
    ensures After(s, Attempts(stuck, attempt)).recovery == []
    decreases |stuck|
  {
    SuccessesAre(stuck, attempt);
    if stuck == [] {
      assert PayloadsOf(rows, []) == [];
    } else {
      var ok, rest := attempt(stuck[0]) == Recovery.Succeeds, stuck[1..];
      OneAttempt(s, rows, stuck, ok);
      AttemptsRun(Next(s, Requeue(ok)), rows, rest, attempt);
      Unroll(s, Requeue(ok), Attempts(rest, attempt));
      if ok {
        FirstRow(s.board.rows, stuck[0], Successes(rest, attempt));
        FirstPush(rows, s.list.queue, stuck[0], Successes(rest, attempt));
      } else {
        assert [] + Successes(rest, attempt) == Successes(rest, attempt);
      }
    }
  }

  /** `WorkerService.RequeueWorkerJobs`, for the jobs in the order in which they were found. */
  lemma RequeueIsRecovery(s: Ledger, worker: string, stuck: seq<JobId>, attempt: JobId -> Recovery.Attempt)
    requires Inv(s) && Enabled(s, FindStuck(worker, stuck))
    ensures var acts := [FindStuck(worker, stuck)] + Attempts(stuck, attempt);
      && Runs(s, acts)
      && Recovery.Requeued(s.board.rows, s.list.queue, After(s, acts).board.rows, After(s, acts).list.queue,
                           Recovery.Saved(Recovery.Stuck(s.board.rows, worker), attempt))
      && After(s, acts).recovery == [] && After(s, acts).phase == s.phase
  {
    var rows := s.board.rows;
    var s1 := Next(s, FindStuck(worker, stuck));
    AttemptsRun(s1, rows, stuck, attempt);
    Unroll(s, FindStuck(worker, stuck), Attempts(stuck, attempt));
    SuccessesAre(stuck, attempt);
    assert Elements(stuck) == Recovery.Stuck(rows, worker);
    var e := After(s1, Attempts(stuck, attempt));
    assert Recovery.RequeuedInOrder(rows, s.list.queue, e.board.rows, e.list.queue,
                                    Recovery.Saved(Recovery.Stuck(rows, worker), attempt), Successes(stuck, attempt));
  }

  /** The first two steps of `LoadAndScheduleAllJobs`: whatever a crash left, nothing is in flight or orphaned. */
  lemma RestartClearsBoard(s: Ledger, flushOk: bool)
    requires Inv(s) && s.phase == Down
    ensures var acts := [FlushQueue(flushOk), ResetRows(true)];
      && Runs(s, acts)
      && var e := After(s, acts);
         && e.phase == Serving && e.board.rows == ResetInFlight(s.board.rows) && e.board.orphans == map[]
         && e.list.queue == (if flushOk then [] else s.list.queue)
         && forall id :: id in e.board.rows ==> !InFlight(e.board.rows[id].status)
  {
    var s1 := Next(s, FlushQueue(flushOk));
    assert s1.board.rows == s.board.rows && s1.phase == Flushed;
    Unroll(s1, ResetRows(true), []);
    Unroll(s, FlushQueue(flushOk), [ResetRows(true)]);
  }
}
