/** The job ledger keeps its invariant at every action, so it holds over every run. */
module LedgerSafety {
  import opened Model
  import opened JobLedger

  predicate IsFireAction(a: Action) {
    a.FireRead? || a.FireMark? || a.FirePush? || a.FireRevert? || a.FireNote?
  }

  predicate IsRowAction(a: Action) {
    a.CreateRow? || a.EditRow? || a.RemoveRow?
  }

  predicate IsRunAction(a: Action) {
    a.Claim? || a.Begin? || a.Scrape? || a.Finish?
  }

  lemma FireFormed(s: Ledger, a: Action)
    requires Formed(s) && Enabled(s, a) && IsFireAction(a)
    ensures Formed(Next(s, a))
  {
  }

  lemma RunFormed(s: Ledger, a: Action)
    requires Formed(s) && Enabled(s, a) && IsRunAction(a)
    ensures Formed(Next(s, a))
  {
  }

  lemma RowFormed(s: Ledger, a: Action)
    requires Formed(s) && Enabled(s, a) && (IsRowAction(a) || a.ResetRows?)
    ensures Formed(Next(s, a))
  {
  }

  lemma OtherFormed(s: Ledger, a: Action)
    requires Formed(s) && Enabled(s, a) && !IsFireAction(a) && !IsRunAction(a) && !IsRowAction(a) && !a.ResetRows?
    ensures Formed(Next(s, a))
  {
  }

  lemma FormedKept(s: Ledger, a: Action)
    requires Formed(s) && Enabled(s, a)
    ensures Formed(Next(s, a))
  {
    if IsFireAction(a) {
      FireFormed(s, a);
    } else if IsRunAction(a) {
      RunFormed(s, a);
    } else if IsRowAction(a) || a.ResetRows? {
      RowFormed(s, a);
    } else {
      OtherFormed(s, a);
    }
  }

  // ---------- the list and the tickets ----------

  lemma ReversedCons<T>(x: T, s: seq<T>)
    ensures Reversed([x] + s) == Reversed(s) + [x]
  {
    assert ([x] + s)[1..] == s;
  }

  lemma PushKeepsFifo(l: RedisList, p: Payload)
    requires Fifo(l)
    ensures Fifo(Push(l, p))
  {
    ReversedCons(p, l.queue);
    assert Push(l, p).issued[l.epoch..] == l.issued[l.epoch..] + [p];
  }

  lemma PopKeepsFifo(l: RedisList)
    requires Fifo(l) && l.queue != []
    ensures Fifo(Pop(l))
    ensures Head(l) < |l.issued| && l.queue[|l.queue| - 1] == l.issued[Head(l)]
  {
    var last := |l.queue| - 1;
    assert Reversed(l.queue) == [l.queue[last]] + Reversed(l.queue[..last]);
    assert l.issued[l.epoch..][|l.popped|] == l.issued[Head(l)];
  }

  predicate TouchesList(a: Action) {
    a.FirePush? || a.Requeue? || a.Claim? || a.FlushQueue?
  }

  lemma ListUntouched(s: Ledger, a: Action)
    requires Enabled(s, a) && !TouchesList(a)
    ensures Next(s, a).list == s.list
  {
  }

  lemma FifoKept(s: Ledger, a: Action)
    requires Fifo(s.list) && Enabled(s, a)
    ensures Fifo(Next(s, a).list)
  {
    match a
    case FirePush(f, ok) => PushKeepsFifo(s.list, s.fires[f].payload);
    case Requeue(ok) => PushKeepsFifo(s.list, s.recovery[0]);
    case Claim(_) => PopKeepsFifo(s.list);
    case FlushQueue(_) =>
    case _ => ListUntouched(s, a);
  }

  lemma ClaimConserves(s: Ledger, n: string)
    requires Fifo(s.list) && Conserved(s.list, s.runs, s.fates) && n in s.nodes && s.list.queue != []
    ensures var s' := DoClaim(s, n); Conserved(s'.list, s'.runs, s'.fates)
  {
    PopKeepsFifo(s.list);
    var s' := DoClaim(s, n);
    assert s'.runs.Keys == s.runs.Keys + {Head(s.list)};
  }

  lemma NodeCrashConserves(s: Ledger, n: string)
    requires Conserved(s.list, s.runs, s.fates)
    ensures var s' := DoNodeCrash(s, n); Conserved(s'.list, s'.runs, s'.fates)
  {
    assert OffNode(s.runs, n).Keys + OnNode(s.runs, n).Keys == s.runs.Keys;
  }

  lemma FinishConserves(s: Ledger, t: nat, ok: bool)
    requires Conserved(s.list, s.runs, s.fates) && t in s.runs && s.runs[t].stage.Scraped?
    ensures var s' := DoFinish(s, t, ok); Conserved(s'.list, s'.runs, s'.fates)
  {
    assert s.runs.Keys == (s.runs - {t}).Keys + {t};
  }

  lemma MoveConserves(l: RedisList, runs: Executions, x: Fates, t: nat, stage: Stage)
    requires Conserved(l, runs, x) && t in runs
    ensures Conserved(l, MoveRun(runs, t, stage), x)
  {
    assert MoveRun(runs, t, stage).Keys == runs.Keys;
  }

  lemma FlushConserves(s: Ledger, ok: bool)
    requires Fifo(s.list) && Conserved(s.list, s.runs, s.fates)
    ensures var s' := DoFlush(s, ok); Conserved(s'.list, s'.runs, s'.fates)
  {
    assert Head(s.list) <= |s.list.issued| by { assert |s.list.issued[s.list.epoch..]| >= |s.list.popped|; }
    assert Between(0, Head(s.list)) + Between(Head(s.list), |s.list.issued|) == Between(0, |s.list.issued|);
  }

  lemma ConservedKept(s: Ledger, a: Action)
    requires Fifo(s.list) && Conserved(s.list, s.runs, s.fates) && Enabled(s, a)
    ensures var s' := Next(s, a); Conserved(s'.list, s'.runs, s'.fates)
  {
    match a
    case Claim(n) => ClaimConserves(s, n);
    case NodeCrash(n) => NodeCrashConserves(s, n);
    case FlushQueue(ok) => FlushConserves(s, ok);
    case Finish(t, ok) => FinishConserves(s, t, ok);
    case Begin(t, _) => MoveConserves(s.list, s.runs, s.fates, t, Scraping);
    case Scrape(t, ok, _) => MoveConserves(s.list, s.runs, s.fates, t, Scraped(ok));
    case _ =>
  }

  // ---------- somebody works for every row in flight ----------

  lemma PushCovers(l: RedisList, p: Payload, id: JobId)
    ensures InQueue(l.queue, id) ==> InQueue(Push(l, p).queue, id)
    ensures InQueue(Push(l, p).queue, p.jobId)
  {
    assert Push(l, p).queue[0] == p;
    if InQueue(l.queue, id) {
      var i :| 0 <= i < |l.queue| && l.queue[i].jobId == id;
      assert Push(l, p).queue[i + 1].jobId == id;
    }
  }

  lemma FiresCover(fires: Fires, fires': Fires, f: nat, id: JobId)
    requires forall g :: g in fires && g != f ==> g in fires' && fires'[g] == fires[g]
    requires f in fires && fires[f].payload.jobId == id && InWindow(fires[f].stage)
             ==> f in fires' && fires'[f].payload.jobId == id && InWindow(fires'[f].stage)
    ensures IsFiring(fires, id) ==> IsFiring(fires', id)
  {
    if IsFiring(fires, id) {
      var g :| g in fires && fires[g].payload.jobId == id && InWindow(fires[g].stage);
      assert g in fires';
    }
  }

  lemma RunsCover(runs: Executions, runs': Executions, t: nat, id: JobId, w: string)
    requires forall u :: u in runs && u != t ==> u in runs' && runs'[u] == runs[u]
    ensures IsClaimed(runs, id) ==>
              IsClaimed(runs', id) || (t in runs && runs[t].payload.jobId == id && runs[t].stage == Claimed)
    ensures IsExecuting(runs, id, w) ==>
              IsExecuting(runs', id, w) || (t in runs && runs[t].payload.jobId == id && runs[t].worker == w && runs[t].stage != Claimed)
  {
    if IsClaimed(runs, id) {
      var u :| u in runs && runs[u].payload.jobId == id && runs[u].stage == Claimed;
      assert u == t || u in runs';
    }
    if IsExecuting(runs, id, w) {
      var u :| u in runs && runs[u].payload.jobId == id && runs[u].worker == w && runs[u].stage != Claimed;
      assert u == t || u in runs';
    }
  }

  predicate SoundAt(s: Ledger, id: JobId) {
    TracedAt(s.board, s.list.queue, s.runs, s.fires, id)
  }

  lemma ReadSound(s: Ledger, f: nat, ok: bool, id: JobId)
    requires SoundAt(s, id) && HasFire(s, f, Started)
    ensures SoundAt(DoRead(s, f, ok), id)
  {
    FiresCover(s.fires, DoRead(s, f, ok).fires, f, id);
  }

  lemma MarkSound(s: Ledger, f: nat, ok: bool, id: JobId)
    requires SoundAt(s, id) && HasFire(s, f, Confirmed)
    ensures SoundAt(DoMark(s, f, ok), id)
  {
    var fires' := MoveFire(s.fires, f, Marked);
    FiresCover(s.fires, fires', f, id);
    assert f in fires' && InWindow(fires'[f].stage);
  }

  lemma PushSound(s: Ledger, f: nat, ok: bool, id: JobId)
    requires SoundAt(s, id) && HasFire(s, f, Marked)
    ensures SoundAt(DoPush(s, f, ok), id)
  {
    var p := s.fires[f].payload;
    PushCovers(s.list, p, id);
    if !ok || p.jobId != id {
      FiresCover(s.fires, DoPush(s, f, ok).fires, f, id);
    }
  }

  lemma RevertSound(s: Ledger, f: nat, ok: bool, id: JobId)
    requires SoundAt(s, id) && HasFire(s, f, Unqueued)
    ensures SoundAt(DoRevert(s, f, ok), id)
  {
    if s.fires[f].payload.jobId != id {
      FiresCover(s.fires, s.fires - {f}, f, id);
    }
  }

  lemma NoteSound(s: Ledger, f: nat, next: Option<nat>, id: JobId)
    requires SoundAt(s, id) && HasFire(s, f, Queued)
    ensures SoundAt(DoNote(s, f, next), id)
  {
    FiresCover(s.fires, s.fires - {f}, f, id);
  }

  lemma CronSound(s: Ledger, p: Payload, id: JobId)
    requires SoundAt(s, id) && s.nextFire !in s.fires
    ensures SoundAt(s.(fires := s.fires[s.nextFire := Fire(p, Started)], nextFire := s.nextFire + 1), id)
  {
    FiresCover(s.fires, s.fires[s.nextFire := Fire(p, Started)], s.nextFire, id);
  }

  lemma ClaimSound(s: Ledger, n: string, id: JobId)
    requires Fifo(s.list) && Conserved(s.list, s.runs, s.fates)
    requires SoundAt(s, id) && n in s.nodes && s.list.queue != []
    ensures SoundAt(DoClaim(s, n), id)
  {
    var q, last, h := s.list.queue, |s.list.queue| - 1, Head(s.list);
    var runs' := DoClaim(s, n).runs;
    assert h !in s.runs.Keys;
    assert runs'[h].payload == q[last] && runs'[h].stage == Claimed;
    if id in s.board.rows {
      RunsCover(s.runs, runs', h, id, s.board.rows[id].workerId);
    }
    if InQueue(q, id) {
      var i :| 0 <= i < |q| && q[i].jobId == id;
      assert i == last || q[..last][i].jobId == id;
    }
  }

  lemma BeginSound(s: Ledger, t: nat, ok: bool, id: JobId)
    requires SoundAt(s, id) && HasRun(s, t, Claimed)
    ensures SoundAt(DoBegin(s, t, ok), id)
  {
    var runs' := MoveRun(s.runs, t, Scraping);
    assert t in runs' && runs'[t].stage == Scraping && runs'[t].worker == s.runs[t].worker;
    if id in s.board.rows {
      RunsCover(s.runs, runs', t, id, s.board.rows[id].workerId);
    }
  }

  lemma MoveCovers(runs: Executions, t: nat, stage: Stage, id: JobId, w: string)
    requires t in runs && runs[t].stage != Claimed && stage != Claimed
    ensures IsClaimed(runs, id) ==> IsClaimed(MoveRun(runs, t, stage), id)
    ensures IsExecuting(runs, id, w) ==> IsExecuting(MoveRun(runs, t, stage), id, w)
  {
    var runs' := MoveRun(runs, t, stage);
    assert t in runs' && runs'[t].stage != Claimed && runs'[t].worker == runs[t].worker && runs'[t].payload == runs[t].payload;
    RunsCover(runs, runs', t, id, w);
  }

  lemma ScrapeSound(s: Ledger, t: nat, ok: bool, report: Report, id: JobId)
    requires SoundAt(s, id) && HasRun(s, t, Scraping)
    ensures SoundAt(DoScrape(s, t, ok, report), id)
  {
    if id in s.board.rows {
      MoveCovers(s.runs, t, Scraped(ok), id, s.board.rows[id].workerId);
    }
  }

  lemma FinishSound(s: Ledger, t: nat, ok: bool, id: JobId)
    requires SoundAt(s, id) && t in s.runs && s.runs[t].stage.Scraped?
    ensures SoundAt(DoFinish(s, t, ok), id)
  {
    if id in s.board.rows {
      RunsCover(s.runs, s.runs - {t}, t, id, s.board.rows[id].workerId);
    }
  }

  lemma RequeueSound(s: Ledger, ok: bool, id: JobId)
    requires SoundAt(s, id) && s.recovery != []
    ensures SoundAt(DoRequeue(s, ok), id)
  {
    PushCovers(s.list, s.recovery[0], id);
  }

  lemma SplitRuns(runs: Executions, n: string, id: JobId, w: string)
    ensures IsClaimed(runs, id) ==> IsClaimed(OnNode(runs, n), id) || IsClaimed(OffNode(runs, n), id)
    ensures IsExecuting(runs, id, w) ==> IsExecuting(OnNode(runs, n), id, w) || IsExecuting(OffNode(runs, n), id, w)
  {
    if IsClaimed(runs, id) {
      var t :| t in runs && runs[t].payload.jobId == id && runs[t].stage == Claimed;
      assert t in OnNode(runs, n) || t in OffNode(runs, n);
    }
    if IsExecuting(runs, id, w) {
      var t :| t in runs && runs[t].payload.jobId == id && runs[t].worker == w && runs[t].stage != Claimed;
      assert t in OnNode(runs, n) || t in OffNode(runs, n);
    }
  }

  lemma NodeCrashSound(s: Ledger, n: string, id: JobId)
    requires SoundAt(s, id)
    ensures SoundAt(DoNodeCrash(s, n), id)
  {
    if id in s.board.rows {
      SplitRuns(s.runs, n, id, s.board.rows[id].workerId);
    }
  }

  lemma CrashSound(s: Ledger, id: JobId)
    requires SoundAt(s, id)
    ensures SoundAt(DoCrash(s), id)
  {
  }

  lemma FlushSound(s: Ledger, ok: bool, id: JobId)
    requires SoundAt(s, id)
    ensures SoundAt(DoFlush(s, ok), id)
  {
  }

  lemma RowSound(s: Ledger, a: Action, id: JobId)
    requires SoundAt(s, id) && Enabled(s, a) && (IsRowAction(a) || a.ResetRows?)
    ensures SoundAt(Next(s, a), id)
  {
  }

  lemma BystanderSound(s: Ledger, a: Action, id: JobId)
    requires SoundAt(s, id) && Enabled(s, a) && (a.NodeStart? || a.NodeStop? || a.FindStuck?)
    ensures SoundAt(Next(s, a), id)
  {
  }

  lemma SoundKept(s: Ledger, a: Action, id: JobId)
    requires Formed(s) && Fifo(s.list) && Conserved(s.list, s.runs, s.fates) && SoundAt(s, id) && Enabled(s, a)
    ensures SoundAt(Next(s, a), id)
  {
    match a
    case CreateRow(_) => RowSound(s, a, id);
    case EditRow(_, _, _, _, _, _) => RowSound(s, a, id);
    case RemoveRow(_) => RowSound(s, a, id);
    case FireCron(p) => CronSound(s, p, id);
    case FireRead(f, ok) => ReadSound(s, f, ok, id);
    case FireMark(f, ok) => MarkSound(s, f, ok, id);
    case FirePush(f, ok) => PushSound(s, f, ok, id);
    case FireRevert(f, ok) => RevertSound(s, f, ok, id);
    case FireNote(f, next) => NoteSound(s, f, next, id);
    case NodeStart(_, _) => BystanderSound(s, a, id);
    case NodeStop(_) => BystanderSound(s, a, id);
    case NodeCrash(n) => NodeCrashSound(s, n, id);
    case Claim(n) => ClaimSound(s, n, id);
    case Begin(t, ok) => BeginSound(s, t, ok, id);
    case Scrape(t, ok, report) => ScrapeSound(s, t, ok, report, id);
    case Finish(t, ok) => FinishSound(s, t, ok, id);
    case FindStuck(_, _) => BystanderSound(s, a, id);
    case Requeue(ok) => RequeueSound(s, ok, id);
    case Crash => CrashSound(s, id);
    case FlushQueue(ok) => FlushSound(s, ok, id);
    case ResetRows(_) => RowSound(s, a, id);
  }

  // ---------- an orphaned row has a record of what was destroyed ----------

  /** Records are never withdrawn. */
  predicate Remembers(issued: seq<Payload>, issued': seq<Payload>, x: Fates, x': Fates, y: Failures, y': Failures) {
    && issued <= issued' && x.flushed <= x'.flushed
    && (forall t :: t in x.lost ==> t in x'.lost && x'.lost[t] == x.lost[t])
    && y.cut <= y'.cut && y.unreverted <= y'.unreverted && y.unbegun <= y'.unbegun && y.unfinished <= y'.unfinished
  }

  predicate Grows(s: Ledger, s': Ledger) {
    Remembers(s.list.issued, s'.list.issued, s.fates, s'.fates, s.failures, s'.failures)
  }

  lemma RunHistoryGrows(s: Ledger, a: Action)
    requires Enabled(s, a) && IsRunAction(a)
    ensures Grows(s, Next(s, a))
  {
  }

  lemma FireHistoryGrows(s: Ledger, a: Action)
    requires Enabled(s, a) && IsFireAction(a)
    ensures Grows(s, Next(s, a))
  {
  }

  lemma NodeHistoryGrows(s: Ledger, n: string)
    requires Conserved(s.list, s.runs, s.fates)
    ensures Grows(s, DoNodeCrash(s, n))
  {
    assert OnNode(s.runs, n).Keys <= s.runs.Keys;
  }

  lemma OtherHistoryGrows(s: Ledger, a: Action)
    requires Enabled(s, a) && !IsRunAction(a) && !IsFireAction(a) && !a.NodeCrash?
    ensures Grows(s, Next(s, a))
  {
  }

  lemma HistoryGrows(s: Ledger, a: Action)
    requires Conserved(s.list, s.runs, s.fates) && Enabled(s, a)
    ensures Grows(s, Next(s, a))
  {
    if a.NodeCrash? {
      NodeHistoryGrows(s, a.node);
    } else if IsRunAction(a) {
      RunHistoryGrows(s, a);
    } else if IsFireAction(a) {
      FireHistoryGrows(s, a);
    } else {
      OtherHistoryGrows(s, a);
    }
  }

  lemma BlameStays(cause: Cause, issued: seq<Payload>, issued': seq<Payload>, x: Fates, x': Fates, y: Failures, y': Failures,
                   id: JobId, worker: string)
    requires Remembers(issued, issued', x, x', y, y')
    ensures PendingBlame(cause, issued, x, y, id) ==> PendingBlame(cause, issued', x', y', id)
    ensures RunningBlame(cause, x, y, id, worker) ==> RunningBlame(cause, x', y', id, worker)
  {
    if cause == QueueCleared && TicketAmong(x.flushed, issued, id) {
      var t :| t in x.flushed && t < |issued| && issued[t].jobId == id;
      assert issued'[t] == issued[t];
    }
  }

  predicate ExplainedAt(s: Ledger, id: JobId) {
    BlamedAt(s.board, s.list.issued, s.fates, s.failures, id)
  }

  /** The row was orphaned before, for the same reason, and says the same. */
  predicate OldOrphan(s: Ledger, s': Ledger, id: JobId) {
    && id in s.board.orphans && id in s'.board.orphans && s'.board.orphans[id] == s.board.orphans[id]
    && id in s.board.rows && id in s'.board.rows
    && s'.board.rows[id].status == s.board.rows[id].status && s'.board.rows[id].workerId == s.board.rows[id].workerId
  }

  lemma OldBlame(s: Ledger, a: Action, id: JobId)
    requires Conserved(s.list, s.runs, s.fates) && Enabled(s, a) && ExplainedAt(s, id) && OldOrphan(s, Next(s, a), id)
    ensures ExplainedAt(Next(s, a), id)
  {
    HistoryGrows(s, a);
    var s' := Next(s, a);
    BlameStays(s.board.orphans[id], s.list.issued, s'.list.issued, s.fates, s'.fates, s.failures, s'.failures,
               id, s.board.rows[id].workerId);
  }

  predicate Breaks(a: Action) {
    a.FireRevert? || a.Begin? || a.Finish? || a.NodeCrash? || a.Crash? || a.FlushQueue?
  }

  lemma WorkMakesNoOrphan(s: Ledger, a: Action, id: JobId)
    requires Enabled(s, a) && !Breaks(a) && (id in s.board.orphans ==> id in s.board.rows) && id in Next(s, a).board.orphans
    requires IsFireAction(a) || IsRunAction(a)
    ensures OldOrphan(s, Next(s, a), id)
  {
  }

  lemma RestMakesNoOrphan(s: Ledger, a: Action, id: JobId)
    requires Enabled(s, a) && !Breaks(a) && (id in s.board.orphans ==> id in s.board.rows) && id in Next(s, a).board.orphans
    requires !IsFireAction(a) && !IsRunAction(a)
    ensures OldOrphan(s, Next(s, a), id)
  {
  }

  /** Only a crash, a flush or a failed write makes an orphan. */
  lemma NoNewOrphan(s: Ledger, a: Action, id: JobId)
    requires Enabled(s, a) && !Breaks(a) && (id in s.board.orphans ==> id in s.board.rows) && id in Next(s, a).board.orphans
    ensures OldOrphan(s, Next(s, a), id)
  {
    if IsFireAction(a) || IsRunAction(a) {
      WorkMakesNoOrphan(s, a, id);
    } else {
      RestMakesNoOrphan(s, a, id);
    }
  }

  lemma FailedRevertBlame(s: Ledger, f: nat, ok: bool, id: JobId)
    requires HasFire(s, f, Unqueued) && id in DoRevert(s, f, ok).board.orphans && (id in s.board.orphans ==> id in s.board.rows)
    ensures OldOrphan(s, DoRevert(s, f, ok), id) || ExplainedAt(DoRevert(s, f, ok), id)
  {
    assert !ok ==> s.fires[f] in DoRevert(s, f, ok).failures.unreverted;
  }

  lemma FailedBeginBlame(s: Ledger, t: nat, ok: bool, id: JobId)
    requires HasRun(s, t, Claimed) && id in DoBegin(s, t, ok).board.orphans && (id in s.board.orphans ==> id in s.board.rows)
    ensures OldOrphan(s, DoBegin(s, t, ok), id) || ExplainedAt(DoBegin(s, t, ok), id)
  {
    assert !ok ==> s.runs[t] in DoBegin(s, t, ok).failures.unbegun;
  }

  lemma FailedFinishBlame(s: Ledger, t: nat, ok: bool, id: JobId)
    requires t in s.runs && s.runs[t].stage.Scraped? && id in DoFinish(s, t, ok).board.orphans
    requires id in s.board.orphans ==> id in s.board.rows
    ensures OldOrphan(s, DoFinish(s, t, ok), id) || ExplainedAt(DoFinish(s, t, ok), id)
  {
    assert !ok ==> s.runs[t] in DoFinish(s, t, ok).failures.unfinished;
  }

  lemma DeathCovers(lost: Executions, gone: Executions, id: JobId, w: string)
    ensures IsClaimed(gone, id) ==> IsClaimed(lost + gone, id)
    ensures IsExecuting(gone, id, w) ==> IsExecuting(lost + gone, id, w)
  {
    if IsClaimed(gone, id) {
      var t :| t in gone && gone[t].payload.jobId == id && gone[t].stage == Claimed;
      assert t in lost + gone;
    }
    if IsExecuting(gone, id, w) {
      var t :| t in gone && gone[t].payload.jobId == id && gone[t].worker == w && gone[t].stage != Claimed;
      assert t in lost + gone;
    }
  }

  lemma NodeCrashBlame(s: Ledger, n: string, id: JobId)
    requires id in DoNodeCrash(s, n).board.orphans && (id in s.board.orphans ==> id in s.board.rows)
    ensures OldOrphan(s, DoNodeCrash(s, n), id) || ExplainedAt(DoNodeCrash(s, n), id)
  {
    if id in s.board.rows {
      DeathCovers(s.fates.lost, OnNode(s.runs, n), id, s.board.rows[id].workerId);
    }
  }

  lemma CrashBlame(s: Ledger, id: JobId)
    requires id in DoCrash(s).board.orphans && (id in s.board.orphans ==> id in s.board.rows)
    ensures OldOrphan(s, DoCrash(s), id) || ExplainedAt(DoCrash(s), id)
  {
    if IsFiring(s.fires, id) {
      var f :| f in s.fires && s.fires[f].payload.jobId == id && InWindow(s.fires[f].stage);
      assert s.fires[f] in DoCrash(s).failures.cut;
    }
  }

  /** Every queued payload holds a ticket that a flush gives up. */
  lemma QueueHasTickets(l: RedisList, id: JobId)
    requires Fifo(l) && InQueue(l.queue, id)
    ensures TicketAmong(Between(Head(l), |l.issued|), l.issued, id)
  {
    var i :| 0 <= i < |l.queue| && l.queue[i].jobId == id;
    var t := |l.issued| - 1 - i;
    assert |l.issued[l.epoch..]| == |l.popped| + |l.queue|;
    assert l.issued[l.epoch..][t - l.epoch] == Reversed(l.queue)[|l.queue| - 1 - i];
    assert t in Between(Head(l), |l.issued|) && l.issued[t].jobId == id;
  }

  lemma FlushBlame(s: Ledger, ok: bool, id: JobId)
    requires Fifo(s.list) && id in DoFlush(s, ok).board.orphans && (id in s.board.orphans ==> id in s.board.rows)
    ensures OldOrphan(s, DoFlush(s, ok), id) || ExplainedAt(DoFlush(s, ok), id)
  {
    if InQueue(s.list.queue, id) {
      QueueHasTickets(s.list, id);
    }
  }

  lemma BreakBlame(s: Ledger, a: Action, id: JobId)
    requires Fifo(s.list) && Enabled(s, a) && Breaks(a)
    requires id in Next(s, a).board.orphans && (id in s.board.orphans ==> id in s.board.rows)
    ensures OldOrphan(s, Next(s, a), id) || ExplainedAt(Next(s, a), id)
  {
    match a
    case FireRevert(f, ok) => FailedRevertBlame(s, f, ok, id);
    case Begin(t, ok) => FailedBeginBlame(s, t, ok, id);
    case Finish(t, ok) => FailedFinishBlame(s, t, ok, id);
    case NodeCrash(n) => NodeCrashBlame(s, n, id);
    case Crash => CrashBlame(s, id);
    case FlushQueue(ok) => FlushBlame(s, ok, id);
  }

  lemma BlameKept(s: Ledger, a: Action, id: JobId)
    requires Fifo(s.list) && Conserved(s.list, s.runs, s.fates) && SoundAt(s, id) && ExplainedAt(s, id) && Enabled(s, a)
    ensures ExplainedAt(Next(s, a), id)
  {
    var s' := Next(s, a);
    if id in s'.board.orphans {
      if Breaks(a) {
        BreakBlame(s, a, id);
      } else {
        NoNewOrphan(s, a, id);
      }
      if OldOrphan(s, s', id) {
        OldBlame(s, a, id);
      }
    }
  }

  lemma InvKept(s: Ledger, a: Action)
    requires Inv(s) && Enabled(s, a)
    ensures Inv(Next(s, a))
  {
    FormedKept(s, a);
    FifoKept(s, a);
    ConservedKept(s, a);
    var s' := Next(s, a);
    forall id ensures TracedAt(s'.board, s'.list.queue, s'.runs, s'.fires, id) {
      assert TracedAt(s.board, s.list.queue, s.runs, s.fires, id);
      SoundKept(s, a, id);
    }
    forall id ensures BlamedAt(s'.board, s'.list.issued, s'.fates, s'.failures, id) {
      assert TracedAt(s.board, s.list.queue, s.runs, s.fires, id);
      assert BlamedAt(s.board, s.list.issued, s.fates, s.failures, id);
      BlameKept(s, a, id);
    }
  }

  lemma {:induction false} InvAlways(s: Ledger, acts: seq<Action>)
    requires Inv(s) && Runs(s, acts)
    ensures Inv(After(s, acts))
    decreases |acts|
  {
    if acts != [] {
      InvKept(s, acts[0]);
      InvAlways(Next(s, acts[0]), acts[1..]);
    }
  }
}
