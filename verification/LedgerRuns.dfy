/** What holds over every run of the job ledger, and what a crash can still destroy. */
module LedgerRuns {
  import opened Model
  import opened JobLedger
  import opened LedgerSafety
  import opened LedgerQuiescence

  /** From the empty system every run ends in a state that satisfies the invariant. */
  lemma Safety(s: Ledger, acts: seq<Action>)
    requires Init(s) && Runs(s, acts)
    ensures Inv(After(s, acts))
  {
    InvAlways(s, acts);
  }

  /** Somebody has the job of a pending row in hand. */
  predicate Witnessed(s: Ledger, id: JobId) {
    InQueue(s.list.queue, id) || IsClaimed(s.runs, id) || IsFiring(s.fires, id)
  }

  /**
   A pending row has a payload, a claim or an unfinished fire. Otherwise it has a record, and the history
   shows what was destroyed: a claim of the job that died with its node, a fire that died with the supervisor
   between its two steps, a payload of the job that was flushed, or a process whose write failed.
   */
  lemma PendingHasWitness(s: Ledger, acts: seq<Action>, id: JobId)
    requires Init(s) && Runs(s, acts) && IsPending(After(s, acts).board.rows, id)
    ensures var e := After(s, acts);
      || Witnessed(e, id)
      || (id in e.board.orphans && PendingBlame(e.board.orphans[id], e.list.issued, e.fates, e.failures, id))
  {
    Safety(s, acts);
    var e := After(s, acts);
    assert TracedAt(e.board, e.list.queue, e.runs, e.fires, id);
    assert BlamedAt(e.board, e.list.issued, e.fates, e.failures, id);
  }

  /**
   A row running under a worker has an execution of that worker between its two writes. Otherwise that very
   worker died during an execution of the job, or finished one without getting its final write through.
   */
  lemma RunningHasExecution(s: Ledger, acts: seq<Action>, id: JobId)
    requires Init(s) && Runs(s, acts) && IsRunning(After(s, acts).board.rows, id)
    ensures var e, worker := After(s, acts), After(s, acts).board.rows[id].workerId;
      || IsExecuting(e.runs, id, worker)
      || IsExecuting(e.fates.lost, id, worker)
      || WorkerAmong(e.failures.unfinished, id, worker)
  {
    Safety(s, acts);
    var e := After(s, acts);
    assert TracedAt(e.board, e.list.queue, e.runs, e.fires, id);
    assert BlamedAt(e.board, e.list.issued, e.fates, e.failures, id);
  }

  /** Then only real processes and payloads are left as witnesses of a row in flight. */
  lemma FaultlessWitness(s: Ledger, acts: seq<Action>, id: JobId)
    requires Init(s) && Runs(s, acts) && forall i :: 0 <= i < |acts| ==> Faultless(acts[i])
    ensures var e := After(s, acts);
      && (IsPending(e.board.rows, id) ==> Witnessed(e, id))
      && (IsRunning(e.board.rows, id) ==> IsExecuting(e.runs, id, e.board.rows[id].workerId))
  {
    FaultlessRunsOrphanNothing(s, acts);
    Safety(s, acts);
    var e := After(s, acts);
    assert id !in e.board.orphans.Keys;
    assert TracedAt(e.board, e.list.queue, e.runs, e.fires, id);
  }

  // ---------- conservation ----------

  /** Every payload ever pushed is finished, held, queued, flushed or lost, and counted once. */
  lemma PayloadsAddUp(s: Ledger, acts: seq<Action>)
    requires Init(s) && Runs(s, acts)
    ensures var e := After(s, acts);
      |e.list.issued| == |e.fates.finished| + |e.runs| + |e.list.queue| + |e.fates.flushed| + |e.fates.lost|
  {
    Safety(s, acts);
    var e := After(s, acts);
    assert |e.list.issued[e.list.epoch..]| == |e.list.popped| + |e.list.queue|;
    BetweenCount(0, Head(e.list));
    var held, done, lost := e.runs.Keys, e.fates.finished, e.fates.lost.Keys;
    assert |held + done| == |held| + |done|;
    assert |held + done + e.fates.flushed| == |held + done| + |e.fates.flushed|;
    assert |held + done + e.fates.flushed + lost| == |held + done + e.fates.flushed| + |lost|;
    assert |e.runs| == |held| && |e.fates.lost| == |lost|;
  }

  lemma {:induction false} RunsSplit(s: Ledger, acts: seq<Action>, i: nat)
    requires Runs(s, acts) && i <= |acts|
    ensures Runs(s, acts[..i]) && Runs(After(s, acts[..i]), acts[i..])
    ensures After(After(s, acts[..i]), acts[i..]) == After(s, acts)
    decreases i
  {
    if i > 0 {
      RunsSplit(Next(s, acts[0]), acts[1..], i - 1);
      assert acts[..i][1..] == acts[1..][..i - 1];
      assert acts[1..][i - 1..] == acts[i..];
    } else {
      assert acts[0..] == acts;
    }
  }

  lemma ListOnlyGrows(s: Ledger, a: Action)
    requires Inv(s) && Enabled(s, a)
    ensures Head(s.list) + (if a.Claim? then 1 else 0) <= Head(Next(s, a).list)
    ensures s.list.issued <= Next(s, a).list.issued
  {
    assert |s.list.issued[s.list.epoch..]| >= |s.list.popped|;
  }

  lemma {:induction false} ListGrowsAlways(s: Ledger, acts: seq<Action>)
    requires Inv(s) && Runs(s, acts)
    ensures Head(s.list) <= Head(After(s, acts).list)
    ensures s.list.issued <= After(s, acts).list.issued
    decreases |acts|
  {
    if acts != [] {
      InvKept(s, acts[0]);
      ListOnlyGrows(s, acts[0]);
      ListGrowsAlways(Next(s, acts[0]), acts[1..]);
    }
  }

  /** What the claim at position `i` of the run takes: the oldest queued payload, with its ticket. */
  lemma ClaimTakesHead(s: Ledger, acts: seq<Action>, i: nat)
    requires Inv(s) && Runs(s, acts) && i < |acts| && acts[i].Claim?
    ensures Runs(s, acts[..i])
    ensures var c, e := After(s, acts[..i]), After(s, acts);
      && Inv(c) && c.list.queue != []
      && Head(c.list) < |e.list.issued|
      && e.list.issued[Head(c.list)] == c.list.queue[|c.list.queue| - 1]
  {
    RunsSplit(s, acts, i);
    InvAlways(s, acts[..i]);
    var c := After(s, acts[..i]);
    assert Enabled(c, acts[i..][0]);
    PopKeepsFifo(c.list);
    ListGrowsAlways(c, acts[i..]);
  }

  /** Two claims of a run never take the same payload, and they take payloads in the order of their pushes. */
  lemma ClaimsInPushOrder(s: Ledger, acts: seq<Action>, i: nat, j: nat)
    requires Inv(s) && Runs(s, acts) && i < j < |acts| && acts[i].Claim? && acts[j].Claim?
    ensures Runs(s, acts[..i]) && Runs(s, acts[..j])
    ensures Head(After(s, acts[..i]).list) < Head(After(s, acts[..j]).list)
  {
    ClaimTakesHead(s, acts, i);
    ClaimTakesHead(s, acts, j);
    var c := After(s, acts[..i]);
    RunsSplit(s, acts[..j], i);
    assert acts[..j][..i] == acts[..i];
    var rest := acts[..j][i..];
    assert rest[0] == acts[i];
    ListOnlyGrows(c, rest[0]);
    InvKept(c, rest[0]);
    ListGrowsAlways(Next(c, rest[0]), rest[1..]);
  }

  /** Node `n` is not up, and no execution is on it. */
  predicate IsGone(s: Ledger, n: string) {
    n !in s.nodes && forall t :: t in s.runs ==> s.runs[t].node != n
  }

  lemma RunsStayGone(s: Ledger, a: Action, n: string)
    requires Enabled(s, a) && IsGone(s, n) && IsRunAction(a)
    ensures IsGone(Next(s, a), n)
  {
  }

  lemma OthersStayGone(s: Ledger, a: Action, n: string)
    requires Enabled(s, a) && IsGone(s, n) && !IsRunAction(a) && !(a.NodeStart? && a.node == n)
    ensures IsGone(Next(s, a), n)
  {
  }

  lemma GoneStays(s: Ledger, a: Action, n: string)
    requires Enabled(s, a) && IsGone(s, n) && !(a.NodeStart? && a.node == n)
    ensures IsGone(Next(s, a), n)
  {
    if IsRunAction(a) {
      RunsStayGone(s, a, n);
    } else {
      OthersStayGone(s, a, n);
    }
  }

  lemma NodeLeaves(s: Ledger, a: Action)
    requires Enabled(s, a) && (a.NodeStop? || a.NodeCrash?)
    ensures IsGone(Next(s, a), a.node)
  {
  }

  /** After a node has stopped or crashed it claims and works on nothing in any run, until it is started again. */
  lemma {:induction false} GoneNodeClaimsNothing(s: Ledger, acts: seq<Action>, n: string)
    requires Runs(s, acts) && IsGone(s, n)
    requires forall i :: 0 <= i < |acts| ==> !(acts[i].NodeStart? && acts[i].node == n)
    ensures IsGone(After(s, acts), n) && !Enabled(After(s, acts), Claim(n))
    decreases |acts|
  {
    if acts != [] {
      GoneStays(s, acts[0], n);
      assert forall i :: 0 <= i < |acts| - 1 ==> acts[1..][i] == acts[i + 1];
      GoneNodeClaimsNothing(Next(s, acts[0]), acts[1..], n);
    }
  }

  // ---------- what is not recovered ----------

  lemma Unroll(s: Ledger, a: Action, rest: seq<Action>)
    requires Enabled(s, a) && Runs(Next(s, a), rest)
    ensures Runs(s, [a] + rest) && After(s, [a] + rest) == After(Next(s, a), rest)
  {
    assert ([a] + rest)[1..] == rest;
  }

  lemma {:induction false} Joined(s: Ledger, acts: seq<Action>, more: seq<Action>)
    requires Runs(s, acts) && Runs(After(s, acts), more)
    ensures Runs(s, acts + more) && After(s, acts + more) == After(After(s, acts), more)
    decreases |acts|
  {
    if acts == [] {
      assert acts + more == more;
    } else {
      Joined(Next(s, acts[0]), acts[1..], more);
      Unroll(s, acts[0], acts[1..] + more);
      assert [acts[0]] + (acts[1..] + more) == acts + more;
    }
  }

  /** The actions of one `executeJob`, up to its `pending` write and from its push on. */
  function MarkActions(f: nat, p: Payload): seq<Action> {
    [FireCron(p), FireRead(f, true), FireMark(f, true)]
  }

  function PushActions(f: nat, pushOk: bool, next: Option<nat>): seq<Action> {
    [FirePush(f, pushOk), if pushOk then FireNote(f, next) else FireRevert(f, true)]
  }

  function FiringState(s: Ledger, p: Payload, stage: FireStage): Ledger {
    s.(fires := s.fires[s.nextFire := Fire(p, stage)], nextFire := s.nextFire + 1)
  }

  function MarkedState(s: Ledger, p: Payload): Ledger {
    FiringState(s, p, Marked).(board := Marking(s.board, p.jobId, true))
  }

  function PushedState(s: Ledger, f: nat, p: Payload, pushOk: bool, next: Option<nat>): Ledger {
    if pushOk
    then s.(fires := s.fires - {f}, list := Push(s.list, p),
            board := if next.Some? then s.board.(rows := WithNextRun(s.board.rows, p.jobId, next)) else s.board)
    else s.(fires := s.fires - {f}, board := Reverting(s.board, p.jobId, true))
  }

  predicate Current(s: Ledger, p: Payload) {
    p.jobId in s.board.rows && p == PayloadOf(s.board.rows[p.jobId])
  }

  lemma CronStarts(s: Ledger, p: Payload)
    requires s.phase == Serving && Current(s, p)
    ensures Enabled(s, FireCron(p)) && Next(s, FireCron(p)) == FiringState(s, p, Started)
  {
  }

  lemma ReadConfirms(s: Ledger, p: Payload)
    requires p.jobId in s.board.rows && s.board.rows[p.jobId].active
    ensures var s1 := FiringState(s, p, Started);
      Enabled(s1, FireRead(s.nextFire, true)) && Next(s1, FireRead(s.nextFire, true)) == FiringState(s, p, Confirmed)
  {
    assert DoRead(FiringState(s, p, Started), s.nextFire, true) == FiringState(s, p, Confirmed);
  }

  lemma MarkWrites(s: Ledger, p: Payload)
    ensures var s2 := FiringState(s, p, Confirmed);
      Enabled(s2, FireMark(s.nextFire, true)) && Next(s2, FireMark(s.nextFire, true)) == MarkedState(s, p)
  {
    assert DoMark(FiringState(s, p, Confirmed), s.nextFire, true) == MarkedState(s, p);
  }

  lemma MarkRuns(s: Ledger, p: Payload)
    requires s.phase == Serving && Current(s, p) && s.board.rows[p.jobId].active
    ensures Runs(s, MarkActions(s.nextFire, p)) && After(s, MarkActions(s.nextFire, p)) == MarkedState(s, p)
  {
    var f := s.nextFire;
    CronStarts(s, p);
    ReadConfirms(s, p);
    MarkWrites(s, p);
    Unroll(FiringState(s, p, Confirmed), FireMark(f, true), []);
    Unroll(FiringState(s, p, Started), FireRead(f, true), [FireMark(f, true)]);
    Unroll(s, FireCron(p), [FireRead(f, true), FireMark(f, true)]);
  }

  lemma PushRuns(s: Ledger, f: nat, p: Payload, pushOk: bool, next: Option<nat>)
    requires f in s.fires && s.fires[f] == Fire(p, Marked)
    ensures Runs(s, PushActions(f, pushOk, next)) && After(s, PushActions(f, pushOk, next)) == PushedState(s, f, p, pushOk, next)
  {
    var acts := PushActions(f, pushOk, next);
    var s1 := Next(s, acts[0]);
    assert s1.fires - {f} == s.fires - {f};
    assert Next(s1, acts[1]) == PushedState(s, f, p, pushOk, next);
    Unroll(s1, acts[1], []);
    Unroll(s, acts[0], [acts[1]]);
  }

  const BOOKS := Payload(0, "books", "http://books")

  function BooksRow(status: Status): Job {
    Job(0, "books", "http://books", "* * * * * *", true, status, "", NoReport, None)
  }

  function QueueOne(): seq<Action> {
    [CreateRow(BooksRow(Scheduled))] + (MarkActions(0, BOOKS) + PushActions(0, true, None))
  }

  function LossyRun(): seq<Action> {
    QueueOne() + [NodeStart("n", "w"), Claim("n"), NodeCrash("n")]
  }

  function QueuedState(): Ledger {
    Ledger(Board(map[0 := BooksRow(Pending)], map[]), RedisList([BOOKS], [BOOKS], 0, []), map[], 1,
           map[], map[], Fates({}, {}, map[]), Failures({}, {}, {}, {}), [], Serving)
  }

  lemma QueueOneRuns(s: Ledger)
    requires Init(s)
    ensures Runs(s, QueueOne()) && After(s, QueueOne()) == QueuedState()
  {
    var s1 := Next(s, CreateRow(BooksRow(Scheduled)));
    MarkRuns(s1, BOOKS);
    PushRuns(MarkedState(s1, BOOKS), 0, BOOKS, true, None);
    Joined(s1, MarkActions(0, BOOKS), PushActions(0, true, None));
    Unroll(s, CreateRow(BooksRow(Scheduled)), MarkActions(0, BOOKS) + PushActions(0, true, None));
  }

  function HeldState(): Ledger {
    QueuedState().(list := RedisList([], [BOOKS], 0, [BOOKS]), nodes := map["n" := "w"],
                   runs := map[0 := Execution("n", "w", BOOKS, Claimed)])
  }

  function LostState(): Ledger {
    HeldState().(nodes := map[], runs := map[], fates := Fates({}, {}, HeldState().runs),
                 board := Board(map[0 := BooksRow(Pending)], map[0 := NodeDied]))
  }

  lemma CrashLosesClaim()
    ensures DoNodeCrash(HeldState(), "n") == LostState()
  {
    var s := HeldState();
    assert 0 in s.runs && s.runs[0].stage == Claimed;
    assert OnNode(s.runs, "n") == s.runs && OffNode(s.runs, "n") == map[];
    assert ClaimedJobs(s.board.rows, s.runs) == {0};
    assert ExecutingJobs(s.board.rows, s.runs) == {};
    assert (map["n" := "w"] - {"n"}) == map[];
  }

  lemma ClaimAndCrash()
    ensures var acts := [NodeStart("n", "w"), Claim("n"), NodeCrash("n")];
      Runs(QueuedState(), acts) && After(QueuedState(), acts) == LostState()
  {
    var acts := [NodeStart("n", "w"), Claim("n"), NodeCrash("n")];
    var s1 := Next(QueuedState(), acts[0]);
    assert Next(s1, acts[1]) == HeldState();
    CrashLosesClaim();
    Unroll(HeldState(), acts[2], []);
    Unroll(s1, acts[1], [acts[2]]);
    Unroll(QueuedState(), acts[0], acts[1..]);
  }

  /**
   "Never lost" is false: a worker that dies between BRPop and its `running` write takes the
   payload with it. The system is at rest, the row says pending, and no health check finds it.
   */
  lemma ClaimWindowLosesPayload(s: Ledger)
    requires Init(s)
    ensures Runs(s, LossyRun())
    ensures var e := After(s, LossyRun());
      && AtRest(e) && IsPending(e.board.rows, 0) && e.fates.lost.Keys == {0}
      && forall worker, stuck, id :: ListsStuck(e.board.rows, worker, stuck) ==> id !in stuck
  {
    QueueOneRuns(s);
    ClaimAndCrash();
    Joined(s, QueueOne(), [NodeStart("n", "w"), Claim("n"), NodeCrash("n")]);
  }

  // ---------- exactly when a crash strands a job ----------

  /** The death of a node strands a pending job iff the node had claimed it and nobody else has it in hand. */
  lemma NodeCrashStrandsIff(s: Ledger, n: string, id: JobId)
    requires Inv(s) && n in s.nodes && IsPending(s.board.rows, id) && id !in s.board.orphans
    ensures !Witnessed(DoNodeCrash(s, n), id) <==>
              && IsClaimed(OnNode(s.runs, n), id) && !IsClaimed(OffNode(s.runs, n), id)
              && !InQueue(s.list.queue, id) && !IsFiring(s.fires, id)
  {
    assert TracedAt(s.board, s.list.queue, s.runs, s.fires, id);
    SplitRuns(s.runs, n, id, "");
  }

  /** It leaves a running job without an execution iff the node had the only one of the worker that the row names. */
  lemma NodeCrashStopsIff(s: Ledger, n: string, id: JobId)
    requires Inv(s) && n in s.nodes && IsRunning(s.board.rows, id) && id !in s.board.orphans
    ensures var w := s.board.rows[id].workerId;
      !IsExecuting(DoNodeCrash(s, n).runs, id, w) <==> IsExecuting(OnNode(s.runs, n), id, w) && !IsExecuting(OffNode(s.runs, n), id, w)
  {
    assert TracedAt(s.board, s.list.queue, s.runs, s.fires, id);
    SplitRuns(s.runs, n, id, s.board.rows[id].workerId);
  }

  /** The death of the supervisor strands a pending job iff only a fire before its push has it in hand. */
  lemma CrashStrandsIff(s: Ledger, id: JobId)
    requires Inv(s) && Enabled(s, Crash) && IsPending(s.board.rows, id) && id !in s.board.orphans
    ensures !Witnessed(DoCrash(s), id) <==> IsFiring(s.fires, id) && !InQueue(s.list.queue, id) && !IsClaimed(s.runs, id)
  {
    assert TracedAt(s.board, s.list.queue, s.runs, s.fires, id);
  }
}
