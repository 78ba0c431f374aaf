/** The system works off everything it is given: the measure of open work falls at every working action and grows only by new work. */
module LedgerQuiescence {
  import opened Model
  import opened JobLedger
  import opened LedgerSafety

  /** What processes do to finish what they have begun. */
  predicate Working(a: Action) {
    IsFireAction(a) || IsRunAction(a) || a.Requeue?
  }

  /** What a fire adds, and what a health check adds for the jobs it found. */
  function Gain(a: Action): nat {
    match a
    case FireCron(_) => 8
    case FindStuck(_, stuck) => 5 * |stuck|
    case _ => 0
  }

  function WorkDone(acts: seq<Action>): nat {
    if acts == [] then 0 else (if Working(acts[0]) then 1 else 0) + WorkDone(acts[1..])
  }

  function Gained(acts: seq<Action>): nat {
    if acts == [] then 0 else Gain(acts[0]) + Gained(acts[1..])
  }

  // ---------- the measure ----------

  function FireWeight(x: Fire): nat {
    match x.stage
    case Started => 8
    case Confirmed => 7
    case Marked => 6
    case Unqueued => 1
    case Queued => 1
  }

  function RunWeight(x: Execution): nat {
    match x.stage
    case Claimed => 3
    case Scraping => 2
    case Scraped(_) => 1
  }

  function At<T>(m: map<nat, T>, w: T -> nat, k: nat): nat {
    if k in m then w(m[k]) else 0
  }

  /** The weight of the entries of `m` with keys below `n`. */
  function Total<T>(m: map<nat, T>, w: T -> nat, n: nat): nat {
    if n == 0 then 0 else Total(m, w, n - 1) + At(m, w, n - 1)
  }

  function Measure(s: Ledger): nat {
    5 * |s.recovery| + Total(s.fires, FireWeight, s.nextFire) + 4 * |s.list.queue| + Total(s.runs, RunWeight, |s.list.issued|)
  }

  lemma {:induction false} TotalChanged<T>(m: map<nat, T>, m': map<nat, T>, w: T -> nat, n: nat, k: nat)
    requires forall i :: i != k ==> (i in m <==> i in m') && (i in m ==> m'[i] == m[i])
    ensures Total(m', w, n) == Total(m, w, n) + if k < n then At(m', w, k) - At(m, w, k) else 0
  {
    if n > 0 {
      TotalChanged(m, m', w, n - 1, k);
      assert n - 1 != k ==> At(m', w, n - 1) == At(m, w, n - 1);
    }
  }

  lemma {:induction false} TotalZero<T>(m: map<nat, T>, w: T -> nat, n: nat, k: nat)
    requires Total(m, w, n) == 0 && k < n
    ensures At(m, w, k) == 0
  {
    if k < n - 1 {
      TotalZero(m, w, n - 1, k);
    }
  }

  lemma {:induction false} TotalBeyond<T>(m: map<nat, T>, w: T -> nat, n: nat)
    requires n !in m
    ensures Total(m, w, n + 1) == Total(m, w, n)
  {
  }

  lemma FireFalls(s: Ledger, f: nat, fires': Fires)
    requires Formed(s) && f in s.fires
    requires forall i :: i != f ==> (i in s.fires <==> i in fires') && (i in s.fires ==> fires'[i] == s.fires[i])
    ensures Total(fires', FireWeight, s.nextFire)
         == Total(s.fires, FireWeight, s.nextFire) - FireWeight(s.fires[f]) + At(fires', FireWeight, f)
  {
    TotalChanged(s.fires, fires', FireWeight, s.nextFire, f);
  }

  lemma RunFalls(s: Ledger, t: nat, runs': Executions)
    requires Conserved(s.list, s.runs, s.fates) && t in s.runs
    requires forall i :: i != t ==> (i in s.runs <==> i in runs') && (i in s.runs ==> runs'[i] == s.runs[i])
    ensures Total(runs', RunWeight, |s.list.issued|)
         == Total(s.runs, RunWeight, |s.list.issued|) - RunWeight(s.runs[t]) + At(runs', RunWeight, t)
  {
    TotalChanged(s.runs, runs', RunWeight, |s.list.issued|, t);
  }

  lemma PushAddsFour(s: Ledger, p: Payload)
    requires Conserved(s.list, s.runs, s.fates)
    ensures Total(s.runs, RunWeight, |Push(s.list, p).issued|) == Total(s.runs, RunWeight, |s.list.issued|)
  {
    TotalBeyond(s.runs, RunWeight, |s.list.issued|);
  }

  lemma FireWorkFalls(s: Ledger, a: Action)
    requires Formed(s) && Conserved(s.list, s.runs, s.fates) && Enabled(s, a)
    requires IsFireAction(a)
    ensures Measure(Next(s, a)) < Measure(s)
  {
    FireFalls(s, a.fire, Next(s, a).fires);
    if a.FirePush? {
      PushAddsFour(s, s.fires[a.fire].payload);
    }
  }

  lemma ClaimFalls(s: Ledger, n: string)
    requires Fifo(s.list) && Conserved(s.list, s.runs, s.fates) && n in s.nodes && s.list.queue != []
    ensures Measure(DoClaim(s, n)) < Measure(s)
  {
    PopKeepsFifo(s.list);
    assert Head(s.list) !in s.runs.Keys;
    TotalChanged(s.runs, DoClaim(s, n).runs, RunWeight, |s.list.issued|, Head(s.list));
  }

  lemma RunWorkFalls(s: Ledger, a: Action)
    requires Conserved(s.list, s.runs, s.fates) && Enabled(s, a) && (a.Begin? || a.Scrape? || a.Finish?)
    ensures Measure(Next(s, a)) < Measure(s)
  {
    RunFalls(s, a.ticket, Next(s, a).runs);
  }

  lemma RequeueFalls(s: Ledger, ok: bool)
    requires Conserved(s.list, s.runs, s.fates) && s.recovery != []
    ensures Measure(DoRequeue(s, ok)) < Measure(s)
  {
    PushAddsFour(s, s.recovery[0]);
  }

  lemma WorkFalls(s: Ledger, a: Action)
    requires Formed(s) && Fifo(s.list) && Conserved(s.list, s.runs, s.fates) && Enabled(s, a) && Working(a)
    ensures Measure(Next(s, a)) < Measure(s)
  {
    if a.Claim? {
      ClaimFalls(s, a.node);
    } else if a.Requeue? {
      RequeueFalls(s, a.requeueOk);
    } else if IsFireAction(a) {
      FireWorkFalls(s, a);
    } else {
      RunWorkFalls(s, a);
    }
  }

  lemma {:induction false} TotalShrinks<T>(m: map<nat, T>, m': map<nat, T>, w: T -> nat, n: nat)
    requires forall i :: i in m' ==> i in m && m'[i] == m[i]
    ensures Total(m', w, n) <= Total(m, w, n)
  {
    if n > 0 {
      TotalShrinks(m, m', w, n - 1);
    }
  }

  lemma CronGains(s: Ledger, p: Payload)
    requires Formed(s) && Enabled(s, FireCron(p))
    ensures Measure(Next(s, FireCron(p))) == Measure(s) + 8
  {
    var fires' := s.fires[s.nextFire := Fire(p, Started)];
    TotalChanged(s.fires, fires', FireWeight, s.nextFire, s.nextFire);
  }

  lemma CrashLoses(s: Ledger, a: Action)
    requires Enabled(s, a) && (a.NodeCrash? || a.Crash? || a.FlushQueue?)
    ensures Measure(Next(s, a)) <= Measure(s)
  {
    var s' := Next(s, a);
    TotalShrinks(s.fires, s'.fires, FireWeight, s.nextFire);
    TotalShrinks(s.runs, s'.runs, RunWeight, |s.list.issued|);
  }

  lemma OthersGain(s: Ledger, a: Action)
    requires Formed(s) && Enabled(s, a) && !Working(a)
    ensures Measure(Next(s, a)) <= Measure(s) + Gain(a)
  {
    match a
    case FireCron(p) => CronGains(s, p);
    case NodeCrash(_) => CrashLoses(s, a);
    case Crash => CrashLoses(s, a);
    case FlushQueue(_) => CrashLoses(s, a);
    case _ =>
  }

  /** Over every run, crashes and restarts included: work done + work left <= work at the start + work added. */
  lemma {:induction false} WorkIsBounded(s: Ledger, acts: seq<Action>)
    requires Inv(s) && Runs(s, acts)
    ensures WorkDone(acts) + Measure(After(s, acts)) <= Measure(s) + Gained(acts)
    decreases |acts|
  {
    if acts != [] {
      InvKept(s, acts[0]);
      if Working(acts[0]) {
        WorkFalls(s, acts[0]);
      } else {
        OthersGain(s, acts[0]);
      }
      WorkIsBounded(Next(s, acts[0]), acts[1..]);
    }
  }

  // ---------- rest ----------

  predicate AtRest(s: Ledger) {
    s.recovery == [] && s.fires == map[] && s.list.queue == [] && s.runs == map[]
  }

  lemma {:induction false} EmptyTotal<T>(m: map<nat, T>, w: T -> nat, n: nat)
    requires m == map[]
    ensures Total(m, w, n) == 0
  {
    if n > 0 {
      EmptyTotal(m, w, n - 1);
    }
  }

  lemma RestIsZero(s: Ledger)
    requires Inv(s)
    ensures Measure(s) == 0 <==> AtRest(s)
  {
    if Measure(s) == 0 {
      forall f | f in s.fires ensures false {
        TotalZero(s.fires, FireWeight, s.nextFire, f);
      }
      forall t | t in s.runs ensures false {
        TotalZero(s.runs, RunWeight, |s.list.issued|, t);
      }
    }
    if AtRest(s) {
      EmptyTotal(s.fires, FireWeight, s.nextFire);
      EmptyTotal(s.runs, RunWeight, |s.list.issued|);
    }
  }

  /** While one node lives, the system is at rest exactly when no working action is possible. */
  lemma ProgressUntilRest(s: Ledger)
    requires Inv(s) && s.nodes != map[]
    ensures AtRest(s) <==> forall a :: Working(a) ==> !Enabled(s, a)
  {
    if s.recovery != [] {
      assert Working(Requeue(true)) && Enabled(s, Requeue(true));
    } else if s.fires != map[] {
      var f :| f in s.fires;
      var a := match s.fires[f].stage
        case Started => FireRead(f, true)
        case Confirmed => FireMark(f, true)
        case Marked => FirePush(f, true)
        case Unqueued => FireRevert(f, true)
        case Queued => FireNote(f, None);
      assert Working(a) && Enabled(s, a);
    } else if s.list.queue != [] {
      var n :| n in s.nodes;
      assert Working(Claim(n)) && Enabled(s, Claim(n));
    } else if s.runs != map[] {
      var t :| t in s.runs;
      var a := match s.runs[t].stage
        case Claimed => Begin(t, true)
        case Scraping => Scrape(t, true, NoReport)
        case Scraped(_) => Finish(t, true);
      assert Working(a) && Enabled(s, a);
    }
  }

  /** At rest a row is in flight exactly when it is orphaned. */
  lemma RestRows(s: Ledger, id: JobId)
    requires Inv(s) && AtRest(s)
    ensures (id in s.board.rows && InFlight(s.board.rows[id].status)) <==> id in s.board.orphans
  {
    assert TracedAt(s.board, s.list.queue, s.runs, s.fires, id);
  }

  // ---------- runs without faults ----------

  /** Nothing is destroyed, and every status write that follows a push or a claim reaches the database. */
  predicate Faultless(a: Action) {
    match a
    case NodeCrash(_) => false
    case Crash => false
    case FlushQueue(_) => false
    case FireRevert(_, ok) => ok
    case Begin(_, ok) => ok
    case Finish(_, ok) => ok
    case _ => true
  }

  lemma FaultlessKept(s: Ledger, a: Action)
    requires Enabled(s, a) && Faultless(a)
    ensures Next(s, a).board.orphans.Keys <= s.board.orphans.Keys
  {
  }

  /** Without crashes and failed writes no row is newly orphaned. */
  lemma {:induction false} FaultlessRunsOrphanNothing(s: Ledger, acts: seq<Action>)
    requires Runs(s, acts) && forall i :: 0 <= i < |acts| ==> Faultless(acts[i])
    ensures After(s, acts).board.orphans.Keys <= s.board.orphans.Keys
    decreases |acts|
  {
    if acts != [] {
      FaultlessKept(s, acts[0]);
      assert forall i :: 0 <= i < |acts| - 1 ==> acts[1..][i] == acts[i + 1];
      FaultlessRunsOrphanNothing(Next(s, acts[0]), acts[1..]);
    }
  }

  /**
   Every run does a bounded amount of work for what it was given, and where no working action is left
   the queue is empty and nobody works; if then no row was orphaned before and nothing failed, no row
   is pending or running, whatever fires, health checks and updates happened on the way.
   */
  lemma Quiescence(s: Ledger, acts: seq<Action>)
    requires Inv(s) && Runs(s, acts) && After(s, acts).nodes != map[]
    ensures WorkDone(acts) <= Measure(s) + Gained(acts)
    ensures var e := After(s, acts);
      (forall a :: Working(a) ==> !Enabled(e, a)) ==>
        && AtRest(e)
        && (s.board.orphans == map[] && (forall i :: 0 <= i < |acts| ==> Faultless(acts[i])) ==>
              forall id :: id in e.board.rows ==> !InFlight(e.board.rows[id].status))
  {
    var e := After(s, acts);
    WorkIsBounded(s, acts);
    InvAlways(s, acts);
    ProgressUntilRest(e);
    if AtRest(e) && s.board.orphans == map[] && (forall i :: 0 <= i < |acts| ==> Faultless(acts[i])) {
      FaultlessRunsOrphanNothing(s, acts);
      forall id | id in e.board.rows ensures !InFlight(e.board.rows[id].status) {
        RestRows(e, id);
        assert id !in e.board.orphans.Keys;
      }
    }
  }
}
