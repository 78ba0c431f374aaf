/**
 `StartListening` on one worker: the listener and its goroutines, one atomic action per step. The
 semaphore, `ActiveJobCount` and the WaitGroup are changed at different moments, so they differ
 in between; the equations of `Inv` say by how much.
 */
module Listening {
  import opened Model

  const WORKER_CAPACITY := 2

  /** Where the listener stands; from `Holding` to `Added` it holds a popped payload. */
  datatype Pc = Selecting | Popping | Holding | Acquired | Counted | Added | Draining | Returned

  /**
   Payloads are numbered in the order of their pops. A goroutine is in `processing` until it gives its
   token back, then in `released`, then in `decremented`, and leaves with `wg.Done()`.
   */
  datatype Listener = Listener(
    pc: Pc,
    cancelled: bool,
    sem: nat,
    active: int,
    wg: int,
    claimed: nat,
    processing: set<nat>,
    released: set<nat>,
    decremented: set<nat>,
    finished: set<nat>)

  datatype Action =
    | Select | PopPayload | PopNothing | Acquire | Count | Add | Spawn | Return
    | Release(ticket: nat) | Decrement(ticket: nat) | Done(ticket: nat)
    | Cancel

  const IDLE := Listener(Selecting, false, 0, 0, 0, 0, {}, {}, {}, {})

  predicate Enabled(s: Listener, a: Action) {
    match a
    case Select => s.pc == Selecting
    case PopPayload => s.pc == Popping
    case PopNothing => s.pc == Popping
    case Acquire => s.pc == Holding && s.sem < WORKER_CAPACITY
    case Count => s.pc == Acquired
    case Add => s.pc == Counted
    case Spawn => s.pc == Added && s.claimed > 0
    case Return => s.pc == Draining && s.wg == 0
    case Release(t) => t in s.processing && s.sem > 0
    case Decrement(t) => t in s.released
    case Done(t) => t in s.decremented
    case Cancel => !s.cancelled
  }

  function Next(s: Listener, a: Action): Listener
    requires Enabled(s, a)
  {
    match a
    case Select => s.(pc := if s.cancelled then Draining else Popping)
    case PopPayload => s.(pc := Holding, claimed := s.claimed + 1)
    case PopNothing => s.(pc := Selecting)
    case Acquire => s.(pc := Acquired, sem := s.sem + 1)
    case Count => s.(pc := Counted, active := s.active + 1)
    case Add => s.(pc := Added, wg := s.wg + 1)
    case Spawn => s.(pc := Selecting, processing := s.processing + {s.claimed - 1})
    case Return => s.(pc := Returned)
    case Release(t) =>
      s.(sem := s.sem - 1, processing := s.processing - {t}, released := s.released + {t}, finished := s.finished + {t})
    case Decrement(t) => s.(active := s.active - 1, released := s.released - {t}, decremented := s.decremented + {t})
    case Done(t) => s.(wg := s.wg - 1, decremented := s.decremented - {t})
    case Cancel => s.(cancelled := true)
  }

  predicate Runs(s: Listener, acts: seq<Action>)
    decreases |acts|
  {
    acts == [] || (Enabled(s, acts[0]) && Runs(Next(s, acts[0]), acts[1..]))
  }

  function After(s: Listener, acts: seq<Action>): Listener
    requires Runs(s, acts)
    decreases |acts|
  {
    if acts == [] then s else After(Next(s, acts[0]), acts[1..])
  }

  // ---------- accounting ----------

  function One(b: bool): nat {
    if b then 1 else 0
  }

  predicate HasPayload(pc: Pc) {
    pc == Holding || pc == Acquired || pc == Counted || pc == Added
  }

  /** The payload in the listener's hand is the last one popped. */
  predicate InHand(s: Listener, t: nat) {
    HasPayload(s.pc) && t + 1 == s.claimed
  }

  /** Tokens, active count and WaitGroup, exactly. */
  predicate Accounted(s: Listener) {
    && s.sem == |s.processing| + One(s.pc == Acquired || s.pc == Counted || s.pc == Added)
    && s.sem <= WORKER_CAPACITY
    && s.active == |s.processing| + |s.released| + One(s.pc == Counted || s.pc == Added)
    && s.wg == |s.processing| + |s.released| + |s.decremented| + One(s.pc == Added)
  }

  /** Payload `t` was popped iff it is in the listener's hand, being processed, or finished: exactly one of them. */
  predicate PlacedAt(s: Listener, t: nat) {
    && (t < s.claimed <==> t in s.processing || t in s.finished || InHand(s, t))
    && !(t in s.processing && t in s.finished)
    && !(InHand(s, t) && (t in s.processing || t in s.finished))
    && (t in s.released || t in s.decremented ==> t in s.finished)
    && !(t in s.released && t in s.decremented)
  }

  ghost predicate Placed(s: Listener) {
    forall t :: PlacedAt(s, t)
  }

  /** The listener never stops on its own, and it returns only when no goroutine is left. */
  predicate Stopped(s: Listener) {
    && (HasPayload(s.pc) ==> s.claimed > 0)
    && (s.pc == Draining || s.pc == Returned ==> s.cancelled)
    && (s.pc == Returned ==> s.wg == 0)
  }

  ghost predicate Inv(s: Listener) {
    Accounted(s) && Placed(s) && Stopped(s)
  }

  lemma PlacedKept(s: Listener, a: Action, t: nat)
    requires PlacedAt(s, t) && Stopped(s) && Enabled(s, a)
    requires a.Release? || a.Decrement? || a.Done? ==> PlacedAt(s, a.ticket)
    ensures PlacedAt(Next(s, a), t)
  {
  }

  lemma SpawnAccounted(s: Listener)
    requires Accounted(s) && Enabled(s, Spawn) && PlacedAt(s, s.claimed - 1)
    ensures Accounted(Next(s, Spawn))
  {
  }

  /** The goroutine moves from one set to the next, so the sizes change by one. */
  lemma GoroutineAccounted(s: Listener, a: Action)
    requires Accounted(s) && Enabled(s, a) && (a.Release? || a.Decrement? || a.Done?) && PlacedAt(s, a.ticket)
    ensures Accounted(Next(s, a))
  {
    var t := a.ticket;
    if a.Release? {
      assert |s.processing - {t}| == |s.processing| - 1 && |s.released + {t}| == |s.released| + 1;
    } else if a.Decrement? {
      assert |s.released - {t}| == |s.released| - 1 && |s.decremented + {t}| == |s.decremented| + 1;
    } else {
      assert |s.decremented - {t}| == |s.decremented| - 1;
    }
  }

  lemma AccountedKept(s: Listener, a: Action)
    requires Inv(s) && Enabled(s, a)
    ensures Accounted(Next(s, a))
  {
    if a.Spawn? {
      assert PlacedAt(s, s.claimed - 1);
      SpawnAccounted(s);
    } else if a.Release? || a.Decrement? || a.Done? {
      assert PlacedAt(s, a.ticket);
      GoroutineAccounted(s, a);
    }
  }

  lemma StoppedKept(s: Listener, a: Action)
    requires Accounted(s) && Stopped(s) && Enabled(s, a)
    ensures Stopped(Next(s, a))
  {
    if a.Done? {
      assert |s.decremented - {a.ticket}| == |s.decremented| - 1;
    }
  }

  lemma InvKept(s: Listener, a: Action)
    requires Inv(s) && Enabled(s, a)
    ensures Inv(Next(s, a))
  {
    AccountedKept(s, a);
    StoppedKept(s, a);
    forall t ensures PlacedAt(Next(s, a), t) {
      assert PlacedAt(s, t);
      if a.Release? || a.Decrement? || a.Done? {
        assert PlacedAt(s, a.ticket);
      }
      PlacedKept(s, a, t);
    }
  }

  lemma {:induction false} InvAlways(s: Listener, acts: seq<Action>)
    requires Inv(s) && Runs(s, acts)
    ensures Inv(After(s, acts))
    decreases |acts|
  {
    if acts != [] {
      InvKept(s, acts[0]);
      InvAlways(Next(s, acts[0]), acts[1..]);
    }
  }

  lemma Unfinished(s: Listener)
    requires Inv(s)
    ensures forall t :: t in s.processing ==> s.sem > 0
    ensures |s.finished| <= s.claimed <= |s.finished| + WORKER_CAPACITY + 1
    ensures s.claimed == |s.processing| + |s.finished| + One(HasPayload(s.pc))
  {
    forall t | t in s.processing ensures s.sem > 0 {
      assert |s.processing - {t}| == |s.processing| - 1;
    }
    var hand := if HasPayload(s.pc) then {s.claimed - 1} else {};
    forall t: nat ensures t in s.processing + s.finished + hand <==> t in Between(0, s.claimed) {
      assert PlacedAt(s, t);
    }
    assert s.processing + s.finished + hand == Between(0, s.claimed);
    assert s.processing !! s.finished && (s.processing + s.finished) !! hand by {
      assert forall t :: t in s.processing || t in s.finished || t in hand ==> PlacedAt(s, t);
    }
    assert |s.processing + s.finished + hand| == |s.processing| + |s.finished| + |hand|;
    BetweenCount(0, s.claimed);
  }

  lemma IdleInv()
    ensures Inv(IDLE)
  {
    assert forall t :: PlacedAt(IDLE, t);
  }

  /** In every reachable state the counters are exact, giving a token back never blocks, and at most three payloads are unfinished. */
  lemma ExactAccounting(acts: seq<Action>)
    requires Runs(IDLE, acts)
    ensures var s := After(IDLE, acts);
      && Accounted(s) && s.sem <= 2
      && (forall t :: t in s.processing ==> Enabled(s, Release(t)))
      && |s.finished| <= s.claimed <= |s.finished| + 3
  {
    IdleInv();
    InvAlways(IDLE, acts);
    Unfinished(After(IDLE, acts));
  }

  // ---------- ActiveJobCount is not bounded by the capacity ----------

  function Cycle(t: nat): seq<Action> {
    [Select, PopPayload, Acquire, Count, Add, Spawn, Release(t)]
  }

  function Cycles(n: nat): seq<Action> {
    if n == 0 then [] else Cycles(n - 1) + Cycle(n - 1)
  }

  /** `n` goroutines have given back their token and have not yet decremented the count. */
  function Lagging(n: nat): Listener {
    Listener(Selecting, false, 0, n, n, n, {}, Between(0, n), {}, Between(0, n))
  }

  lemma Unroll(s: Listener, a: Action, rest: seq<Action>)
    requires Enabled(s, a) && Runs(Next(s, a), rest)
    ensures Runs(s, [a] + rest) && After(s, [a] + rest) == After(Next(s, a), rest)
  {
    assert ([a] + rest)[1..] == rest;
  }

  lemma {:induction false} JoinRuns(s: Listener, acts: seq<Action>, more: seq<Action>)
    requires Runs(s, acts) && Runs(After(s, acts), more)
    ensures Runs(s, acts + more) && After(s, acts + more) == After(After(s, acts), more)
    decreases |acts|
  {
    if acts == [] {
      assert acts + more == more;
    } else {
      JoinRuns(Next(s, acts[0]), acts[1..], more);
      Unroll(s, acts[0], acts[1..] + more);
      assert [acts[0]] + (acts[1..] + more) == acts + more;
    }
  }

  /** The listener has counted a goroutine and is about to spawn it. */
  function Spawning(n: nat): Listener {
    Listener(Added, false, 1, n + 1, n + 1, n + 1, {}, Between(0, n), {}, Between(0, n))
  }

  lemma FirstHalf(n: nat)
    ensures Runs(Lagging(n), Cycle(n)[..5]) && After(Lagging(n), Cycle(n)[..5]) == Spawning(n)
  {
    var s1 := Lagging(n).(pc := Popping);
    var s2 := s1.(pc := Holding, claimed := n + 1);
    var s3 := s2.(pc := Acquired, sem := 1);
    var s4 := s3.(pc := Counted, active := n + 1);
    assert Next(s4, Add) == Spawning(n);
    Unroll(s4, Add, []);
    Unroll(s3, Count, [Add]);
    Unroll(s2, Acquire, [Count, Add]);
    Unroll(s1, PopPayload, [Acquire, Count, Add]);
    Unroll(Lagging(n), Select, [PopPayload, Acquire, Count, Add]);
    assert Cycle(n)[..5] == [Select, PopPayload, Acquire, Count, Add];
  }

  lemma SecondHalf(n: nat)
    ensures Runs(Spawning(n), [Spawn, Release(n)]) && After(Spawning(n), [Spawn, Release(n)]) == Lagging(n + 1)
  {
    var s1 := Next(Spawning(n), Spawn);
    assert s1.processing == {n};
    assert Between(0, n + 1) == Between(0, n) + {n};
    assert Next(s1, Release(n)) == Lagging(n + 1);
    Unroll(s1, Release(n), []);
    Unroll(Spawning(n), Spawn, [Release(n)]);
  }

  lemma OneCycle(n: nat)
    ensures Runs(Lagging(n), Cycle(n)) && After(Lagging(n), Cycle(n)) == Lagging(n + 1)
  {
    FirstHalf(n);
    SecondHalf(n);
    JoinRuns(Lagging(n), Cycle(n)[..5], [Spawn, Release(n)]);
    assert Cycle(n) == Cycle(n)[..5] + [Spawn, Release(n)];
  }

  /**
   The count that heartbeats report beside the capacity is not bounded by it: tokens are given back
   before the count goes down, so for every `n` some run shows `ActiveJobCount == n`.
   */
  lemma {:induction false} ActiveCountHasNoBound(n: nat)
    ensures Runs(IDLE, Cycles(n)) && After(IDLE, Cycles(n)).active == n
    ensures After(IDLE, Cycles(n)) == Lagging(n)
  {
    if n == 0 {
      assert Between(0, 0) == {};
    } else {
      ActiveCountHasNoBound(n - 1);
      OneCycle(n - 1);
      JoinRuns(IDLE, Cycles(n - 1), Cycle(n - 1));
    }
  }

  /** In every state of the run the count is within the capacity. */
  predicate AlwaysWithin(s: Listener, acts: seq<Action>)
    requires Runs(s, acts)
    decreases |acts|
  {
    s.active <= WORKER_CAPACITY && (acts != [] ==> AlwaysWithin(Next(s, acts[0]), acts[1..]))
  }

  /** Whenever the listener counts a new goroutine, fewer than the capacity have not been counted out yet. */
  predicate CountsWithRoom(s: Listener, acts: seq<Action>)
    requires Runs(s, acts)
    decreases |acts|
  {
    acts != [] ==>
      && (acts[0].Count? ==> |s.processing| + |s.released| < WORKER_CAPACITY)
      && CountsWithRoom(Next(s, acts[0]), acts[1..])
  }

  lemma {:induction false} WithinIffRoom(s: Listener, acts: seq<Action>)
    requires Inv(s) && Runs(s, acts) && s.active <= WORKER_CAPACITY
    ensures AlwaysWithin(s, acts) <==> CountsWithRoom(s, acts)
    decreases |acts|
  {
    if acts != [] {
      var s' := Next(s, acts[0]);
      InvKept(s, acts[0]);
      if s'.active <= WORKER_CAPACITY {
        WithinIffRoom(s', acts[1..]);
      }
    }
  }

  /**
   Exactly when the reported count respects the reported capacity throughout a run: iff the listener never
   counts a goroutine while two others have not been counted out, although it holds a token for it by then.
   */
  lemma ActiveWithinCapacityIff(acts: seq<Action>)
    requires Runs(IDLE, acts)
    ensures AlwaysWithin(IDLE, acts) <==> CountsWithRoom(IDLE, acts)
  {
    IdleInv();
    WithinIffRoom(IDLE, acts);
  }

  // ---------- graceful drain ----------

  function PcWork(s: Listener): nat {
    match s.pc
    case Popping => 10
    case Holding => 9
    case Acquired => 8
    case Counted => 7
    case Added => 6
    case Selecting => 2
    case Draining => 1
    case Returned => 0
  }

  /** How many steps a cancelled listener and its goroutines have left, at most. */
  function DrainWork(s: Listener): nat {
    PcWork(s) + 3 * |s.processing| + 2 * |s.released| + |s.decremented|
  }

  lemma ReleaseFalls(s: Listener, t: nat)
    requires PlacedAt(s, t) && Enabled(s, Release(t))
    ensures DrainWork(Next(s, Release(t))) < DrainWork(s)
  {
    assert |s.processing - {t}| == |s.processing| - 1 && |s.released + {t}| == |s.released| + 1;
  }

  lemma GoroutineFalls(s: Listener, a: Action)
    requires Inv(s) && Enabled(s, a) && (a.Release? || a.Decrement? || a.Done?)
    ensures DrainWork(Next(s, a)) < DrainWork(s)
  {
    var t := a.ticket;
    assert PlacedAt(s, t);
    if a.Release? {
      ReleaseFalls(s, t);
    } else if a.Decrement? {
      assert |s.released - {t}| == |s.released| - 1 && |s.decremented + {t}| == |s.decremented| + 1;
    } else {
      assert |s.decremented - {t}| == |s.decremented| - 1;
    }
  }

  lemma SpawnFalls(s: Listener)
    requires Inv(s) && s.pc == Added
    ensures DrainWork(Next(s, Spawn)) < DrainWork(s)
  {
    assert PlacedAt(s, s.claimed - 1);
    assert |s.processing + {s.claimed - 1}| == |s.processing| + 1;
  }

  lemma DrainFalls(s: Listener, a: Action)
    requires Inv(s) && s.cancelled && Enabled(s, a)
    ensures DrainWork(Next(s, a)) < DrainWork(s)
  {
    if a.Release? || a.Decrement? || a.Done? {
      GoroutineFalls(s, a);
    } else if a.Spawn? {
      SpawnFalls(s);
    } else {
      assert s.pc != Returned;
    }
  }

  /** A cancelled listener can always move on until it has returned; before that nothing blocks forever. */
  lemma DrainMoves(s: Listener)
    requires Inv(s) && s.cancelled && s.pc != Returned
    ensures exists a :: Enabled(s, a)
  {
    if s.pc == Selecting {
      assert Enabled(s, Select);
    } else if s.pc == Popping {
      assert Enabled(s, PopPayload);
    } else if s.pc == Acquired {
      assert Enabled(s, Count);
    } else if s.pc == Counted {
      assert Enabled(s, Add);
    } else if s.pc == Added {
      assert Enabled(s, Spawn);
    } else if s.processing != {} {
      var t :| t in s.processing;
      Unfinished(s);
      assert Enabled(s, Release(t));
    } else if s.pc == Holding {
      assert Enabled(s, Acquire);
    } else if s.released != {} {
      var t :| t in s.released;
      assert Enabled(s, Decrement(t));
    } else if s.decremented != {} {
      var t :| t in s.decremented;
      assert Enabled(s, Done(t));
    } else {
      assert Enabled(s, Return);
    }
  }

  /** At return every popped payload was fully processed and every counter is back at zero. */
  predicate AllDone(s: Listener) {
    && s.pc == Returned && s.finished == Between(0, s.claimed)
    && s.processing == {} && s.released == {} && s.decremented == {}
    && s.sem == 0 && s.active == 0 && s.wg == 0
  }

  lemma ReturnedIsDone(s: Listener)
    requires Inv(s) && s.pc == Returned
    ensures AllDone(s)
  {
    assert s.processing == {} && s.released == {} && s.decremented == {};
    forall t: nat ensures t in s.finished <==> t in Between(0, s.claimed) {
      assert PlacedAt(s, t);
    }
  }

  /**
   After cancellation at most one further payload is claimed, at most `DrainWork` steps happen, and a
   run that cannot go on has returned with everything done.
   */
  lemma {:induction false} GracefulDrain(s: Listener, acts: seq<Action>)
    requires Inv(s) && s.cancelled && Runs(s, acts)
    ensures var e := After(s, acts);
      && Inv(e) && e.cancelled
      && e.claimed + One(e.pc == Popping) <= s.claimed + One(s.pc == Popping)
      && |acts| + DrainWork(e) <= DrainWork(s)
      && ((forall a :: !Enabled(e, a)) ==> AllDone(e))
    decreases |acts|
  {
    if acts == [] {
      if s.pc == Returned {
        ReturnedIsDone(s);
      } else {
        DrainMoves(s);
      }
    } else {
      InvKept(s, acts[0]);
      DrainFalls(s, acts[0]);
      GracefulDrain(Next(s, acts[0]), acts[1..]);
    }
  }

  // ---------- the process itself ----------

  /** Some run from the start leads to `s`. */
  ghost predicate Reachable(s: Listener) {
    exists acts :: Runs(IDLE, acts) && After(IDLE, acts) == s
  }

  lemma ReachableInv(s: Listener)
    requires Reachable(s)
    ensures Inv(s)
  {
    var acts :| Runs(IDLE, acts) && After(IDLE, acts) == s;
    IdleInv();
    InvAlways(IDLE, acts);
  }

  /** The listener has taken a token for its payload. */
  function Taken(s: Listener): Listener {
    s.(pc := Acquired, claimed := s.claimed + 1, sem := s.sem + 1)
  }

  function Spawned(s: Listener): Listener {
    s.(sem := s.sem + 1, active := s.active + 1, wg := s.wg + 1, claimed := s.claimed + 1, processing := s.processing + {s.claimed})
  }

  lemma TakeRuns(s: Listener)
    requires s.pc == Selecting && !s.cancelled && s.sem < 2
    ensures Runs(s, [Select, PopPayload, Acquire]) && After(s, [Select, PopPayload, Acquire]) == Taken(s)
  {
    var s1 := s.(pc := Popping);
    var s2 := s.(pc := Holding, claimed := s.claimed + 1);
    Unroll(s2, Acquire, []);
    Unroll(s1, PopPayload, [Acquire]);
    Unroll(s, Select, [PopPayload, Acquire]);
  }

  lemma TakenSpawns(s: Listener)
    requires s.pc == Selecting
    ensures Runs(Taken(s), [Count, Add, Spawn]) && After(Taken(s), [Count, Add, Spawn]) == Spawned(s)
  {
    var s1 := Taken(s).(pc := Counted, active := s.active + 1);
    var s2 := s1.(pc := Added, wg := s.wg + 1);
    Unroll(s2, Spawn, []);
    Unroll(s1, Add, [Spawn]);
    Unroll(Taken(s), Count, [Add, Spawn]);
  }

  lemma SpawnReaches(s: Listener)
    requires Reachable(s) && s.pc == Selecting && !s.cancelled && s.sem < 2
    ensures Reachable(Spawned(s))
  {
    var acts :| Runs(IDLE, acts) && After(IDLE, acts) == s;
    TakeRuns(s);
    JoinRuns(IDLE, acts, [Select, PopPayload, Acquire]);
    TakenSpawns(s);
    JoinRuns(IDLE, acts + [Select, PopPayload, Acquire], [Count, Add, Spawn]);
  }

  lemma PopReaches(s: Listener)
    requires Reachable(s) && s.pc == Selecting && !s.cancelled
    ensures Reachable(s.(pc := Holding, claimed := s.claimed + 1))
  {
    var acts :| Runs(IDLE, acts) && After(IDLE, acts) == s;
    Unroll(s.(pc := Popping), PopPayload, []);
    Unroll(s, Select, [PopPayload]);
    JoinRuns(IDLE, acts, [Select, PopPayload]);
  }

  function Full(): Listener {
    Listener(Holding, false, 2, 2, 2, 3, {0, 1}, {}, {}, {})
  }

  /** Two payloads are in processing and the listener holds a third one, which waits for a token. */
  lemma ThirdPayloadWaits()
    ensures Reachable(Full()) && !Enabled(Full(), Acquire)
  {
    assert Runs(IDLE, []) && After(IDLE, []) == IDLE;
    SpawnReaches(IDLE);
    SpawnReaches(Spawned(IDLE));
    var two := Spawned(Spawned(IDLE));
    assert two.processing == {0, 1};
    PopReaches(two);
  }

  /** A scheduler picks the next action among those that are possible, and cancels by turn `patience`. */
  ghost predicate Schedules(scheduler: (nat, Listener) -> Action, patience: nat) {
    forall turn: nat, s :: Reachable(s) && s.pc != Returned ==>
      Enabled(s, scheduler(turn, s)) && (turn >= patience ==> s.cancelled || scheduler(turn, s) == Cancel)
  }

  ghost predicate ChosenAt(scheduler: (nat, Listener) -> Action, acts: seq<Action>, i: nat)
    requires i < |acts|
  {
    Runs(IDLE, acts[..i]) && acts[i] == scheduler(i, After(IDLE, acts[..i]))
  }

  /** Every action of the run from the idle state was the scheduler's choice in the state that it met. */
  ghost predicate Follows(scheduler: (nat, Listener) -> Action, acts: seq<Action>) {
    forall i :: 0 <= i < |acts| ==> ChosenAt(scheduler, acts, i)
  }

  lemma FollowsNext(scheduler: (nat, Listener) -> Action, acts: seq<Action>, a: Action)
    requires Follows(scheduler, acts) && Runs(IDLE, acts) && a == scheduler(|acts|, After(IDLE, acts))
    ensures Follows(scheduler, acts + [a])
  {
    var more := acts + [a];
    forall i | 0 <= i < |more| ensures ChosenAt(scheduler, more, i) {
      if i < |acts| {
        assert ChosenAt(scheduler, acts, i) && more[..i] == acts[..i];
      } else {
        assert more[..i] == acts;
      }
    }
  }

  ghost function AnyEnabled(s: Listener): Action {
    if exists a :: Enabled(s, a) then var a :| Enabled(s, a); a else Cancel
  }

  /** There is such a scheduler: as long as the listener has not returned, somebody can move. */
  lemma SchedulerExists(patience: nat)
    ensures Schedules((turn: nat, s: Listener) => if s.cancelled then AnyEnabled(s) else Cancel, patience)
  {
    forall s: Listener | Reachable(s) && s.pc != Returned && s.cancelled ensures Enabled(s, AnyEnabled(s)) {
      ReachableInv(s);
      DrainMoves(s);
    }
  }

  /** One worker process, changing its counters in place. */
  class ListenerProcess {
    var pc: Pc
    var cancelled: bool
    var sem: nat
    var active: int
    var wg: int
    var claimed: nat
    var processing: set<nat>
    var released: set<nat>
    var decremented: set<nat>
    var finished: set<nat>

    function View(): Listener
      reads this
    {
      Listener(pc, cancelled, sem, active, wg, claimed, processing, released, decremented, finished)
    }

    constructor ()
      ensures View() == IDLE
    {
      pc, cancelled, sem, active, wg, claimed := Selecting, false, 0, 0, 0, 0;
      processing, released, decremented, finished := {}, {}, {}, {};
    }

    /** One atomic action of the listener, of a goroutine, or of whoever cancels. */
    method Perform(a: Action)
      requires Enabled(View(), a)
      modifies this
      ensures View() == Next(old(View()), a)
    {
      match a
      case Select => pc := if cancelled then Draining else Popping;
      case PopPayload => pc, claimed := Holding, claimed + 1;
      case PopNothing => pc := Selecting;
      case Acquire => pc, sem := Acquired, sem + 1;
      case Count => pc, active := Counted, active + 1;
      case Add => pc, wg := Added, wg + 1;
      case Spawn => pc, processing := Selecting, processing + {claimed - 1};
      case Return => pc := Returned;
      case Release(t) =>
        sem, processing, released, finished := sem - 1, processing - {t}, released + {t}, finished + {t};
      case Decrement(t) => active, released, decremented := active - 1, released - {t}, decremented + {t};
      case Done(t) => wg, decremented := wg - 1, decremented - {t};
      case Cancel => cancelled := true;
    }

    /**
     The whole life of the listener under any scheduler: its steps are a run from the idle state, each chosen by
     the scheduler, the run ends, and then every popped payload is processed and every counter back at zero.
     */
    method StartListening(scheduler: (nat, Listener) -> Action, patience: nat) returns (ghost acts: seq<Action>)
      requires View() == IDLE && Schedules(scheduler, patience)
      modifies this
      ensures Runs(IDLE, acts) && After(IDLE, acts) == View() && AllDone(View())
      ensures Follows(scheduler, acts)
    {
      var turn := 0;
      acts := [];
      while pc != Returned
        invariant turn == |acts| && Runs(IDLE, acts) && After(IDLE, acts) == View() && Follows(scheduler, acts)
        decreases !cancelled, if cancelled then 0 else patience - turn, DrainWork(View())
      {
        var a := scheduler(turn, View());
        assert Reachable(View());
        ReachableInv(View());
        Unroll(View(), a, []);
        JoinRuns(IDLE, acts, [a]);
        FollowsNext(scheduler, acts, a);
        if cancelled {
          DrainFalls(View(), a);
        }
        Perform(a);
        acts, turn := acts + [a], turn + 1;
      }
      assert Reachable(View());
      ReachableInv(View());
      ReturnedIsDone(View());
    }
  }
}
