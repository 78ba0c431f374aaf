/**
 When the failure detector speaks: health checks every 30 s mark a worker offline whose last
 heartbeat is more than 45 s old, and a worker beats every 15 s. Times are in milliseconds.
 */
module FailureDetector {
  import opened Recovery

  const HEARTBEAT_INTERVAL := 15000

  /** What one worker's row sees: an accepted heartbeat, or a health check. */
  datatype Event = Beat(at: int) | Check(at: int)

  function See(w: Worker, e: Event): Worker {
    match e
    case Beat(at) => Beaten(w, w.activeJobs, w.capacity, at)
    case Check(at) => Checked(w, at)
  }

  function SeeAll(w: Worker, events: seq<Event>): Worker {
    if events == [] then w else See(SeeAll(w, events[..|events| - 1]), events[|events| - 1])
  }

  // ---------- a silent worker is found ----------

  /** The checks of a ticker whose first tick is at `first`, up to tick `n`. */
  function Ticks(first: int, n: nat): seq<Event> {
    if n == 0 then [] else Ticks(first, n - 1) + [Check(first + (n - 1) * HEALTH_CHECK_INTERVAL)]
  }

  /** The number of ticks at or before the worker becomes stale. */
  function Patience(first: int, beat: int): nat {
    var d := beat + HEARTBEAT_TIMEOUT - first;
    if d < 0 then 0 else d / HEALTH_CHECK_INTERVAL + 1
  }

  lemma {:induction false} ActiveUntilPatience(w: Worker, first: int, n: nat)
    requires w.status == Active && n <= Patience(first, w.lastHeartbeat)
    ensures SeeAll(w, Ticks(first, n)) == w
  {
    if n > 0 {
      ActiveUntilPatience(w, first, n - 1);
      var at := first + (n - 1) * HEALTH_CHECK_INTERVAL;
      assert Ticks(first, n)[..|Ticks(first, n)| - 1] == Ticks(first, n - 1);
      assert at <= w.lastHeartbeat + HEARTBEAT_TIMEOUT;
    }
  }

  lemma {:induction false} OfflineFromPatience(w: Worker, first: int, n: nat)
    requires w.status == Active && n > Patience(first, w.lastHeartbeat)
    ensures SeeAll(w, Ticks(first, n)) == w.(status := Offline)
  {
    var at := first + (n - 1) * HEALTH_CHECK_INTERVAL;
    assert Ticks(first, n)[..|Ticks(first, n)| - 1] == Ticks(first, n - 1);
    if n - 1 == Patience(first, w.lastHeartbeat) {
      ActiveUntilPatience(w, first, n - 1);
      assert at > w.lastHeartbeat + HEARTBEAT_TIMEOUT;
    } else {
      OfflineFromPatience(w, first, n - 1);
    }
  }

  /**
   After its last heartbeat a silent worker is offline exactly from the first tick later than 45 s
   after that heartbeat; if ticks were already running, that tick comes no later than 75 s after it.
   */
  lemma SilentWorkerIsFound(w: Worker, first: int, n: nat)
    requires w.status == Active
    ensures var found := first + Patience(first, w.lastHeartbeat) * HEALTH_CHECK_INTERVAL;
      && found > w.lastHeartbeat + 45000
      && (first <= w.lastHeartbeat + 75000 ==> found <= w.lastHeartbeat + 75000)
      && (SeeAll(w, Ticks(first, n)).status == Offline <==> n > 0 && first + (n - 1) * 30000 >= found)
  {
    if n <= Patience(first, w.lastHeartbeat) {
      ActiveUntilPatience(w, first, n);
    } else {
      OfflineFromPatience(w, first, n);
    }
  }

  /** The wait can be 75 s: last heard of at 0, a worker is still active after the tick at 45 s and offline after the next one. */
  lemma LongestWait(w: Worker)
    requires w.status == Active && w.lastHeartbeat == 0
    ensures Ticks(45000, 2) == [Check(45000), Check(75000)]
    ensures SeeAll(w, Ticks(45000, 1)).status == Active && SeeAll(w, Ticks(45000, 2)).status == Offline
  {
    SilentWorkerIsFound(w, 45000, 1);
    SilentWorkerIsFound(w, 45000, 2);
    assert Ticks(45000, 1) == [Check(45000)];
  }

  // ---------- a beating worker is not accused ----------

  /** Heartbeat `k` is sent at `start + 15 s * k`; `arrival(k)` tells when it was accepted, if it was. */
  datatype Schedule = Schedule(start: int, lost: nat -> bool, delay: nat -> nat)

  function SentAt(s: Schedule, k: nat): int {
    s.start + k * HEARTBEAT_INTERVAL
  }

  function ArrivesAt(s: Schedule, k: nat): int {
    SentAt(s, k) + s.delay(k)
  }

  /** One of the `m + 1` heartbeats from number `k` on gets through. */
  predicate GetsThrough(s: Schedule, k: nat, m: nat) {
    exists i: nat :: k <= i <= k + m && !s.lost(i)
  }

  /** At most `m` heartbeats in a row are lost, and the others take at most `d`. */
  ghost predicate Steady(s: Schedule, m: nat, d: nat) {
    && (forall k: nat :: s.delay(k) <= d)
    && (forall k: nat :: GetsThrough(s, k, m))
  }

  /** The events are in the order of time, and every heartbeat that arrived before an event stands before it. */
  ghost predicate Observes(s: Schedule, events: seq<Event>) {
    && (forall i, j :: 0 <= i < j < |events| ==> events[i].at <= events[j].at)
    && (forall j, k: nat :: 0 <= j < |events| && !s.lost(k) && ArrivesAt(s, k) < events[j].at ==>
          exists i :: 0 <= i < j && events[i] == Beat(ArrivesAt(s, k)))
  }

  lemma {:induction false} LastBeatCounts(w: Worker, events: seq<Event>, i: nat)
    requires i < |events| && events[i].Beat?
    requires forall i, j :: 0 <= i < j < |events| ==> events[i].at <= events[j].at
    ensures SeeAll(w, events).lastHeartbeat >= events[i].at
  {
    var n := |events| - 1;
    if i < n {
      assert events[..n][i] == events[i];
      LastBeatCounts(w, events[..n], i);
    }
  }

  lemma {:induction false} HeartbeatNeverFallsBack(w: Worker, events: seq<Event>)
    requires forall i :: 0 <= i < |events| ==> events[i].at >= w.lastHeartbeat
    ensures SeeAll(w, events).lastHeartbeat >= w.lastHeartbeat
  {
    if events != [] {
      HeartbeatNeverFallsBack(w, events[..|events| - 1]);
    }
  }

  /** The latest heartbeat that surely arrived before `t`, if enough were sent. */
  lemma RecentArrival(s: Schedule, m: nat, d: nat, t: int) returns (k: nat)
    requires Steady(s, m, d) && t > SentAt(s, m) + d
    ensures !s.lost(k) && ArrivesAt(s, k) < t
    ensures ArrivesAt(s, k) >= t - HEARTBEAT_INTERVAL * (m + 1) - d
  {
    var x := t - d - s.start - 1;
    var last := x / HEARTBEAT_INTERVAL;
    assert last >= m;
    assert SentAt(s, last) < t - d <= SentAt(s, last) + HEARTBEAT_INTERVAL;
    assert GetsThrough(s, last - m, m);
    k :| last - m <= k <= last - m + m && !s.lost(k);
  }

  /** The worker registered at most 15 s before its first heartbeat, and nothing is older than that. */
  predicate Joined(w: Worker, s: Schedule, events: seq<Event>) {
    && w.status == Active && w.lastHeartbeat >= s.start - HEARTBEAT_INTERVAL
    && forall i :: 0 <= i < |events| ==> events[i].at >= w.lastHeartbeat
  }

  predicate Tolerable(m: nat, d: nat) {
    HEARTBEAT_INTERVAL * (m + 1) + d <= HEARTBEAT_TIMEOUT
  }

  lemma SeenRecently(w: Worker, s: Schedule, m: nat, d: nat, events: seq<Event>)
    requires Steady(s, m, d) && events != [] && Observes(s, events)
    requires HEARTBEAT_INTERVAL * (m + 1) + d <= HEARTBEAT_TIMEOUT && w.lastHeartbeat >= s.start - HEARTBEAT_INTERVAL
    requires forall i :: 0 <= i < |events| ==> events[i].at >= w.lastHeartbeat
    ensures SeeAll(w, events[..|events| - 1]).lastHeartbeat >= events[|events| - 1].at - HEARTBEAT_TIMEOUT
  {
    var n := |events| - 1;
    var t := events[n].at;
    if t > SentAt(s, m) + d {
      var k := RecentArrival(s, m, d, t);
      var i :| 0 <= i < n && events[i] == Beat(ArrivesAt(s, k));
      assert events[..n][i] == events[i];
      LastBeatCounts(w, events[..n], i);
    } else {
      HeartbeatNeverFallsBack(w, events[..n]);
    }
  }

  lemma ObservesBefore(s: Schedule, events: seq<Event>)
    requires events != [] && Observes(s, events)
    ensures Observes(s, events[..|events| - 1])
  {
    var before := events[..|events| - 1];
    forall j, k: nat | 0 <= j < |before| && !s.lost(k) && ArrivesAt(s, k) < before[j].at
      ensures exists i :: 0 <= i < j && before[i] == Beat(ArrivesAt(s, k))
    {
      assert events[j] == before[j];
      var i :| 0 <= i < j && events[i] == Beat(ArrivesAt(s, k));
      assert before[i] == events[i];
    }
  }

  lemma {:induction false} SteadyWorkerStaysActive(w: Worker, s: Schedule, m: nat, d: nat, events: seq<Event>)
    requires Steady(s, m, d) && Observes(s, events) && Tolerable(m, d) && Joined(w, s, events)
    ensures SeeAll(w, events).status == Active
  {
    if events != [] {
      var before, e := events[..|events| - 1], events[|events| - 1];
      ObservesBefore(s, events);
      SteadyWorkerStaysActive(w, s, m, d, before);
      if e.Check? {
        SeenRecently(w, s, m, d, events);
      }
    }
  }

  /** A registration at `at`, with the first heartbeat sent at most 15 s later, is a good start. */
  lemma RegisteredJoins(workers: Registry, id: string, host: string, at: int, s: Schedule, events: seq<Event>)
    requires s.start <= at + HEARTBEAT_INTERVAL && forall i :: 0 <= i < |events| ==> events[i].at >= at
    ensures id in Registered(workers, id, host, at) && Joined(Registered(workers, id, host, at)[id], s, events)
  {
  }

  /** So a worker that registers, known or not, and then beats steadily is never marked offline. */
  lemma RegisteredStaysActive(workers: Registry, id: string, host: string, at: int, s: Schedule, m: nat, d: nat, events: seq<Event>)
    requires s.start <= at + HEARTBEAT_INTERVAL && forall i :: 0 <= i < |events| ==> events[i].at >= at
    requires Steady(s, m, d) && Observes(s, events) && Tolerable(m, d)
    ensures id in Registered(workers, id, host, at) && SeeAll(Registered(workers, id, host, at)[id], events).status == Active
  {
    RegisteredJoins(workers, id, host, at, s, events);
    SteadyWorkerStaysActive(Registered(workers, id, host, at)[id], s, m, d, events);
  }

  // ---------- the bound is exact ----------

  /** Heartbeat 0 arrives at once, the next `m` are lost, and the one after them takes `d`. */
  function Slow(m: nat, d: nat): Schedule {
    Schedule(0, k => 1 <= k <= m, k => if k == 0 then 0 else d)
  }

  const SLOW_EVENTS: seq<Event> := [Beat(0), Check(HEARTBEAT_TIMEOUT + 1)]

  lemma SlowIsSteady(m: nat, d: nat)
    ensures Steady(Slow(m, d), m, d)
  {
    forall k: nat ensures GetsThrough(Slow(m, d), k, m) {
      var i := if k == 0 then 0 else k + m;
      assert k <= i <= k + m && !Slow(m, d).lost(i);
    }
  }

  lemma SlowArrivals(m: nat, d: nat, k: nat)
    requires !Tolerable(m, d) && !Slow(m, d).lost(k) && k > 0
    ensures ArrivesAt(Slow(m, d), k) > HEARTBEAT_TIMEOUT
  {
    assert k >= m + 1;
    assert SentAt(Slow(m, d), k) >= SentAt(Slow(m, d), m + 1);
  }

  lemma SlowIsObserved(m: nat, d: nat)
    requires !Tolerable(m, d)
    ensures Observes(Slow(m, d), SLOW_EVENTS)
  {
    var s, events := Slow(m, d), SLOW_EVENTS;
    forall j, k: nat | 0 <= j < |events| && !s.lost(k) && ArrivesAt(s, k) < events[j].at
      ensures exists i :: 0 <= i < j && events[i] == Beat(ArrivesAt(s, k))
    {
      if k > 0 {
        SlowArrivals(m, d, k);
      }
      assert events[0] == Beat(ArrivesAt(s, 0));
    }
  }

  /** No worker with at most `m` losses in a row and delays within `d` is ever marked offline. */
  ghost predicate NeverAccused(m: nat, d: nat) {
    forall w, s, events :: Steady(s, m, d) && Observes(s, events) && Joined(w, s, events) ==> SeeAll(w, events).status == Active
  }

  /** The detector never accuses a beating worker exactly when 15 s (m + 1) + d <= 45 s. */
  lemma NeverAccusedIff(m: nat, d: nat)
    ensures NeverAccused(m, d) <==> 15000 * (m + 1) + d <= 45000
  {
    if Tolerable(m, d) {
      forall w, s, events | Steady(s, m, d) && Observes(s, events) && Joined(w, s, events)
        ensures SeeAll(w, events).status == Active
      {
        SteadyWorkerStaysActive(w, s, m, d, events);
      }
    } else {
      var w := Worker(Active, "", 0, 0, 0);
      SlowIsSteady(m, d);
      SlowIsObserved(m, d);
      assert SLOW_EVENTS[..1] == [Beat(0)];
      assert SeeAll(w, [Beat(0)]) == See(w, Beat(0));
      assert Joined(w, Slow(m, d), SLOW_EVENTS) && SeeAll(w, SLOW_EVENTS).status == Offline;
    }
  }

  /** Two heartbeats in a row may be lost if nothing is late, one may if the next is up to 15 s late, and not more. */
  lemma LossesTolerated()
    ensures NeverAccused(2, 0) && !NeverAccused(2, 1) && NeverAccused(1, 15000) && !NeverAccused(1, 15001) && !NeverAccused(3, 0)
  {
    NeverAccusedIff(2, 0);
    NeverAccusedIff(2, 1);
    NeverAccusedIff(1, 15000);
    NeverAccusedIff(1, 15001);
    NeverAccusedIff(3, 0);
  }
}
