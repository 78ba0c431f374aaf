/** The scrape of one job: a collector sends items through a bounded channel to an aggregator that writes them in batches. */
module Aggregator {
  import opened Model

  const BATCH_SIZE := 50
  const CHANNEL_SIZE := 100

  datatype ScrapeError = VisitError | WriteError

  // ---------- the simple form: cut the items into batches ----------

  function Batches<T>(items: seq<T>): seq<seq<T>> {
    if items == [] then []
    else if |items| <= BATCH_SIZE then [items]
    else [items[..BATCH_SIZE]] + Batches(items[BATCH_SIZE..])
  }

  function Flat<T>(batches: seq<seq<T>>): seq<T> {
    if batches == [] then [] else batches[0] + Flat(batches[1..])
  }

  /** What the flushes of the batches store, if flush number `k + i` succeeds as `writeOk(k + i)` says. */
  function Stored<T>(batches: seq<seq<T>>, writeOk: nat -> bool, k: nat): seq<T> {
    if batches == [] then []
    else (if writeOk(k) then batches[0] else []) + Stored(batches[1..], writeOk, k + 1)
  }

  predicate AllWritten(n: nat, writeOk: nat -> bool) {
    forall k: nat :: k < n ==> writeOk(k)
  }

  /** The batches are the items in order; all but the last have 50 items; there are ceil(n / 50) of them. */
  lemma {:induction false} BatchesShape<T>(items: seq<T>)
    ensures Flat(Batches(items)) == items
    ensures |Batches(items)| == (|items| + 49) / 50
    ensures forall i :: 0 <= i < |Batches(items)| ==> 0 < |Batches(items)[i]| <= 50
    ensures forall i :: 0 <= i < |Batches(items)| - 1 ==> |Batches(items)[i]| == 50
  {
    if |items| > BATCH_SIZE {
      var rest := items[BATCH_SIZE..];
      BatchesShape(rest);
      assert Batches(items)[1..] == Batches(rest);
      assert items == items[..BATCH_SIZE] + rest;
    } else if items != [] {
      assert Batches(items)[1..] == [];
      assert Flat(Batches(items)) == items + Flat(Batches(items)[1..]);
    }
  }

  /** Saved + dropped = emitted: the stored items fall short of the items unless every flush succeeded. */
  lemma {:induction false} StoredCount<T>(batches: seq<seq<T>>, writeOk: nat -> bool, k: nat)
    requires forall i :: 0 <= i < |batches| ==> batches[i] != []
    ensures |Stored(batches, writeOk, k)| + |Stored(batches, (j: nat) => !writeOk(j), k)| == |Flat(batches)|
    ensures (forall i :: k <= i < k + |batches| ==> writeOk(i)) ==> Stored(batches, writeOk, k) == Flat(batches)
    ensures (forall i :: k <= i < k + |batches| ==> writeOk(i)) <==> |Stored(batches, writeOk, k)| == |Flat(batches)|
    decreases |batches|
  {
    if batches != [] {
      assert forall i :: 0 <= i < |batches| - 1 ==> batches[1..][i] == batches[i + 1];
      StoredCount(batches[1..], writeOk, k + 1);
      assert batches[0] != [];
    }
  }

  /** For the batches of `items`: everything is stored iff no flush failed, and then in the order of emission. */
  lemma NothingDroppedIff<T>(items: seq<T>, writeOk: nat -> bool)
    ensures AllWritten(|Batches(items)|, writeOk) <==> |Stored(Batches(items), writeOk, 0)| == |items|
    ensures AllWritten(|Batches(items)|, writeOk) ==> Stored(Batches(items), writeOk, 0) == items
    ensures |Stored(Batches(items), writeOk, 0)| + |Stored(Batches(items), (j: nat) => !writeOk(j), 0)| == |items|
  {
    BatchesShape(items);
    StoredCount(Batches(items), writeOk, 0);
  }

  /** The items whose flush succeeded, item by item: the one at position `i` is in flush number `i / 50`. */
  function ByPosition<T>(items: seq<T>, writeOk: nat -> bool, i: nat): seq<T> {
    if items == [] then []
    else (if writeOk(i / 50) then [items[0]] else []) + ByPosition(items[1..], writeOk, i + 1)
  }

  lemma {:induction false} ByPositionJoin<T>(items: seq<T>, more: seq<T>, writeOk: nat -> bool, i: nat)
    ensures ByPosition(items + more, writeOk, i) == ByPosition(items, writeOk, i) + ByPosition(more, writeOk, i + |items|)
    decreases |items|
  {
    if items == [] {
      assert items + more == more;
    } else {
      assert (items + more)[1..] == items[1..] + more;
      ByPositionJoin(items[1..], more, writeOk, i + 1);
    }
  }

  /** Items of one flush are stored together or dropped together. */
  lemma {:induction false} OneFlush<T>(items: seq<T>, writeOk: nat -> bool, i: nat, k: nat)
    requires 50 * k <= i && i + |items| <= 50 * k + 50
    ensures ByPosition(items, writeOk, i) == if writeOk(k) then items else []
    decreases |items|
  {
    if items != [] {
      assert i / 50 == k;
      OneFlush(items[1..], writeOk, i + 1, k);
    }
  }

  /** What is stored, said without batches: the items at all positions whose flush succeeded, in the order of emission. */
  lemma {:induction false} StoredByPosition<T>(items: seq<T>, writeOk: nat -> bool, k: nat)
    ensures Stored(Batches(items), writeOk, k) == ByPosition(items, writeOk, 50 * k)
    decreases |items|
  {
    if items != [] {
      var n := if |items| <= 50 then |items| else 50;
      var first, rest := items[..n], items[n..];
      assert items == first + rest;
      ByPositionJoin(first, rest, writeOk, 50 * k);
      OneFlush(first, writeOk, 50 * k, k);
      if rest == [] {
        assert Batches(items) == [items] && Batches(items)[1..] == [];
        assert Stored(Batches(items), writeOk, k) == (if writeOk(k) then items else []) + [];
      } else {
        assert Batches(items) == [first] + Batches(rest) && Batches(items)[1..] == Batches(rest);
        StoredByPosition(rest, writeOk, k + 1);
      }
    }
  }

  // ---------- flushing one batch after the other ----------

  lemma {:induction false} FlatAppend<T>(batches: seq<seq<T>>, b: seq<T>)
    ensures Flat(batches + [b]) == Flat(batches) + b
  {
    if batches == [] {
      assert batches + [b] == [b];
      assert [b][1..] == [];
      assert Flat([b]) == b + Flat([b][1..]);
    } else {
      FlatAppend(batches[1..], b);
      assert (batches + [b])[1..] == batches[1..] + [b];
    }
  }

  lemma {:induction false} StoredAppend<T>(batches: seq<seq<T>>, b: seq<T>, writeOk: nat -> bool, k: nat)
    ensures Stored(batches + [b], writeOk, k) == Stored(batches, writeOk, k) + if writeOk(k + |batches|) then b else []
    decreases |batches|
  {
    if batches == [] {
      assert batches + [b] == [b];
      assert [b][1..] == [];
    } else {
      StoredAppend(batches[1..], b, writeOk, k + 1);
      assert (batches + [b])[1..] == batches[1..] + [b];
    }
  }

  /** Full batches, then one that may be shorter, are the only way to cut their concatenation. */
  lemma {:induction false} CutsAgree<T>(batches: seq<seq<T>>)
    requires forall i :: 0 <= i < |batches| ==> 0 < |batches[i]| <= BATCH_SIZE
    requires forall i :: 0 <= i < |batches| - 1 ==> |batches[i]| == BATCH_SIZE
    ensures batches == Batches(Flat(batches))
  {
    if batches != [] {
      var rest := batches[1..];
      assert forall i :: 0 <= i < |rest| ==> rest[i] == batches[i + 1];
      CutsAgree(rest);
      var items := Flat(batches);
      if rest == [] {
        assert items == batches[0];
        assert batches == [items];
      } else {
        assert |Flat(rest)| > 0 by { assert Flat(rest) == rest[0] + Flat(rest[1..]); }
        assert items[..BATCH_SIZE] == batches[0] && items[BATCH_SIZE..] == Flat(rest);
        assert batches == [batches[0]] + rest;
      }
    }
  }

  /** The aggregator: what it was given so far, the open batch, the flushes so far, and its two results. */
  datatype Tally<T> = Tally(batch: seq<T>, flushed: seq<seq<T>>, stored: seq<T>, totalSaved: nat, dbErr: bool)

  ghost predicate Written<T>(a: Tally<T>, writeOk: nat -> bool) {
    && a.stored == Stored(a.flushed, writeOk, 0) && a.totalSaved == |a.stored|
    && (a.dbErr <==> !AllWritten(|a.flushed|, writeOk))
  }

  /** Everything received is flushed in full batches or still in the open batch. */
  ghost predicate Keeps<T>(a: Tally<T>, received: seq<T>, writeOk: nat -> bool) {
    && |a.batch| < BATCH_SIZE
    && (forall i :: 0 <= i < |a.flushed| ==> |a.flushed[i]| == BATCH_SIZE)
    && Flat(a.flushed) + a.batch == received
    && Written(a, writeOk)
  }

  method Flush<T>(a: Tally<T>, writeOk: nat -> bool) returns (r: Tally<T>)
    requires Written(a, writeOk)
    ensures Written(r, writeOk) && r.batch == []
    ensures r.flushed == if a.batch == [] then a.flushed else a.flushed + [a.batch]
  {
    r := a;
    if |a.batch| == 0 {
      return;
    }
    StoredAppend(a.flushed, a.batch, writeOk, 0);
    if writeOk(|a.flushed|) {
      r := r.(stored := a.stored + a.batch, totalSaved := a.totalSaved + |a.batch|);
    } else {
      r := r.(dbErr := true);
    }
    r := r.(batch := [], flushed := a.flushed + [a.batch]);
  }

  method Receive<T>(a: Tally<T>, item: T, writeOk: nat -> bool, ghost received: seq<T>) returns (r: Tally<T>)
    requires Keeps(a, received, writeOk)
    ensures Keeps(r, received + [item], writeOk)
  {
    r := a.(batch := a.batch + [item]);
    if |r.batch| >= BATCH_SIZE {
      FlatAppend(a.flushed, r.batch);
      r := Flush(r, writeOk);
    }
  }

  /** The last flush turns what was kept into exactly the batches of everything received. */
  lemma LastFlush<T>(a: Tally<T>, received: seq<T>, writeOk: nat -> bool)
    requires Keeps(a, received, writeOk)
    ensures (if a.batch == [] then a.flushed else a.flushed + [a.batch]) == Batches(received)
  {
    if a.batch == [] {
      assert received == Flat(a.flushed);
      CutsAgree(a.flushed);
    } else {
      FlatAppend(a.flushed, a.batch);
      CutsAgree(a.flushed + [a.batch]);
    }
  }

  /**
   The collector emits `items` and then its visit succeeds or not; flush `k` succeeds as `writeOk(k)`
   says. Each turn of the loop is one step of either goroutine, chosen freely among those that can
   move: sending blocks while the channel is full and receiving while it is empty and open.
   */
  method RunScrape<T>(items: seq<T>, visitOk: bool, writeOk: nat -> bool)
    returns (totalSaved: nat, err: Option<ScrapeError>, flushed: seq<seq<T>>, stored: seq<T>)
    ensures flushed == Batches(items)
    ensures stored == Stored(flushed, writeOk, 0) && stored == ByPosition(items, writeOk, 0) && totalSaved == |stored|
    ensures err == if !visitOk then Some(VisitError) else if |stored| < |items| then Some(WriteError) else None
  {
    var channel: seq<T>, emitted, closed, done := [], 0, false, false;
    var a: Tally<T> := Tally([], [], [], 0, false);
    while !done
      invariant emitted <= |items| && |channel| <= emitted && |channel| <= CHANNEL_SIZE
      invariant channel == items[emitted - |channel|..emitted]
      invariant closed ==> emitted == |items|
      invariant !done ==> Keeps(a, items[..emitted - |channel|], writeOk)
      invariant done ==> Written(a, writeOk) && a.flushed == Batches(items)
      decreases !done, |items| - emitted, !closed, |channel|
    {
      if {
        case emitted < |items| && |channel| < CHANNEL_SIZE =>
          channel, emitted := channel + [items[emitted]], emitted + 1;
        case emitted == |items| && !closed =>
          closed := true;
        case channel != [] =>
          ghost var received := items[..emitted - |channel|];
          a := Receive(a, channel[0], writeOk, received);
          channel := channel[1..];
          assert received + [items[|received|]] == items[..|received| + 1];
        case channel == [] && closed =>
          assert items[..emitted] == items;
          LastFlush(a, items, writeOk);
          a := Flush(a, writeOk);
          done := true;
      }
    }
    NothingDroppedIff(items, writeOk);
    StoredByPosition(items, writeOk, 0);
    totalSaved, flushed, stored := a.totalSaved, a.flushed, a.stored;
    err := if !visitOk then Some(VisitError) else if a.dbErr then Some(WriteError) else None;
  }
}
