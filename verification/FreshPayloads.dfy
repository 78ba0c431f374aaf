/**
 What a fire pushes, and what the row says by then. `executeJob` re-reads only `is_active`, so the
 payload keeps the name and the URL that the job had when the fire began.
 */
module FreshPayloads {
  import opened Model
  import opened JobLedger
  import opened LedgerSafety
  import opened LedgerRuns

  function TextAfter(a: Action, id: JobId, p: Payload): Payload {
    match a
    case CreateRow(job) => if job.id == id then PayloadOf(job) else p
    case EditRow(i, name, url, _, _, _) => if i == id then Payload(id, name, url) else p
    case _ => p
  }

  /** The text that the last create or update of job `id` among `acts` gave it, and `p` if there was none. */
  function LastText(acts: seq<Action>, id: JobId, p: Payload): Payload {
    if acts == [] then p
    else LastText(acts[1..], id, TextAfter(acts[0], id, p))
  }

  /** If job `id` has a row, it says `p`. */
  predicate Says(s: Ledger, id: JobId, p: Payload) {
    id in s.board.rows ==> PayloadOf(s.board.rows[id]) == p
  }

  lemma WorkKeepsText(s: Ledger, a: Action, id: JobId, p: Payload)
    requires Enabled(s, a) && Says(s, id, p) && (IsFireAction(a) || IsRunAction(a))
    ensures Says(Next(s, a), id, p)
  {
  }

  lemma RestKeepsText(s: Ledger, a: Action, id: JobId, p: Payload)
    requires Keyed(s.board.rows) && Enabled(s, a) && Says(s, id, p) && !IsFireAction(a) && !IsRunAction(a)
    ensures Says(Next(s, a), id, TextAfter(a, id, p))
  {
  }

  lemma TextKept(s: Ledger, a: Action, id: JobId, p: Payload)
    requires Keyed(s.board.rows) && Enabled(s, a) && Says(s, id, p)
    ensures Says(Next(s, a), id, TextAfter(a, id, p))
  {
    if IsFireAction(a) || IsRunAction(a) {
      WorkKeepsText(s, a, id, p);
    } else {
      RestKeepsText(s, a, id, p);
    }
  }

  /** Of all actions in the system only creates and updates of the job itself change what its row says. */
  lemma {:induction false} TextIsLast(s: Ledger, acts: seq<Action>, id: JobId, p: Payload)
    requires Inv(s) && Runs(s, acts) && Says(s, id, p)
    ensures Says(After(s, acts), id, LastText(acts, id, p))
    decreases |acts|
  {
    if acts != [] {
      InvKept(s, acts[0]);
      TextKept(s, acts[0], id, p);
      TextIsLast(Next(s, acts[0]), acts[1..], id, TextAfter(acts[0], id, p));
    }
  }

  /** Fire `f` was started and carries `p`, if it is still under way. */
  predicate Carries(s: Ledger, f: nat, p: Payload) {
    f < s.nextFire && (f in s.fires ==> s.fires[f].payload == p)
  }

  lemma CarriesKept(s: Ledger, a: Action, f: nat, p: Payload)
    requires Enabled(s, a) && Carries(s, f, p)
    ensures Carries(Next(s, a), f, p)
  {
  }

  lemma {:induction false} CarriesAlways(s: Ledger, acts: seq<Action>, f: nat, p: Payload)
    requires Runs(s, acts) && Carries(s, f, p)
    ensures Carries(After(s, acts), f, p)
    decreases |acts|
  {
    if acts != [] {
      CarriesKept(s, acts[0], f, p);
      CarriesAlways(Next(s, acts[0]), acts[1..], f, p);
    }
  }

  /**
   Whatever happens between the start of a fire and its push, it pushes the row's text as it was at the
   start. That is the row's present text iff the last update of the job since then, if any, gave the same.
   */
  lemma PushIsCurrentIff(s: Ledger, p: Payload, acts: seq<Action>)
    requires Inv(s) && Enabled(s, FireCron(p)) && Runs(Next(s, FireCron(p)), acts)
    requires var e := After(Next(s, FireCron(p)), acts);
      Enabled(e, FirePush(s.nextFire, true)) && p.jobId in e.board.rows
    ensures var e := After(Next(s, FireCron(p)), acts);
      var e' := Next(e, FirePush(s.nextFire, true));
      && e'.list.queue == [p] + e.list.queue
      && (p == PayloadOf(e'.board.rows[p.jobId]) <==> LastText(acts, p.jobId, p) == p)
  {
    var s1 := Next(s, FireCron(p));
    InvKept(s, FireCron(p));
    TextIsLast(s1, acts, p.jobId, p);
    CarriesAlways(s1, acts, s.nextFire, p);
  }

  function StaleRun(): seq<Action> {
    [CreateRow(BooksRow(Scheduled))] + (MarkActions(0, BOOKS) + [EditRow(0, "novels", "http://novels", "* * * * * *", true, None), FirePush(0, true)])
  }

  function Novels(): Job {
    BooksRow(Pending).(name := "novels", url := "http://novels")
  }

  lemma EditThenPush(s: Ledger)
    requires s.board.rows == map[0 := BooksRow(Pending)] && s.phase == Serving && s.fires == map[0 := Fire(BOOKS, Marked)]
    ensures var acts := [EditRow(0, "novels", "http://novels", "* * * * * *", true, None), FirePush(0, true)];
      && Runs(s, acts)
      && After(s, acts).list.queue == [BOOKS] + s.list.queue && After(s, acts).board.rows == map[0 := Novels()]
  {
    var a := EditRow(0, "novels", "http://novels", "* * * * * *", true, None);
    var s1 := Next(s, a);
    assert s1.board.rows == map[0 := Novels()];
    Unroll(s1, FirePush(0, true), []);
    Unroll(s, a, [FirePush(0, true)]);
  }

  /** A job renamed while its fire is under way is scraped under its old name and at its old URL. */
  lemma UpdateDuringFireIsMissed(s: Ledger)
    requires Init(s)
    ensures Runs(s, StaleRun())
    ensures var e := After(s, StaleRun());
      e.list.queue == [BOOKS] && 0 in e.board.rows && PayloadOf(e.board.rows[0]) == Payload(0, "novels", "http://novels")
  {
    var s1 := Next(s, CreateRow(BooksRow(Scheduled)));
    MarkRuns(s1, BOOKS);
    var s2 := MarkedState(s1, BOOKS);
    assert s2.board.rows == map[0 := BooksRow(Pending)];
    EditThenPush(s2);
    var more := [EditRow(0, "novels", "http://novels", "* * * * * *", true, None), FirePush(0, true)];
    Joined(s1, MarkActions(0, BOOKS), more);
    Unroll(s, CreateRow(BooksRow(Scheduled)), MarkActions(0, BOOKS) + more);
  }
}
