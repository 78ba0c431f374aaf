/** The worker's heartbeat sender: a connection that may be absent and a counter of consecutive failures. */
module HeartbeatClient {

  const MAX_HEARTBEAT_FAILURES := 3

  datatype Answer = Failed | Acknowledged | Refused

  /** What goes over the wire. */
  datatype Event = Dial(ok: bool) | Rpc(answer: Answer) | Register

  /** `present` is `client != nil`; `trace` is history. */
  datatype Client = Client(present: bool, failures: nat, trace: seq<Event>)

  /** What the network does during one heartbeat, as far as it gets. */
  datatype Network = Network(dialBefore: bool, answer: Answer, dialAfter: bool)

  function Redialled(c: Client, ok: bool): Client {
    c.(present := ok, trace := c.trace + [Dial(ok)])
  }

  function Sent(c: Client, n: Network): Client {
    var c := c.(trace := c.trace + [Rpc(n.answer)]);
    match n.answer
    case Failed =>
      var c := c.(failures := c.failures + 1);
      if c.failures < MAX_HEARTBEAT_FAILURES then c
      else
        var c := Redialled(c, n.dialAfter);
        if n.dialAfter then c.(failures := 0) else c
    case Acknowledged => c.(failures := 0)
    case Refused => c.(failures := 0, trace := c.trace + [Register])
  }

  function AfterHeartbeat(c: Client, n: Network): Client {
    if c.present then Sent(c, n)
    else
      var c := Redialled(c, n.dialBefore);
      if n.dialBefore then Sent(c, n) else c
  }

  function AfterHeartbeats(c: Client, ns: seq<Network>): Client {
    if ns == [] then c else AfterHeartbeat(AfterHeartbeats(c, ns[..|ns| - 1]), ns[|ns| - 1])
  }

  // ---------- what the trace shows ----------

  /** A connection exists after the trace: the last dial succeeded, or the initial one still stands. */
  predicate Connected(trace: seq<Event>) {
    trace == [] || (var last := trace[|trace| - 1]; if last.Dial? then last.ok else Connected(trace[..|trace| - 1]))
  }

  /** RPC failures since the last success or dial. */
  function Streak(trace: seq<Event>): nat {
    if trace == [] then 0
    else
      match trace[|trace| - 1]
      case Dial(_) => 0
      case Rpc(answer) => if answer == Failed then Streak(trace[..|trace| - 1]) + 1 else 0
      case Register => Streak(trace[..|trace| - 1])
  }

  /** Event `i` is allowed after the events before it. */
  predicate Allowed(trace: seq<Event>, i: nat)
    requires i < |trace|
  {
    && (!trace[i].Dial? ==> Connected(trace[..i]))
    && (Streak(trace[..i]) >= MAX_HEARTBEAT_FAILURES ==> trace[i].Dial?)
  }

  /** No RPC without a connection, and after three failures in a row comes a dial. */
  predicate Disciplined(trace: seq<Event>) {
    forall i :: 0 <= i < |trace| ==> Allowed(trace, i)
  }

  predicate Inv(c: Client) {
    && (c.present <==> c.failures < MAX_HEARTBEAT_FAILURES)
    && c.present == Connected(c.trace)
    && Disciplined(c.trace)
    && Streak(c.trace) == if c.present then c.failures else 0
  }

  lemma Appended(trace: seq<Event>, e: Event)
    requires Disciplined(trace)
    requires !e.Dial? ==> Connected(trace) && Streak(trace) < MAX_HEARTBEAT_FAILURES
    ensures Disciplined(trace + [e])
    ensures Connected(trace + [e]) == if e.Dial? then e.ok else Connected(trace)
    ensures Streak(trace + [e]) == match e case Dial(_) => 0 case Rpc(answer) => (if answer == Failed then Streak(trace) + 1 else 0) case Register => Streak(trace)
  {
    var t := trace + [e];
    assert t[..|trace|] == trace;
    forall i | 0 <= i < |t| ensures Allowed(t, i) {
      if i < |trace| {
        assert Allowed(trace, i);
        assert t[..i] == trace[..i];
      }
    }
  }

  /** `c` is about to send: it is connected, whatever the counter says. */
  lemma SentKeeps(c: Client, n: Network)
    requires c.present && Connected(c.trace) && Disciplined(c.trace)
    requires Streak(c.trace) < MAX_HEARTBEAT_FAILURES
    requires c.failures == Streak(c.trace) || c.failures >= MAX_HEARTBEAT_FAILURES
    ensures Inv(Sent(c, n))
  {
    var rpc := c.trace + [Rpc(n.answer)];
    Appended(c.trace, Rpc(n.answer));
    if n.answer == Refused {
      Appended(rpc, Register);
    } else if n.answer == Failed && c.failures + 1 >= MAX_HEARTBEAT_FAILURES {
      Appended(rpc, Dial(n.dialAfter));
    }
  }

  lemma HeartbeatKeeps(c: Client, n: Network)
    requires Inv(c)
    ensures Inv(AfterHeartbeat(c, n))
  {
    if c.present {
      SentKeeps(c, n);
    } else {
      Appended(c.trace, Dial(n.dialBefore));
      if n.dialBefore {
        SentKeeps(Redialled(c, true), n);
      }
    }
  }

  /**
   Over every run from a connected client: it is absent exactly when the counter stands at three
   or more, no RPC goes out without a connection, and three failed RPCs are followed by a dial.
   */
  lemma {:induction false} ClientStaysDisciplined(ns: seq<Network>)
    ensures var c := AfterHeartbeats(Client(true, 0, []), ns);
      && (!c.present <==> c.failures >= 3)
      && Disciplined(c.trace) && Streak(c.trace) < 3
      && Inv(c)
  {
    if ns != [] {
      ClientStaysDisciplined(ns[..|ns| - 1]);
      HeartbeatKeeps(AfterHeartbeats(Client(true, 0, []), ns[..|ns| - 1]), ns[|ns| - 1]);
    }
  }

  // ---------- one heartbeat, event by event ----------

  /**
   What one heartbeat sends: an absent client dials first; an RPC goes out iff there is a connection then; a refusal
   is followed by a registration; and a failure is followed by a dial iff it is at least the third in a row.
   */
  function EventsOf(c: Client, n: Network): seq<Event> {
    (if c.present then [] else [Dial(n.dialBefore)])
    + (if !c.present && !n.dialBefore then []
       else match n.answer
         case Failed => if c.failures >= 2 then [Rpc(Failed), Dial(n.dialAfter)] else [Rpc(Failed)]
         case Acknowledged => [Rpc(Acknowledged)]
         case Refused => [Rpc(Refused), Register])
  }

  /** `c'` is `c` after one heartbeat, event by event. */
  predicate BeatsOnce(c: Client, c': Client, n: Network) {
    var sends, redials := c.present || n.dialBefore, n.answer == Failed && c.failures >= 2;
    && c'.trace == c.trace + EventsOf(c, n)
    && c'.present == (sends && (redials ==> n.dialAfter))
    && c'.failures == if !sends then c.failures
                      else if n.answer == Failed && !(redials && n.dialAfter) then c.failures + 1 else 0
  }

  lemma HeartbeatBeatsOnce(c: Client, n: Network)
    ensures BeatsOnce(c, AfterHeartbeat(c, n), n)
  {
  }

  /** Event `i` is a refusal iff a registration comes directly after it. */
  predicate AnsweredAt(trace: seq<Event>, i: nat)
    requires i < |trace|
  {
    trace[i] == Rpc(Refused) <==> i + 1 < |trace| && trace[i + 1] == Register
  }

  /** The worker registers after each refusal, and at no other time. */
  predicate Reregisters(trace: seq<Event>) {
    && (trace != [] ==> trace[0] != Register)
    && forall i :: 0 <= i < |trace| ==> AnsweredAt(trace, i)
  }

  lemma ReregistersOn(trace: seq<Event>, more: seq<Event>)
    requires Reregisters(trace) && Reregisters(more)
    ensures Reregisters(trace + more)
  {
    var t := trace + more;
    forall i | 0 <= i < |t| ensures AnsweredAt(t, i) {
      if i < |trace| {
        assert AnsweredAt(trace, i);
      } else {
        assert AnsweredAt(more, i - |trace|);
      }
    }
  }

  lemma OneReregisters(c: Client, n: Network)
    ensures Reregisters(EventsOf(c, n))
  {
  }

  /** Over every run each refused heartbeat is directly followed by a registration, and nothing else is. */
  lemma {:induction false} RefusalsReregister(ns: seq<Network>)
    ensures Reregisters(AfterHeartbeats(Client(true, 0, []), ns).trace)
  {
    if ns != [] {
      RefusalsReregister(ns[..|ns| - 1]);
      var c, n := AfterHeartbeats(Client(true, 0, []), ns[..|ns| - 1]), ns[|ns| - 1];
      HeartbeatBeatsOnce(c, n);
      OneReregisters(c, n);
      ReregistersOn(c.trace, EventsOf(c, n));
    }
  }

  class SupervisorClient {
    var conn: bool
    var client: bool
    var consecutiveFailures: nat
    ghost var trace: seq<Event>

    ghost function View(): Client
      reads this
    {
      Client(client, consecutiveFailures, trace)
    }

    ghost predicate Valid()
      reads this
    {
      conn == client && Inv(View())
    }

    constructor ()
      ensures Valid() && View() == Client(true, 0, [])
    {
      conn, client, consecutiveFailures, trace := true, true, 0, [];
    }

    method Reconnect(dialOk: bool) returns (ok: bool)
      requires conn == client
      modifies this
      ensures conn == client && ok == dialOk && View() == Redialled(old(View()), dialOk)
    {
      if conn {
        conn, client := false, false;
      }
      trace := trace + [Dial(dialOk)];
      if dialOk {
        conn, client := true, true;
      }
      ok := dialOk;
    }

    method SendHeartbeat(n: Network)
      requires Valid()
      modifies this
      ensures Valid() && View() == AfterHeartbeat(old(View()), n) && BeatsOnce(old(View()), View(), n)
    {
      HeartbeatKeeps(View(), n);
      HeartbeatBeatsOnce(View(), n);
      if !client {
        var ok := Reconnect(n.dialBefore);
        if !ok {
          return;
        }
      }
      assert client;
      trace := trace + [Rpc(n.answer)];
      if n.answer == Failed {
        consecutiveFailures := consecutiveFailures + 1;
        if consecutiveFailures >= MAX_HEARTBEAT_FAILURES {
          var ok := Reconnect(n.dialAfter);
          if ok {
            consecutiveFailures := 0;
          }
        }
        return;
      }
      consecutiveFailures := 0;
      if n.answer == Refused {
        trace := trace + [Register];
      }
    }
  }
}
