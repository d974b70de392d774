/**
 * `handle_client` (server.py:36-60) for one connection as a whole: the
 * registration, the read loop, and the removal in its `finally` clause.
 * The reads are given as a sequence; running out of reads stands for the
 * connection being closed, which ends the loop like an empty read. Each
 * step of the connection has its own clock reading and its own set of
 * connections whose sends fail, so a connection may work for a while and
 * then break.
 */
module Connection {
  import opened Registry
  import Steps
  import Guarantees

  /** The clock reading and the connections whose sends fail, during one step. */
  datatype Moment = Moment(ts: string, broken: set<ConnId>)

  /** One `recv` of the connection, and the moment in which it is handled. */
  datatype Read = Read(line: string, at: Moment)

  /**
   * The read loop (server.py:44-56): it stops at the first empty read or
   * once `c` is no longer registered (then line 50 or 64 raises), and
   * otherwise dispatches each line in order. Every state it passes through
   * keeps the two-way invariant.
   */
  ghost function Converse(w: Steps.State, c: ConnId, input: seq<Read>): (r: Steps.State)
    requires Valid(w.t)
    ensures Valid(r.t)
    decreases |input|
  {
    if input == [] || input[0].line == "" || c !in w.t.clients then w
    else
      var at := input[0].at;
      Guarantees.DispatchValid(w, c, input[0].line, at.ts, at.broken);
      Converse(Steps.Dispatch(w, c, input[0].line, at.ts, at.broken), c, input[1..])
  }

  /**
   * One whole connection: registration during `hello`, the read loop, and
   * `remove_client` in the `finally` clause (server.py:59-60) during `bye`.
   * However the loop ends, the client is no longer registered afterwards,
   * and the two-way invariant holds.
   */
  ghost function Serve(w: Steps.State, c: ConnId, username: string, hello: Moment, input: seq<Read>,
                       bye: Moment): (r: Steps.State)
    requires Valid(w.t) && c !in w.t.clients
    ensures Valid(r.t) && c !in r.t.clients
  {
    Guarantees.RegisterResult(w, c, username, hello.ts, hello.broken);
    var w2 := Converse(Steps.Register(w, c, username, hello.ts, hello.broken), c, input);
    Guarantees.RemoveClientEffect(w2, c, bye.ts, bye.broken);
    Steps.RemoveClient(w2, c, bye.ts, bye.broken)
  }

  /**
   * Reading line by line: the loop over `a + b` is the loop over `a`
   * followed by the loop over `b`, as long as `a` holds no empty read.
   */
  lemma {:induction false} ConverseSplit(w: Steps.State, c: ConnId, a: seq<Read>, b: seq<Read>)
    requires Valid(w.t)
    requires forall k :: 0 <= k < |a| ==> a[k].line != ""
    ensures Converse(w, c, a + b) == Converse(Converse(w, c, a), c, b)
    decreases |a|
  {
    if a != [] && c in w.t.clients {
      assert (a + b)[0] == a[0];
      assert (a + b)[1..] == a[1..] + b;
      var at := a[0].at;
      Guarantees.DispatchValid(w, c, a[0].line, at.ts, at.broken);
      ConverseSplit(Steps.Dispatch(w, c, a[0].line, at.ts, at.broken), c, a[1..], b);
    } else if a == [] {
      assert a + b == b;
    }
  }

  /** Nothing after the first empty read is ever read (server.py:55-56). */
  lemma {:induction false} ConverseStopsAtEmpty(w: Steps.State, c: ConnId, a: seq<Read>, e: Read, b: seq<Read>)
    requires Valid(w.t) && e.line == ""
    ensures Converse(w, c, a + [e] + b) == Converse(w, c, a)
    decreases |a|
  {
    var all := a + [e] + b;
    if forall k :: 0 <= k < |a| ==> a[k].line != "" {
      assert all == a + ([e] + b);
      ConverseSplit(w, c, a, [e] + b);
      assert ([e] + b)[0] == e;
    } else {
      var k :| 0 <= k < |a| && a[k].line == "";
      ConverseStopsAtEmpty(w, c, a[..k], a[k], a[k + 1..] + [e] + b);
      ConverseStopsAtEmpty(w, c, a[..k], a[k], a[k + 1..]);
      assert a[..k] + [a[k]] + (a[k + 1..] + [e] + b) == all;
      assert a[..k] + [a[k]] + a[k + 1..] == a;
    }
  }
}
