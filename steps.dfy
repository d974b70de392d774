/**
 * Each operation of `ChatServer` (server.py) as a function from one state of
 * the server to the next. A state is the two tables together with every send
 * that has gone through so far. These functions are the specification the
 * methods of `Server.ChatServer` are proved against; what they guarantee is
 * proved in module `Guarantees`.
 *
 * `broadcast`, `remove_client` and `leave_channel` call one another: a send
 * that fails removes the client, the removal leaves the client's channel and
 * announces the departure, and both announcements are broadcasts. The
 * recursion ends because every re-entry is preceded by deleting a client or
 * a list entry (`Registry.Measure`).
 */
module Steps {
  import opened Optional
  import opened Lists
  import opened Text
  import opened Commands
  import opened Registry

  /** The server between two steps: its tables and the sends made so far. */
  datatype State = State(t: Tables, outbox: seq<Delivery>)

  /**
   * `broadcast(message, sender, target_channel)` (server.py:19-34): the
   * audience is read once, every member but the sender whose connection
   * works is sent the stamped message in audience order, and the members
   * whose send failed are then removed one after the other.
   */
  ghost function Broadcast(w: State, message: string, sender: Option<ConnId>, target: Option<string>,
                           ts: string, broken: set<ConnId>): (r: State)
    requires WellFormed(w.t)
    decreases Measure(w.t), 3, 0
    ensures WellFormed(r.t) && Measure(r.t) <= Measure(w.t) && Shrinks(w.t, r.t)
  {
    var audience := Audience(w.t.clientOrder, w.t.channels, target);
    RemoveAll(State(w.t, w.outbox + Fanout(audience, sender, broken, Stamp(ts, message))),
              Failures(audience, sender, broken), ts, broken)
  }

  /** The `remove_client` calls of one broadcast, in the order of `failed`. */
  ghost function RemoveAll(w: State, failed: seq<ConnId>, ts: string, broken: set<ConnId>): (r: State)
    requires WellFormed(w.t)
    requires forall y :: y in failed ==> y in broken
    decreases Measure(w.t), 2, |failed|
    ensures WellFormed(r.t) && Measure(r.t) <= Measure(w.t) && Shrinks(w.t, r.t)
  {
    if failed == [] then w
    else RemoveAll(RemoveClient(w, failed[0], ts, broken), failed[1..], ts, broken)
  }

  /**
   * `remove_client(x)` (server.py:104-112): a registered client leaves its
   * channel if it records one, is deleted, and everyone left is told. An
   * id that is not registered changes nothing.
   */
  ghost function RemoveClient(w: State, x: ConnId, ts: string, broken: set<ConnId>): (r: State)
    requires WellFormed(w.t)
    decreases Measure(w.t), 1, 0
    ensures WellFormed(r.t) && Measure(r.t) <= Measure(w.t) && Shrinks(w.t, r.t)
  {
    if x !in w.t.clients then w
    else
      var s := w.t.clients[x];
      var w1 := if Truthy(s.channel) then Leave(w, x, ts, broken) else w;
      Vacate(w.t, w1.t, x, Truthy(s.channel));
      var r := Broadcast(State(Delete(w1.t, x), w1.outbox), Disconnected(s.username), None, None, ts, broken);
      ShrinksTrans(w.t, Delete(w1.t, x), r.t);
      r
  }

  /**
   * `leave_channel(x)` (server.py:96-102). When `x` is in the list of the
   * channel it records, it is removed from that list, the remaining members
   * are told, and only then is its channel field cleared, which re-inserts
   * `x` if the announcement's failures removed it. Otherwise nothing happens.
   */
  ghost function Leave(w: State, x: ConnId, ts: string, broken: set<ConnId>): (r: State)
    requires WellFormed(w.t) && x in w.t.clients
    decreases Measure(w.t), 0, 0
    ensures WellFormed(r.t) && Measure(r.t) <= Measure(w.t) && Shrinks(w.t, r.t)
    ensures x in r.t.clients && forall n :: n in r.t.channels ==> x !in r.t.channels[n]
  {
    var s := w.t.clients[x];
    if Truthy(s.channel) && x in w.t.channels[s.channel.value] then
      var a := s.channel.value;
      DetachFacts(w.t, x, a);
      var w2 := Broadcast(State(Detach(w.t, x, a), w.outbox), LeftChannel(s.username, a), None, Some(a),
                          ts, broken);
      RestoreAfterDetach(w.t, x, a, w2.t, s.username);
      State(Restore(w2.t, x, s.username), w2.outbox)
    else
      Unlisted(w.t, x);
      w
  }

  /**
   * Both branches of server.py:108-109 leave `x` registered and in no list,
   * so the deletion at line 110 keeps the invariant and lowers the measure.
   */
  lemma Vacate(t0: Tables, t1: Tables, x: ConnId, left: bool)
    requires WellFormed(t0) && x in t0.clients
    requires !left ==> !Truthy(t0.clients[x].channel) && t1 == t0
    requires left ==> && WellFormed(t1) && Measure(t1) <= Measure(t0) && Shrinks(t0, t1)
                      && x in t1.clients && forall n :: n in t1.channels ==> x !in t1.channels[n]
    ensures WellFormed(Delete(t1, x)) && Measure(Delete(t1, x)) < Measure(t0)
    ensures Shrinks(t0, Delete(t1, x))
  {
    if !left {
      Unlisted(t0, x);
    }
    DeleteFacts(t1, x);
  }

  /**
   * `join_channel(c, name)` (server.py:88-94): the channel is created if it
   * is new, `c` is appended to its list and records it, and the whole
   * channel, `c` included, is told. `process_command` only calls it for a
   * client that is in no channel's list, having left its channel first.
   */
  ghost function Join(w: State, c: ConnId, name: string, ts: string, broken: set<ConnId>): (r: State)
    requires WellFormed(w.t) && c in w.t.clients && name != ""
    requires forall n :: n in w.t.channels ==> c !in w.t.channels[n]
    ensures WellFormed(r.t)
  {
    JoinedFacts(w.t, c, name);
    Broadcast(State(Joined(w.t, c, name), w.outbox), JoinedChannel(w.t.clients[c].username, name),
              None, Some(name), ts, broken)
  }

  /**
   * A direct `client_socket.send(text)` to the connection being served
   * (server.py:42, 69-86). On a broken connection the send raises, the
   * exception leaves `handle_client`'s loop, and its `finally` calls
   * `remove_client` (server.py:57-60).
   */
  ghost function Reply(w: State, c: ConnId, text: string, ts: string, broken: set<ConnId>): (r: State)
    requires WellFormed(w.t)
    ensures WellFormed(r.t)
  {
    if c in broken then RemoveClient(w, c, ts, broken)
    else State(w.t, w.outbox + [Delivery(c, text)])
  }

  /**
   * `process_command(c, line)` (server.py:62-86): the line is read as a
   * command (lines 65-66) and carried out.
   */
  ghost function Process(w: State, c: ConnId, line: string, ts: string, broken: set<ConnId>): (r: State)
    requires Valid(w.t) && Split(line) != []
  {
    Execute(w, c, Parse(line), ts, broken)
  }

  /**
   * The branches of `process_command` (server.py:64, 68-86) for the parsed
   * command `cmd`. An unregistered `c` makes line 64 raise, and the
   * `remove_client` that follows finds nothing to remove.
   */
  ghost function Execute(w: State, c: ConnId, cmd: Command, ts: string, broken: set<ConnId>): (r: State)
    requires Valid(w.t)
    requires cmd.Join? && cmd.channel.Some? ==> cmd.channel.value != ""
  {
    if c !in w.t.clients then w
    else
      var s := w.t.clients[c];
      match cmd
      case Help => Reply(w, c, HelpText, ts, broken)
      case List => Reply(w, c, ListReply(w.t.channelOrder), ts, broken)
      case Join(None) => Reply(w, c, JoinUsage, ts, broken)
      case Join(Some(name)) =>
        var w1 := if Truthy(s.channel) then Leave(w, c, ts, broken) else w;
        Join(w1, c, name, ts, broken)
      case Leave => Leave(w, c, ts, broken)
      case Quit => RemoveClient(w, c, ts, broken)
      case Unknown => Reply(w, c, UnknownCommand, ts, broken)
  }

  /**
   * One non-empty read of `handle_client`'s loop for connection `c`
   * (server.py:46-54): a line starting with '/' is a command; any other line
   * goes to the sender's channel, or to everyone when it has none, never
   * back to the sender. A connection that is no longer registered makes
   * line 50 or 64 raise, which ends the loop; the state is unchanged.
   */
  ghost function Dispatch(w: State, c: ConnId, line: string, ts: string, broken: set<ConnId>): (r: State)
    requires Valid(w.t) && line != ""
  {
    if c !in w.t.clients then w
    else if line[0] == '/' then
      FirstToken(line);
      Process(w, c, line, ts, broken)
    else
      var s := w.t.clients[c];
      if Truthy(s.channel) then Broadcast(w, ChatLine(s.username, line), Some(c), s.channel, ts, broken)
      else Broadcast(w, ChatLine(s.username, line), Some(c), None, ts, broken)
  }

  /**
   * The start of `handle_client` for a new connection `c` (server.py:39-42):
   * `c` is registered with no channel under the name it sent, everyone else
   * is told, and `c` is sent the welcome notice.
   */
  ghost function Register(w: State, c: ConnId, username: string, ts: string, broken: set<ConnId>): (r: State)
    requires WellFormed(w.t) && c !in w.t.clients
  {
    RegisteredFacts(w.t, c, username);
    var w1 := Broadcast(State(Registered(w.t, c, username), w.outbox), JoinedChat(username), Some(c), None,
                        ts, broken);
    Reply(w1, c, Welcome, ts, broken)
  }

}
