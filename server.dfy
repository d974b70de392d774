/**
 * `ChatServer` of server.py: the registry of connected clients and channels,
 * the broadcast that fans a message out, and the command and line dispatch
 * that drives them. Sockets are opaque ids; every send that goes through is
 * appended to `outbox`; the clock is a timestamp parameter; and which
 * connections fail on send is the parameter `broken`.
 */
module Server {
  import opened Optional
  import opened Lists
  import opened Text
  import opened Commands
  import opened Registry
  import Steps
  import Guarantees
  import Connection

  /**
   * The send loop of `broadcast` (server.py:29-34) over a snapshot of the
   * audience: the sends that go through, and the members whose send fails.
   */
  method SendEach(audience: seq<ConnId>, sender: Option<ConnId>, broken: set<ConnId>, text: string)
    returns (sent: seq<Delivery>, failed: seq<ConnId>)
    ensures sent == Fanout(audience, sender, broken, text)
    ensures failed == Failures(audience, sender, broken)
  {
    sent, failed := [], [];
    for i := 0 to |audience|
      invariant sent == Fanout(audience[..i], sender, broken, text)
      invariant failed == Failures(audience[..i], sender, broken)
    {
      var r := audience[i];
      assert audience[..i + 1] == audience[..i] + [r];
      if Some(r) != sender {
        if r in broken {
          failed := failed + [r];
        } else {
          sent := sent + [Delivery(r, text)];
        }
      }
    }
    assert audience[..|audience|] == audience;
  }

  class ChatServer {
    /** `self.clients`: connection to (username, current_channel). */
    var clients: map<ConnId, Session>
    /** The insertion order of the keys of `self.clients`. */
    var clientOrder: seq<ConnId>
    /** `self.channels`: channel name to the list of its connections. */
    var channels: map<string, seq<ConnId>>
    /** The insertion order of the keys of `self.channels`. */
    var channelOrder: seq<string>
    /** Every send that went through, in order. */
    var outbox: seq<Delivery>

    /** The two dicts as one value. */
    ghost function Tab(): Tables
      reads this
    {
      Tables(clients, clientOrder, channels, channelOrder)
    }

    /** The server as a value of the specification. */
    ghost function Model(): Steps.State
      reads this
    {
      Steps.State(Tab(), outbox)
    }

    ghost predicate WellFormed()
      reads this
    {
      Registry.WellFormed(Tab())
    }

    ghost predicate Valid()
      reads this
    {
      Registry.Valid(Tab())
    }

    ghost function Measure(): nat
      reads this
    {
      Registry.Measure(Tab())
    }

    /** A server with no clients and no channels (server.py:14-15). */
    constructor ()
      ensures Valid()
      ensures Model() == Steps.State(Tables(map[], [], map[], []), [])
    {
      clients := map[];
      clientOrder := [];
      channels := map[];
      channelOrder := [];
      outbox := [];
    }

    /**
     * `broadcast` (server.py:19-34): one pass of sends over a snapshot of the
     * audience, then `remove_client` for each member whose send failed.
     */
    method Broadcast(message: string, sender: Option<ConnId>, target: Option<string>,
                     ts: string, broken: set<ConnId>)
      requires WellFormed()
      modifies this
      decreases Measure(), 3, 0
      ensures Model() == Steps.Broadcast(old(Model()), message, sender, target, ts, broken)
      ensures old(Valid()) ==> Valid()
    {
      Guarantees.BroadcastEffect(Model(), message, sender, target, ts, broken);
      var audience := Audience(clientOrder, channels, target);
      var sent, failed := SendEach(audience, sender, broken, Stamp(ts, message));
      outbox := outbox + sent;
      RemoveEach(failed, ts, broken);
    }

    /** The `remove_client` calls at the end of `broadcast` (server.py:33-34), in order. */
    method RemoveEach(failed: seq<ConnId>, ts: string, broken: set<ConnId>)
      requires WellFormed() && forall y :: y in failed ==> y in broken
      modifies this
      decreases Measure(), 2, |failed|
      ensures Model() == Steps.RemoveAll(old(Model()), failed, ts, broken)
      ensures old(Valid()) ==> Valid()
    {
      Guarantees.RemoveAllEffect(Model(), failed, ts, broken);
      assert failed[0..] == failed;
      var j := 0;
      while j < |failed|
        invariant 0 <= j <= |failed|
        invariant WellFormed() && Measure() <= old(Measure())
        invariant forall y :: y in failed[j..] ==> y in broken
        invariant Steps.RemoveAll(Model(), failed[j..], ts, broken) == Steps.RemoveAll(old(Model()), failed, ts, broken)
      {
        assert failed[j..][1..] == failed[j + 1..];
        RemoveClient(failed[j], ts, broken);
        j := j + 1;
      }
    }

    /**
     * `remove_client` (server.py:104-112): a registered client leaves its
     * channel, is deleted, and its departure is broadcast to everyone left.
     */
    method RemoveClient(x: ConnId, ts: string, broken: set<ConnId>)
      requires WellFormed()
      modifies this
      decreases Measure(), 1, 0
      ensures Model() == Steps.RemoveClient(old(Model()), x, ts, broken)
      ensures old(Valid()) ==> Valid()
    {
      Guarantees.RemoveClientEffect(Model(), x, ts, broken);
      if x in clients {
        var s := clients[x];
        if Truthy(s.channel) {
          LeaveChannel(x, ts, broken);
        }
        Steps.Vacate(old(Tab()), Tab(), x, Truthy(s.channel));
        DeleteEntry(x);
        Broadcast(Disconnected(s.username), None, None, ts, broken);
      }
    }

    /**
     * `leave_channel` (server.py:96-102): out of the list, the channel is
     * told, and only then is the channel field cleared.
     */
    method LeaveChannel(x: ConnId, ts: string, broken: set<ConnId>)
      requires WellFormed() && x in clients
      modifies this
      decreases Measure(), 0, 0
      ensures Model() == Steps.Leave(old(Model()), x, ts, broken)
      ensures old(Valid()) ==> Valid()
    {
      Guarantees.LeaveEffect(Model(), x, ts, broken);
      var s := clients[x];
      if Truthy(s.channel) && x in channels[s.channel.value] {
        var a := s.channel.value;
        DetachFacts(Tab(), x, a);
        ListRemove(a, x);
        Broadcast(LeftChannel(s.username, a), None, Some(a), ts, broken);
        ClearChannel(x, s.username);
      }
    }

    /**
     * `join_channel` (server.py:88-94): the channel is created if new, `c`
     * is appended to its list and records it, and the channel is told.
     */
    method JoinChannel(c: ConnId, name: string, ts: string, broken: set<ConnId>)
      requires WellFormed() && c in clients && name != ""
      requires forall n :: n in channels ==> c !in channels[n]
      modifies this
      ensures Model() == Steps.Join(old(Model()), c, name, ts, broken)
      ensures old(Valid()) ==> Valid()
    {
      Guarantees.JoinResult(Model(), c, name, ts, broken);
      JoinedFacts(Tab(), c, name);
      AddMember(c, name);
      Broadcast(JoinedChannel(clients[c].username, name), None, Some(name), ts, broken);
    }

    /**
     * `client_socket.send(text)` to the connection being served; a failed
     * send ends in `remove_client` (server.py:57-60).
     */
    method Reply(c: ConnId, text: string, ts: string, broken: set<ConnId>)
      requires WellFormed()
      modifies this
      ensures Model() == Steps.Reply(old(Model()), c, text, ts, broken)
      ensures old(Valid()) ==> Valid()
    {
      if Valid() {
        Guarantees.ReplyValid(Model(), c, text, ts, broken);
      }
      if c in broken {
        RemoveClient(c, ts, broken);
      } else {
        outbox := outbox + [Delivery(c, text)];
      }
    }

    /** `process_command` (server.py:62-86): the line is read as a command and carried out. */
    method ProcessCommand(c: ConnId, line: string, ts: string, broken: set<ConnId>)
      requires Valid() && Split(line) != []
      modifies this
      ensures Model() == Steps.Process(old(Model()), c, line, ts, broken)
      ensures Valid()
    {
      Guarantees.ExecuteValid(Model(), c, Parse(line), ts, broken);
      var cmd := Parse(line);
      Execute(c, cmd, ts, broken);
    }

    /** The branches of `process_command` (server.py:64, 68-86). */
    method Execute(c: ConnId, cmd: Command, ts: string, broken: set<ConnId>)
      requires Valid()
      requires cmd.Join? && cmd.channel.Some? ==> cmd.channel.value != ""
      modifies this
      ensures Model() == Steps.Execute(old(Model()), c, cmd, ts, broken)
      ensures Valid()
    {
      Guarantees.ExecuteValid(Model(), c, cmd, ts, broken);
      if c in clients {
        var s := clients[c];
        match cmd
        case Help => Reply(c, HelpText, ts, broken);
        case List => Reply(c, ListReply(channelOrder), ts, broken);
        case Join(None) => Reply(c, JoinUsage, ts, broken);
        case Join(Some(name)) =>
          if Truthy(s.channel) {
            LeaveChannel(c, ts, broken);
          } else {
            Unlisted(Tab(), c);
          }
          JoinChannel(c, name, ts, broken);
        case Leave => LeaveChannel(c, ts, broken);
        case Quit => RemoveClient(c, ts, broken);
        case Unknown => Reply(c, UnknownCommand, ts, broken);
      }
    }

    /** One non-empty read of `handle_client`'s loop (server.py:46-54). */
    method Dispatch(c: ConnId, line: string, ts: string, broken: set<ConnId>)
      requires Valid() && line != ""
      modifies this
      ensures Model() == Steps.Dispatch(old(Model()), c, line, ts, broken)
      ensures Valid()
    {
      Guarantees.DispatchValid(Model(), c, line, ts, broken);
      if c in clients {
        if line[0] == '/' {
          FirstToken(line);
          ProcessCommand(c, line, ts, broken);
        } else {
          var s := clients[c];
          if Truthy(s.channel) {
            Broadcast(ChatLine(s.username, line), Some(c), s.channel, ts, broken);
          } else {
            Broadcast(ChatLine(s.username, line), Some(c), None, ts, broken);
          }
        }
      }
    }

    /** The start of `handle_client` (server.py:39-42). */
    method Register(c: ConnId, username: string, ts: string, broken: set<ConnId>)
      requires WellFormed() && c !in clients
      modifies this
      ensures Model() == Steps.Register(old(Model()), c, username, ts, broken)
      ensures old(Valid()) ==> Valid()
    {
      if Valid() {
        Guarantees.RegisterResult(Model(), c, username, ts, broken);
      }
      RegisteredFacts(Tab(), c, username);
      AddEntry(c, username);
      Broadcast(JoinedChat(username), Some(c), None, ts, broken);
      Reply(c, Welcome, ts, broken);
    }

    /**
     * `handle_client` (server.py:36-60) for a connection that sends the name
     * `username` during `hello`, then the reads `input`, and is removed
     * during `bye`.
     */
    method HandleClient(c: ConnId, username: string, hello: Connection.Moment, input: seq<Connection.Read>,
                        bye: Connection.Moment)
      requires Valid() && c !in clients
      modifies this
      ensures Model() == Connection.Serve(old(Model()), c, username, hello, input, bye)
      ensures Valid() && c !in clients
    {
      Guarantees.RegisterResult(Model(), c, username, hello.ts, hello.broken);
      Register(c, username, hello.ts, hello.broken);
      ghost var w1 := Model();
      assert input[0..] == input;
      var i := 0;
      while i < |input| && input[i].line != "" && c in clients
        invariant 0 <= i <= |input|
        invariant Valid()
        invariant Connection.Converse(Model(), c, input[i..]) == Connection.Converse(w1, c, input)
        decreases |input| - i
      {
        assert input[i..][1..] == input[i + 1..];
        Dispatch(c, input[i].line, input[i].at.ts, input[i].at.broken);
        i := i + 1;
      }
      RemoveClient(c, bye.ts, bye.broken);
    }

    /** `self.channels[a].remove(x)` (server.py:100). */
    method ListRemove(a: string, x: ConnId)
      requires a in channels
      modifies this
      ensures Tab() == Detach(old(Tab()), x, a) && outbox == old(outbox)
    {
      channels := channels[a := RemoveFirst(channels[a], x)];
    }

    /**
     * `self.clients[x] = (username, None)` (server.py:102): an overwrite, or
     * an insertion at the end of the key order when `x` is no longer a key.
     */
    method ClearChannel(x: ConnId, username: string)
      modifies this
      ensures Tab() == Restore(old(Tab()), x, username) && outbox == old(outbox)
    {
      clients, clientOrder := clients[x := Session(username, None)],
                              if x in clients then clientOrder else clientOrder + [x];
    }

    /** `self.clients[c] = (username, None)` for a new connection (server.py:40). */
    method AddEntry(c: ConnId, username: string)
      requires c !in clients
      modifies this
      ensures Tab() == Registered(old(Tab()), c, username) && outbox == old(outbox)
    {
      clients, clientOrder := clients[c := Session(username, None)], clientOrder + [c];
    }

    /** The table writes of `join_channel` (server.py:90-93). */
    method AddMember(c: ConnId, name: string)
      requires c in clients
      modifies this
      ensures Tab() == Joined(old(Tab()), c, name) && outbox == old(outbox)
    {
      if name !in channels {
        channels, channelOrder := channels[name := []], channelOrder + [name];
      }
      channels := channels[name := channels[name] + [c]];
      clients := clients[c := Session(clients[c].username, Some(name))];
    }

    /** `del self.clients[x]` (server.py:110): the entry and its place in the key order go. */
    method DeleteEntry(x: ConnId)
      modifies this
      ensures Tab() == Delete(old(Tab()), x) && outbox == old(outbox)
    {
      clients := clients - {x};
      clientOrder := Keep(clientOrder, clients.Keys);
    }
  }

}
