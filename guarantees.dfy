/**
 * What the operations of `ChatServer` guarantee, proved about the step
 * functions of module `Steps`.
 *
 * The first four lemmas follow the mutual recursion of `broadcast`,
 * `remove_client` and `leave_channel` (server.py:19-34, 96-112) and carry
 * the facts the rest is built on: a broadcast only deletes clients whose
 * connection is broken, it never takes back a send, every failed member
 * ends up deleted, and the two-way membership invariant survives.
 */
module Guarantees {
  import opened Optional
  import opened Lists
  import opened Text
  import opened Commands
  import opened Registry
  import Steps

  /**
   * `broadcast`: the sends of the fan-out happen first and stay; afterwards
   * only broken connections have been deleted, each failed member among
   * them; and the two-way invariant is kept.
   */
  lemma {:induction false} BroadcastEffect(w: Steps.State, message: string, sender: Option<ConnId>,
                                           target: Option<string>, ts: string, broken: set<ConnId>)
    requires WellFormed(w.t)
    decreases Measure(w.t), 3, 0
    ensures var r := Steps.Broadcast(w, message, sender, target, ts, broken);
            var audience := Audience(w.t.clientOrder, w.t.channels, target);
            && Pruned(w.t, r.t, broken)
            && Extends(w.outbox + Fanout(audience, sender, broken, Stamp(ts, message)), r.outbox)
            && (forall y :: y in Failures(audience, sender, broken) ==> y !in r.t.clients)
            && (Valid(w.t) ==> Valid(r.t))
  {
    var audience := Audience(w.t.clientOrder, w.t.channels, target);
    RemoveAllEffect(Steps.State(w.t, w.outbox + Fanout(audience, sender, broken, Stamp(ts, message))),
                    Failures(audience, sender, broken), ts, broken);
  }

  /** The removals at the end of one broadcast, one failed member after the other. */
  lemma {:induction false} RemoveAllEffect(w: Steps.State, failed: seq<ConnId>, ts: string, broken: set<ConnId>)
    requires WellFormed(w.t)
    requires forall y :: y in failed ==> y in broken
    decreases Measure(w.t), 2, |failed|
    ensures var r := Steps.RemoveAll(w, failed, ts, broken);
            && Pruned(w.t, r.t, broken)
            && Extends(w.outbox, r.outbox)
            && (forall y :: y in failed ==> y !in r.t.clients)
            && (Valid(w.t) ==> Valid(r.t))
  {
    if failed == [] {
      PrunedRefl(w.t, broken);
      ExtendsRefl(w.outbox);
    } else {
      var x := failed[0];
      var w1 := Steps.RemoveClient(w, x, ts, broken);
      var r := Steps.RemoveAll(w1, failed[1..], ts, broken);
      RemoveClientEffect(w, x, ts, broken);
      PrunedAbsorb(w.t, w1.t, broken, x);
      RemoveAllEffect(w1, failed[1..], ts, broken);
      PrunedTrans(w.t, w1.t, r.t, broken);
      PrunedGone(w1.t, r.t, broken, x);
      ExtendsTrans(w.outbox, w1.outbox, r.outbox);
      PrunedWellFormed(w.t, w1.t, broken);
      assert forall y :: y in failed ==> y == x || y in failed[1..];
    }
  }

  /**
   * `remove_client(x)`: afterwards `x` is not registered, and apart from `x`
   * only broken connections have been deleted.
   */
  lemma {:induction false} RemoveClientEffect(w: Steps.State, x: ConnId, ts: string, broken: set<ConnId>)
    requires WellFormed(w.t)
    decreases Measure(w.t), 1, 0
    ensures var r := Steps.RemoveClient(w, x, ts, broken);
            && x !in r.t.clients
            && Pruned(w.t, r.t, broken + {x})
            && Extends(w.outbox, r.outbox)
            && (Valid(w.t) ==> Valid(r.t))
  {
    if x !in w.t.clients {
      PrunedRefl(w.t, broken + {x});
      ExtendsRefl(w.outbox);
    } else {
      var s := w.t.clients[x];
      var w1 := if Truthy(s.channel) then Steps.Leave(w, x, ts, broken) else w;
      if Truthy(s.channel) {
        LeaveEffect(w, x, ts, broken);
      } else {
        Unlisted(w.t, x);
        LeftBehindRefl(w.t, x, broken);
        ExtendsRefl(w.outbox);
      }
      Steps.Vacate(w.t, w1.t, x, Truthy(s.channel));
      var w2 := Steps.State(Delete(w1.t, x), w1.outbox);
      DeleteAfterLeave(w.t, w1.t, x, broken);
      PrunedWellFormed(w.t, w2.t, broken + {x});
      var r := Steps.Broadcast(w2, Disconnected(s.username), None, None, ts, broken);
      BroadcastEffect(w2, Disconnected(s.username), None, None, ts, broken);
      PrunedAllow(w2.t, r.t, broken, x);
      PrunedTrans(w.t, w2.t, r.t, broken + {x});
      PrunedGone(w2.t, r.t, broken + {x}, x);
      ExtendsPart(w2.outbox, Fanout(Audience(w2.t.clientOrder, w2.t.channels, None), None, broken,
                                    Stamp(ts, Disconnected(s.username))), r.outbox);
      ExtendsTrans(w.outbox, w1.outbox, r.outbox);
    }
  }

  /**
   * `leave_channel(x)`: `x` stays registered under its name, the other
   * clients keep their entries unless they were broken and deleted, the
   * lists are the old ones without `x` and the deleted clients, and the
   * two-way invariant is kept.
   */
  lemma {:induction false} LeaveEffect(w: Steps.State, x: ConnId, ts: string, broken: set<ConnId>)
    requires WellFormed(w.t) && x in w.t.clients
    decreases Measure(w.t), 0, 0
    ensures var r := Steps.Leave(w, x, ts, broken);
            && LeftBehind(w.t, r.t, x, broken)
            && Extends(w.outbox, r.outbox)
            && (Valid(w.t) ==> Valid(r.t))
  {
    var s := w.t.clients[x];
    if Truthy(s.channel) && x in w.t.channels[s.channel.value] {
      var a := s.channel.value;
      DetachFacts(w.t, x, a);
      var w1 := Steps.State(Detach(w.t, x, a), w.outbox);
      var w2 := Steps.Broadcast(w1, LeftChannel(s.username, a), None, Some(a), ts, broken);
      BroadcastEffect(w1, LeftChannel(s.username, a), None, Some(a), ts, broken);
      LeaveSteps(w.t, x, a, w2.t, broken);
      ExtendsPart(w.outbox, Fanout(Audience(w1.t.clientOrder, w1.t.channels, Some(a)), None, broken,
                                   Stamp(ts, LeftChannel(s.username, a))), w2.outbox);
    } else {
      Unlisted(w.t, x);
      LeftBehindRefl(w.t, x, broken);
      ExtendsRefl(w.outbox);
    }
  }

  /**
   * Who is sent a broadcast (server.py:24-32), described from the clients'
   * side: every registered client in the target channel, or every
   * registered client when there is no target, except the sender and the
   * broken connections, is sent the stamped message; and the fan-out sends
   * that message to no one else.
   */
  lemma BroadcastReaches(w: Steps.State, message: string, sender: Option<ConnId>,
                         target: Option<string>, ts: string, broken: set<ConnId>)
    requires Valid(w.t)
    ensures var r := Steps.Broadcast(w, message, sender, target, ts, broken);
            exists sends ::
              && Extends(w.outbox + sends, r.outbox)
              && (forall y :: Delivery(y, Stamp(ts, message)) in sends <==>
                                y in w.t.clients && (Truthy(target) ==> w.t.clients[y].channel == target)
                                && Some(y) != sender && y !in broken)
              && (forall d :: d in sends ==> d.text == Stamp(ts, message))
  {
    var audience := Audience(w.t.clientOrder, w.t.channels, target);
    var sends := Fanout(audience, sender, broken, Stamp(ts, message));
    BroadcastEffect(w, message, sender, target, ts, broken);
    forall y
      ensures Delivery(y, Stamp(ts, message)) in sends <==>
                y in w.t.clients && (Truthy(target) ==> w.t.clients[y].channel == target)
                && Some(y) != sender && y !in broken
    {
      AudienceExact(w.t, target, y);
    }
  }

  /**
   * A broadcast in which no send fails sends the fan-out and changes
   * neither table.
   */
  lemma BroadcastQuiet(w: Steps.State, message: string, sender: Option<ConnId>,
                       target: Option<string>, ts: string, broken: set<ConnId>)
    requires WellFormed(w.t)
    requires forall y :: y in Audience(w.t.clientOrder, w.t.channels, target) && Some(y) != sender ==> y !in broken
    ensures Steps.Broadcast(w, message, sender, target, ts, broken)
            == Steps.State(w.t, w.outbox + Fanout(Audience(w.t.clientOrder, w.t.channels, target), sender, broken,
                                                  Stamp(ts, message)))
  {
    FailuresNone(Audience(w.t.clientOrder, w.t.channels, target), sender, broken);
  }

  /**
   * Every member whose send fails is removed, and the clients removed are
   * all broken connections: an unbroken client keeps its entry.
   */
  lemma BroadcastRemovesFailures(w: Steps.State, message: string, sender: Option<ConnId>,
                                 target: Option<string>, ts: string, broken: set<ConnId>)
    requires WellFormed(w.t)
    ensures var r := Steps.Broadcast(w, message, sender, target, ts, broken);
            && (forall y :: y in Audience(w.t.clientOrder, w.t.channels, target) && Some(y) != sender && y in broken
                  ==> y !in r.t.clients)
            && (forall y :: y in w.t.clients && y !in broken ==> y in r.t.clients && r.t.clients[y] == w.t.clients[y])
            && r.t.channels.Keys == w.t.channels.Keys
  {
    BroadcastEffect(w, message, sender, target, ts, broken);
  }

  /**
   * After `remove_client(x)` no table mentions `x`, the channels are still
   * there, and every other client keeps its entry unless its connection
   * was broken.
   */
  lemma RemoveClientGone(w: Steps.State, x: ConnId, ts: string, broken: set<ConnId>)
    requires WellFormed(w.t)
    ensures var r := Steps.RemoveClient(w, x, ts, broken);
            && x !in r.t.clients && x !in r.t.clientOrder
            && (forall n :: n in r.t.channels ==> x !in r.t.channels[n])
            && r.t.channels.Keys == w.t.channels.Keys
            && (forall y :: y in w.t.clients && y != x && y !in broken ==> y in r.t.clients && r.t.clients[y] == w.t.clients[y])
  {
    RemoveClientEffect(w, x, ts, broken);
  }

  /**
   * `remove_client` of an id that is not registered changes nothing, so
   * removing twice is removing once.
   */
  lemma RemoveClientIdempotent(w: Steps.State, x: ConnId, ts: string, broken: set<ConnId>)
    requires WellFormed(w.t)
    ensures x !in w.t.clients ==> Steps.RemoveClient(w, x, ts, broken) == w
    ensures var r := Steps.RemoveClient(w, x, ts, broken);
            Steps.RemoveClient(r, x, ts, broken) == r
  {
    RemoveClientEffect(w, x, ts, broken);
  }

  /**
   * Every other registered client whose connection works is told that `x`
   * has disconnected (server.py:112).
   */
  lemma RemoveClientNotifies(w: Steps.State, x: ConnId, ts: string, broken: set<ConnId>, y: ConnId)
    requires WellFormed(w.t) && x in w.t.clients
    requires y in w.t.clients && y != x && y !in broken
    ensures Delivery(y, Stamp(ts, Disconnected(w.t.clients[x].username)))
            in Steps.RemoveClient(w, x, ts, broken).outbox
  {
    var s := w.t.clients[x];
    var w1 := if Truthy(s.channel) then Steps.Leave(w, x, ts, broken) else w;
    var w2 := Steps.State(Delete(w1.t, x), w1.outbox);
    Departure(w, x, ts, broken, y);
    BroadcastEffect(w2, Disconnected(s.username), None, None, ts, broken);
    ExtendsMember(w2.outbox + Fanout(w2.t.clientOrder, None, broken, Stamp(ts, Disconnected(s.username))),
                  Steps.RemoveClient(w, x, ts, broken).outbox, Delivery(y, Stamp(ts, Disconnected(s.username))));
  }

  /** Leaving the channel and deleting `x` keeps every other unbroken client in the key order. */
  lemma Departure(w: Steps.State, x: ConnId, ts: string, broken: set<ConnId>, y: ConnId)
    requires WellFormed(w.t) && x in w.t.clients
    requires y in w.t.clients && y != x && y !in broken
    ensures var s := w.t.clients[x];
            var w1 := if Truthy(s.channel) then Steps.Leave(w, x, ts, broken) else w;
            WellFormed(Delete(w1.t, x)) && y in Delete(w1.t, x).clientOrder
  {
    var s := w.t.clients[x];
    var w1 := if Truthy(s.channel) then Steps.Leave(w, x, ts, broken) else w;
    if Truthy(s.channel) {
      LeaveEffect(w, x, ts, broken);
    }
    Steps.Vacate(w.t, w1.t, x, Truthy(s.channel));
  }

  /** Under the two-way invariant a recorded channel is a non-empty name whose list holds the client. */
  lemma Recorded(t: Tables, x: ConnId)
    requires Valid(t) && x in t.clients && t.clients[x].channel.Some?
    ensures Truthy(t.clients[x].channel) && Attached(t, x)
  {
    assert Attached(t, x);
  }

  /**
   * `leave_channel(x)` (server.py:96-102) under the two-way invariant: `x`
   * ends up with no channel and in no list, the channels themselves stay
   * even when emptied, every other client keeps its entry unless its
   * connection was broken, and a client with no channel changes nothing.
   */
  lemma LeaveResult(w: Steps.State, x: ConnId, ts: string, broken: set<ConnId>)
    requires Valid(w.t) && x in w.t.clients
    ensures var r := Steps.Leave(w, x, ts, broken);
            && x in r.t.clients && r.t.clients[x] == Session(w.t.clients[x].username, None)
            && (forall n :: n in r.t.channels ==> x !in r.t.channels[n])
            && r.t.channels.Keys == w.t.channels.Keys
            && (forall y :: y in w.t.clients && y != x && y !in broken
                  ==> y in r.t.clients && r.t.clients[y] == w.t.clients[y])
            && Valid(r.t)
            && (w.t.clients[x].channel == None ==> r == w)
  {
    LeaveEffect(w, x, ts, broken);
    if w.t.clients[x].channel.Some? {
      Recorded(w.t, x);
    }
  }

  /**
   * The members left in `x`'s channel whose connection works are told that
   * `x` left it (server.py:101).
   */
  lemma LeaveNotifies(w: Steps.State, x: ConnId, ts: string, broken: set<ConnId>, y: ConnId)
    requires Valid(w.t) && x in w.t.clients && w.t.clients[x].channel.Some?
    requires y in w.t.clients && y != x && y !in broken && w.t.clients[y].channel == w.t.clients[x].channel
    ensures var s := w.t.clients[x];
            Delivery(y, Stamp(ts, LeftChannel(s.username, s.channel.value))) in Steps.Leave(w, x, ts, broken).outbox
  {
    var s := w.t.clients[x];
    var a := s.channel.value;
    Recorded(w.t, x);
    Recorded(w.t, y);
    DetachFacts(w.t, x, a);
    var w1 := Steps.State(Detach(w.t, x, a), w.outbox);
    assert y in w1.t.channels[a];
    var text := Stamp(ts, LeftChannel(s.username, a));
    BroadcastEffect(w1, LeftChannel(s.username, a), None, Some(a), ts, broken);
    ExtendsMember(w1.outbox + Fanout(Audience(w1.t.clientOrder, w1.t.channels, Some(a)), None, broken, text),
                  Steps.Broadcast(w1, LeftChannel(s.username, a), None, Some(a), ts, broken).outbox,
                  Delivery(y, text));
  }

  /**
   * `join_channel(c, name)` (server.py:88-94): a new channel is created at
   * the end of the creation order; unless its own connection is broken,
   * `c` records the channel, is last in its list after the old members
   * still registered, and is told it joined, as is every old member whose
   * connection works; every other client keeps its entry and every other
   * list its members, unless broken and deleted; and the two-way invariant
   * is kept.
   */
  lemma JoinResult(w: Steps.State, c: ConnId, name: string, ts: string, broken: set<ConnId>)
    requires WellFormed(w.t) && c in w.t.clients && name != ""
    requires forall n :: n in w.t.channels ==> c !in w.t.channels[n]
    ensures var r := Steps.Join(w, c, name, ts, broken);
            var text := Stamp(ts, JoinedChannel(w.t.clients[c].username, name));
            && (Valid(w.t) ==> Valid(r.t))
            && r.t.channelOrder == (if name in w.t.channels then w.t.channelOrder else w.t.channelOrder + [name])
            && (forall y :: y in Lookup(w.t.channels, name) && y !in broken ==> Delivery(y, text) in r.outbox)
            && (c !in broken ==>
                  && c in r.t.clients && r.t.clients[c] == Session(w.t.clients[c].username, Some(name))
                  && name in r.t.channels
                  && r.t.channels[name] == Keep(Lookup(w.t.channels, name), r.t.clients.Keys) + [c]
                  && Delivery(c, text) in r.outbox)
            && (forall y :: y in w.t.clients && y != c && y !in broken
                  ==> y in r.t.clients && r.t.clients[y] == w.t.clients[y])
            && (forall n :: n in w.t.channels && n != name ==> r.t.channels[n] == Keep(w.t.channels[n], r.t.clients.Keys))
  {
    JoinFrame(w, c, name, ts, broken);
    var u := w.t.clients[c].username;
    var text := Stamp(ts, JoinedChannel(u, name));
    JoinedFacts(w.t, c, name);
    var w1 := Steps.State(Joined(w.t, c, name), w.outbox);
    var r := Steps.Join(w, c, name, ts, broken);
    var sends := Fanout(Audience(w1.t.clientOrder, w1.t.channels, Some(name)), None, broken, text);
    BroadcastEffect(w1, JoinedChannel(u, name), None, Some(name), ts, broken);
    assert Audience(w1.t.clientOrder, w1.t.channels, Some(name)) == Lookup(w.t.channels, name) + [c];
    forall y | y in Lookup(w.t.channels, name) + [c] && y !in broken
      ensures Delivery(y, text) in r.outbox
    {
      ExtendsMember(w1.outbox + sends, r.outbox, Delivery(y, text));
    }
    if c !in broken {
      JoinedKept(w.t, c, name, r.t, broken);
    }
  }

  /**
   * What `join_channel(c, name)` leaves alone (server.py:88-94): every other
   * client keeps its entry unless its connection was broken, only broken
   * clients are deleted, the only new channel is `name`, and every other
   * list loses only the deleted clients.
   */
  lemma JoinFrame(w: Steps.State, c: ConnId, name: string, ts: string, broken: set<ConnId>)
    requires WellFormed(w.t) && c in w.t.clients && name != ""
    requires forall n :: n in w.t.channels ==> c !in w.t.channels[n]
    ensures var r := Steps.Join(w, c, name, ts, broken);
            && (forall y :: y in w.t.clients && y != c && y !in broken
                  ==> y in r.t.clients && r.t.clients[y] == w.t.clients[y])
            && (forall y :: y in w.t.clients && y !in r.t.clients ==> y in broken)
            && r.t.channels.Keys == w.t.channels.Keys + {name}
            && (forall n :: n in w.t.channels && n != name ==> r.t.channels[n] == Keep(w.t.channels[n], r.t.clients.Keys))
  {
    var w1 := Steps.State(Joined(w.t, c, name), w.outbox);
    JoinStep(w, c, name, ts, broken);
    BroadcastEffect(w1, JoinedChannel(w.t.clients[c].username, name), None, Some(name), ts, broken);
    JoinedFrame(w.t, c, name, Steps.Join(w, c, name, ts, broken).t, broken);
  }

  /** `join_channel`, unfolded: the table writes, then the broadcast to the channel. */
  lemma JoinStep(w: Steps.State, c: ConnId, name: string, ts: string, broken: set<ConnId>)
    requires WellFormed(w.t) && c in w.t.clients && name != ""
    requires forall n :: n in w.t.channels ==> c !in w.t.channels[n]
    ensures WellFormed(Joined(w.t, c, name))
    ensures Steps.Join(w, c, name, ts, broken)
            == Steps.Broadcast(Steps.State(Joined(w.t, c, name), w.outbox), JoinedChannel(w.t.clients[c].username, name),
                               None, Some(name), ts, broken)
  {
    JoinedFacts(w.t, c, name);
  }

  /** A direct reply keeps the two-way invariant, also when the send fails. */
  lemma ReplyValid(w: Steps.State, c: ConnId, text: string, ts: string, broken: set<ConnId>)
    requires Valid(w.t)
    ensures Valid(Steps.Reply(w, c, text, ts, broken).t)
  {
    if c in broken {
      RemoveClientEffect(w, c, ts, broken);
    }
  }

  /** Every command keeps the two-way invariant. */
  lemma ExecuteValid(w: Steps.State, c: ConnId, cmd: Command, ts: string, broken: set<ConnId>)
    requires Valid(w.t)
    requires cmd.Join? && cmd.channel.Some? ==> cmd.channel.value != ""
    ensures Valid(Steps.Execute(w, c, cmd, ts, broken).t)
  {
    if c in w.t.clients {
      var s := w.t.clients[c];
      match cmd
      case Help => ReplyValid(w, c, HelpText, ts, broken);
      case List => ReplyValid(w, c, ListReply(w.t.channelOrder), ts, broken);
      case Join(None) => ReplyValid(w, c, JoinUsage, ts, broken);
      case Join(Some(name)) =>
        var w1 := if Truthy(s.channel) then Steps.Leave(w, c, ts, broken) else w;
        if Truthy(s.channel) {
          LeaveEffect(w, c, ts, broken);
        } else {
          Unlisted(w.t, c);
        }
        JoinResult(w1, c, name, ts, broken);
      case Leave => LeaveEffect(w, c, ts, broken);
      case Quit => RemoveClientEffect(w, c, ts, broken);
      case Unknown => ReplyValid(w, c, UnknownCommand, ts, broken);
    }
  }

  /**
   * `/help`, `/list`, `/join` without a name and an unknown command word
   * change neither table and send exactly one reply to the client
   * (server.py:68-75, 85-86); `/list` names the channels in creation order.
   * When the client's connection is broken the reply fails instead and the
   * client is removed.
   */
  lemma ExecuteReplies(w: Steps.State, c: ConnId, cmd: Command, ts: string, broken: set<ConnId>)
    requires Valid(w.t) && c in w.t.clients
    requires cmd.Help? || cmd.List? || cmd == Join(None) || cmd.Unknown?
    ensures var text := match cmd
              case Help => HelpText
              case List => ListReply(w.t.channelOrder)
              case Join(_) => JoinUsage
              case _ => UnknownCommand;
            var r := Steps.Execute(w, c, cmd, ts, broken);
            && (c !in broken ==> r == Steps.State(w.t, w.outbox + [Delivery(c, text)]))
            && (c in broken ==> c !in r.t.clients)
  {
    if c in broken {
      RemoveClientEffect(w, c, ts, broken);
    }
  }

  /** `c` is registered as `username`, records channel `name`, is in its list and in no other. */
  ghost predicate MemberOf(t: Tables, c: ConnId, username: string, name: string)
  {
    && c in t.clients && t.clients[c] == Session(username, Some(name))
    && name in t.channels && c in t.channels[name]
    && forall n :: n in t.channels && n != name ==> c !in t.channels[n]
  }

  /**
   * `/join <name>` (server.py:73-80): after leaving its old channel, `c`
   * records the new one, is in its list, and is in no other list.
   */
  lemma ExecuteJoin(w: Steps.State, c: ConnId, name: string, ts: string, broken: set<ConnId>)
    requires Valid(w.t) && c in w.t.clients && c !in broken && name != ""
    ensures MemberOf(Steps.Execute(w, c, Join(Some(name)), ts, broken).t, c, w.t.clients[c].username, name)
  {
    Rejoin(w, c, name, ts, broken);
    JoinBranch(w, c, name, ts, broken);
  }

  /** The `/join <name>` branch of `process_command`, unfolded. */
  lemma JoinBranch(w: Steps.State, c: ConnId, name: string, ts: string, broken: set<ConnId>)
    requires Valid(w.t) && c in w.t.clients && name != ""
    ensures var s := w.t.clients[c];
            var w1 := if Truthy(s.channel) then Steps.Leave(w, c, ts, broken) else w;
            Steps.Execute(w, c, Join(Some(name)), ts, broken) == Steps.Join(w1, c, name, ts, broken)
  {
  }

  /** Leaving the current channel, if any, and then joining `name`. */
  lemma Rejoin(w: Steps.State, c: ConnId, name: string, ts: string, broken: set<ConnId>)
    requires Valid(w.t) && c in w.t.clients && c !in broken && name != ""
    ensures var s := w.t.clients[c];
            var w1 := if Truthy(s.channel) then Steps.Leave(w, c, ts, broken) else w;
            && WellFormed(w1.t) && c in w1.t.clients
            && (forall n :: n in w1.t.channels ==> c !in w1.t.channels[n])
            && MemberOf(Steps.Join(w1, c, name, ts, broken).t, c, s.username, name)
  {
    var s := w.t.clients[c];
    var w1 := if Truthy(s.channel) then Steps.Leave(w, c, ts, broken) else w;
    if Truthy(s.channel) {
      LeaveEffect(w, c, ts, broken);
    } else {
      Unlisted(w.t, c);
    }
    JoinResult(w1, c, name, ts, broken);
    var r := Steps.Join(w1, c, name, ts, broken);
    forall n | n in r.t.channels && n != name
      ensures c !in r.t.channels[n]
    {
      if c in r.t.channels[n] {
        ListMember(r.t, n, c);
      }
    }
  }

  /** Every non-empty read keeps the two-way invariant. */
  lemma DispatchValid(w: Steps.State, c: ConnId, line: string, ts: string, broken: set<ConnId>)
    requires Valid(w.t) && line != ""
    ensures Valid(Steps.Dispatch(w, c, line, ts, broken).t)
  {
    if c in w.t.clients {
      var s := w.t.clients[c];
      if line[0] == '/' {
        FirstToken(line);
        ExecuteValid(w, c, Parse(line), ts, broken);
      } else if Truthy(s.channel) {
        BroadcastEffect(w, ChatLine(s.username, line), Some(c), s.channel, ts, broken);
      } else {
        BroadcastEffect(w, ChatLine(s.username, line), Some(c), None, ts, broken);
      }
    }
  }

  /**
   * A chat line (server.py:49-54) reaches exactly the registered clients in
   * the sender's channel, or every registered client when the sender has no
   * channel, except the sender and the broken connections; the fan-out
   * sends the line to no one else.
   */
  lemma ChatRouting(w: Steps.State, c: ConnId, line: string, ts: string, broken: set<ConnId>)
    requires Valid(w.t) && c in w.t.clients && line != "" && line[0] != '/'
    ensures var s := w.t.clients[c];
            var text := Stamp(ts, ChatLine(s.username, line));
            exists sends ::
              && Extends(w.outbox + sends, Steps.Dispatch(w, c, line, ts, broken).outbox)
              && (forall y :: Delivery(y, text) in sends <==>
                                y in w.t.clients && y != c && y !in broken
                                && (s.channel.Some? ==> w.t.clients[y].channel == s.channel))
              && (forall d :: d in sends ==> d.text == text)
  {
    var s := w.t.clients[c];
    var target := if Truthy(s.channel) then s.channel else None;
    ChatBranch(w, c, line, ts, broken);
    if s.channel.Some? {
      Recorded(w.t, c);
    }
    BroadcastReaches(w, ChatLine(s.username, line), Some(c), target, ts, broken);
  }

  /** The chat-line branch of `handle_client`, unfolded. */
  lemma ChatBranch(w: Steps.State, c: ConnId, line: string, ts: string, broken: set<ConnId>)
    requires Valid(w.t) && c in w.t.clients && line != "" && line[0] != '/'
    ensures var s := w.t.clients[c];
            Steps.Dispatch(w, c, line, ts, broken)
            == Steps.Broadcast(w, ChatLine(s.username, line), Some(c), if Truthy(s.channel) then s.channel else None,
                               ts, broken)
  {
  }

  /**
   * Registration (server.py:39-42) keeps the two-way invariant; every
   * other registered client whose connection works is told; and unless its
   * own connection is broken the new client is registered under the name
   * it sent, with no channel and in no list, and the welcome notice is the
   * last thing sent. A broken new connection is removed again.
   */
  lemma RegisterResult(w: Steps.State, c: ConnId, username: string, ts: string, broken: set<ConnId>)
    requires Valid(w.t) && c !in w.t.clients
    ensures var r := Steps.Register(w, c, username, ts, broken);
            && Valid(r.t)
            && (forall y :: y in w.t.clients && y !in broken ==> Delivery(y, Stamp(ts, JoinedChat(username))) in r.outbox)
            && (c !in broken ==>
                  && c in r.t.clients && r.t.clients[c] == Session(username, None)
                  && (forall n :: n in r.t.channels ==> c !in r.t.channels[n])
                  && r.outbox != [] && r.outbox[|r.outbox| - 1] == Delivery(c, Welcome))
            && (c in broken ==> c !in r.t.clients)
  {
    RegisteredFacts(w.t, c, username);
    var w1 := Steps.State(Registered(w.t, c, username), w.outbox);
    var w2 := Steps.Broadcast(w1, JoinedChat(username), Some(c), None, ts, broken);
    var r := Steps.Register(w, c, username, ts, broken);
    BroadcastEffect(w1, JoinedChat(username), Some(c), None, ts, broken);
    var text := Stamp(ts, JoinedChat(username));
    var sends := Fanout(w1.t.clientOrder, Some(c), broken, text);
    forall y | y in w.t.clients && y !in broken
      ensures Delivery(y, text) in r.outbox
    {
      assert y in w1.t.clientOrder;
      ExtendsMember(w1.outbox + sends, w2.outbox, Delivery(y, text));
      if c in broken {
        RemoveClientEffect(w2, c, ts, broken);
        ExtendsMember(w2.outbox, r.outbox, Delivery(y, text));
      }
    }
    if c in broken {
      RemoveClientEffect(w2, c, ts, broken);
    } else {
      forall n | n in w2.t.channels
        ensures c !in w2.t.channels[n]
      {
        if c in w2.t.channels[n] {
          ListMember(w2.t, n, c);
        }
      }
    }
  }
}
