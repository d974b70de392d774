/**
 * The two tables of `ChatServer` (server.py:14-15) as values, the invariants
 * that relate them, and the pure part of `broadcast` (server.py:19-34):
 * choosing the audience and deciding who is sent what.
 *
 * `clients` is the dict from connection to (username, current_channel);
 * `clientOrder` is the insertion order of its keys, which is the order in
 * which a broadcast to everyone visits them. `channels` is the dict from
 * channel name to its list of connections; `channelOrder` is the order in
 * which its keys were created, which is the order `/list` reports them in.
 */
module Registry {
  import opened Optional
  import opened Lists

  /** A connection (a socket in the server), seen only as an opaque handle. */
  type ConnId = nat

  /** One value of `self.clients`: `(username, current_channel)`. */
  datatype Session = Session(username: string, channel: Option<string>)

  /** One send that went through: the receiving connection and the text. */
  datatype Delivery = Delivery(to: ConnId, text: string)

  /** Python truthiness of an optional channel name: `None` and `""` are false. */
  predicate Truthy(ch: Option<string>)
  {
    ch.Some? && ch.value != ""
  }

  /** `self.channels.get(name, [])`. */
  function Lookup(channels: map<string, seq<ConnId>>, name: string): seq<ConnId>
  {
    if name in channels then channels[name] else []
  }

  /**
   * The two dicts of `ChatServer` as one value: `self.clients` with the
   * insertion order of its keys, and `self.channels` with the insertion
   * order of its keys.
   */
  datatype Tables = Tables(clients: map<ConnId, Session>, clientOrder: seq<ConnId>,
                           channels: map<string, seq<ConnId>>, channelOrder: seq<string>)

  /** Each key order lists its dict's keys, once each. */
  ghost predicate KeyOrders(t: Tables)
  {
    && Distinct(t.clientOrder)
    && (forall y :: y in t.clients <==> y in t.clientOrder)
    && Distinct(t.channelOrder)
    && (forall n :: n in t.channels <==> n in t.channelOrder)
  }

  /**
   * Channel names are non-empty (a name comes from a token of the `/join`
   * line), no list holds a connection twice, and a recorded channel exists.
   */
  ghost predicate ChannelLists(t: Tables)
  {
    && (forall n :: n in t.channels ==> n != "" && Distinct(t.channels[n]))
    && (forall y :: y in t.clients && t.clients[y].channel.Some? ==> t.clients[y].channel.value in t.channels)
  }

  /** Every member of a channel's list is a registered client that records that channel. */
  ghost predicate Memberships(t: Tables)
  {
    forall n, y {:trigger y in t.channels[n]} ::
      n in t.channels && y in t.channels[n] ==> y in t.clients && t.clients[y].channel == Some(n)
  }

  /**
   * The invariant that holds at every call of `broadcast`, `remove_client`
   * and `leave_channel`, including the nested ones. It allows a client to
   * record a channel whose list no longer holds it, as `leave_channel`
   * leaves things while it broadcasts.
   */
  ghost predicate WellFormed(t: Tables)
  {
    KeyOrders(t) && ChannelLists(t) && Memberships(t)
  }

  /** Client `y` records a channel and that channel's list holds it. */
  ghost predicate Attached(t: Tables, y: ConnId)
  {
    && y in t.clients
    && t.clients[y].channel.Some?
    && t.clients[y].channel.value in t.channels
    && y in t.channels[t.clients[y].channel.value]
  }

  /**
   * The two-way membership invariant between the tables: a client's channel
   * field is `None` or names a list that holds it, and every list member is
   * a registered client whose channel field names that list.
   */
  ghost predicate Valid(t: Tables)
  {
    && WellFormed(t)
    && forall y :: y in t.clients && t.clients[y].channel.Some? ==> Attached(t, y)
  }

  /**
   * Under the two-way invariant a client that records channel `n` occurs in
   * `n`'s list exactly once and in no other list.
   */
  lemma MembershipOnce(t: Tables, y: ConnId)
    requires Valid(t)
    requires y in t.clients && t.clients[y].channel.Some?
    ensures t.clients[y].channel.value in t.channels
    ensures multiset(t.channels[t.clients[y].channel.value])[y] == 1
    ensures forall m :: m in t.channels && m != t.clients[y].channel.value ==> y !in t.channels[m]
  {
    assert Attached(t, y);
    DistinctOnce(t.channels[t.clients[y].channel.value], y);
  }

  /**
   * The connections a broadcast visits (server.py:24-27): the target
   * channel's list, or none when no such channel exists, or every registered
   * client when there is no target.
   */
  function Audience(clientOrder: seq<ConnId>, channels: map<string, seq<ConnId>>,
                    target: Option<string>): seq<ConnId>
  {
    if Truthy(target) then Lookup(channels, target.value) else clientOrder
  }

  /**
   * The audience described from the clients' side: with a target channel
   * it is exactly the clients whose channel field names it, and without one
   * it is exactly the registered clients.
   */
  lemma AudienceExact(t: Tables, target: Option<string>, y: ConnId)
    requires Valid(t)
    ensures y in Audience(t.clientOrder, t.channels, target)
            <==> y in t.clients && (Truthy(target) ==> t.clients[y].channel == target)
  {
    if Truthy(target) && y in t.clients && t.clients[y].channel == target {
      assert Attached(t, y);
    }
  }

  /**
   * The sends of one fan-out (server.py:29-32): every audience member other
   * than the sender whose connection is not broken is sent `text`, in
   * audience order.
   */
  function Fanout(audience: seq<ConnId>, sender: Option<ConnId>, broken: set<ConnId>,
                  text: string): (r: seq<Delivery>)
    ensures |r| <= |audience|
    ensures forall d {:trigger d in r} :: d in r ==>
              d.text == text && d.to in audience && Some(d.to) != sender && d.to !in broken
    ensures forall y {:trigger y in audience} ::
              y in audience && Some(y) != sender && y !in broken ==> Delivery(y, text) in r
  {
    if audience == [] then []
    else
      var last := audience[|audience| - 1];
      assert audience == audience[..|audience| - 1] + [last];
      Fanout(audience[..|audience| - 1], sender, broken, text)
        + (if Some(last) != sender && last !in broken then [Delivery(last, text)] else [])
  }

  /**
   * The audience members whose send fails (server.py:33-34): every member
   * other than the sender whose connection is broken, in audience order.
   */
  function Failures(audience: seq<ConnId>, sender: Option<ConnId>, broken: set<ConnId>): (r: seq<ConnId>)
    ensures forall y {:trigger y in r} {:trigger y in audience} ::
              y in r <==> y in audience && Some(y) != sender && y in broken
  {
    if audience == [] then []
    else
      var last := audience[|audience| - 1];
      assert audience == audience[..|audience| - 1] + [last];
      Failures(audience[..|audience| - 1], sender, broken)
        + (if Some(last) != sender && last in broken then [last] else [])
  }

  /** No member but the sender is broken: no send fails. */
  lemma {:induction false} FailuresNone(audience: seq<ConnId>, sender: Option<ConnId>, broken: set<ConnId>)
    requires forall y :: y in audience && Some(y) != sender ==> y !in broken
    ensures Failures(audience, sender, broken) == []
  {
    if audience != [] {
      var last := audience[|audience| - 1];
      assert last in audience;
      assert forall y :: y in audience[..|audience| - 1] ==> y in audience;
      FailuresNone(audience[..|audience| - 1], sender, broken);
    }
  }

  /** The total length of the lists of the channels `names`. */
  function Load(names: seq<string>, channels: map<string, seq<ConnId>>): nat
  {
    if names == [] then 0 else |Lookup(channels, names[0])| + Load(names[1..], channels)
  }

  /** Replacing one channel's list changes the total by the change in its length. */
  lemma {:induction false} LoadUpdate(names: seq<string>, channels: map<string, seq<ConnId>>,
                                      a: string, l: seq<ConnId>)
    requires Distinct(names)
    ensures Load(names, channels[a := l]) + (if a in names then |Lookup(channels, a)| else 0)
            == Load(names, channels) + (if a in names then |l| else 0)
  {
    if names != [] {
      assert names == [names[0]] + names[1..];
      DistinctTail(names);
      LoadUpdate(names[1..], channels, a, l);
    }
  }

  /** The number of clients plus the total length of the channel lists. */
  ghost function Measure(t: Tables): nat
  {
    |t.clients.Keys| + Load(t.channelOrder, t.channels)
  }

  lemma {:induction false} LoadMono(names: seq<string>, ch0: map<string, seq<ConnId>>,
                                    ch1: map<string, seq<ConnId>>)
    requires forall n :: n in names ==> |Lookup(ch1, n)| <= |Lookup(ch0, n)|
    ensures Load(names, ch1) <= Load(names, ch0)
  {
    if names != [] {
      assert names[0] in names;
      LoadMono(names[1..], ch0, ch1);
    }
  }

  /**
   * Between two states of `self.clients`: every client still registered has
   * the same entry as before, and every client that is gone is in `dropped`.
   */
  ghost predicate Retains(before: map<ConnId, Session>, after: map<ConnId, Session>, dropped: set<ConnId>)
  {
    && (forall y :: y in after ==> y in before && after[y] == before[y])
    && (forall y :: y in before && y !in after ==> y in dropped)
  }

  /**
   * Between two states of `self.channels`: the same channel names, and each
   * list is the old one without the members outside `live`.
   */
  ghost predicate Filtered(before: map<string, seq<ConnId>>, after: map<string, seq<ConnId>>, live: set<ConnId>)
  {
    && after.Keys == before.Keys
    && forall n :: n in after ==> after[n] == Keep(before[n], live)
  }

  /**
   * `t1` is `t0` after deleting some clients, all of them in `dropped`, and
   * nothing else: survivors keep their entries and their relative order,
   * the deleted ones are gone from every channel list, and the channel
   * names stay.
   */
  ghost predicate Pruned(t0: Tables, t1: Tables, dropped: set<ConnId>)
  {
    && Retains(t0.clients, t1.clients, dropped)
    && Filtered(t0.channels, t1.channels, t1.clients.Keys)
    && t1.clientOrder == Keep(t0.clientOrder, t1.clients.Keys)
    && t1.channelOrder == t0.channelOrder
  }

  lemma PrunedRefl(t: Tables, dropped: set<ConnId>)
    requires WellFormed(t)
    ensures Pruned(t, t, dropped)
  {
    forall n | n in t.channels
      ensures Keep(t.channels[n], t.clients.Keys) == t.channels[n]
    {
      KeepAll(t.channels[n], t.clients.Keys);
    }
    KeepAll(t.clientOrder, t.clients.Keys);
  }

  /** Two rounds of deletions within `dropped` are one such round. */
  lemma PrunedTrans(t0: Tables, t1: Tables, t2: Tables, dropped: set<ConnId>)
    requires Pruned(t0, t1, dropped) && Pruned(t1, t2, dropped)
    ensures Pruned(t0, t2, dropped)
  {
    assert t1.clients.Keys * t2.clients.Keys == t2.clients.Keys;
    forall n | n in t2.channels
      ensures t2.channels[n] == Keep(t0.channels[n], t2.clients.Keys)
    {
      KeepKeep(t0.channels[n], t1.clients.Keys, t2.clients.Keys);
    }
    KeepKeep(t0.clientOrder, t1.clients.Keys, t2.clients.Keys);
  }

  /** Allowing one more client to be deleted. */
  lemma PrunedAllow(t0: Tables, t1: Tables, dropped: set<ConnId>, x: ConnId)
    requires Pruned(t0, t1, dropped)
    ensures Pruned(t0, t1, dropped + {x})
  {
  }

  /** A deletion of a client already allowed adds nothing. */
  lemma PrunedAbsorb(t0: Tables, t1: Tables, dropped: set<ConnId>, x: ConnId)
    requires Pruned(t0, t1, dropped + {x}) && x in dropped
    ensures Pruned(t0, t1, dropped)
  {
  }

  /** A client absent before a round of deletions is absent after it. */
  lemma PrunedGone(t0: Tables, t1: Tables, dropped: set<ConnId>, y: ConnId)
    requires Pruned(t0, t1, dropped) && y !in t0.clients
    ensures y !in t1.clients
  {
  }

  /**
   * Deleting clients keeps the invariant and the two-way invariant, and
   * does not increase the measure.
   */
  lemma PrunedWellFormed(t0: Tables, t1: Tables, dropped: set<ConnId>)
    requires WellFormed(t0) && Pruned(t0, t1, dropped)
    ensures WellFormed(t1) && Measure(t1) <= Measure(t0)
    ensures Valid(t0) ==> Valid(t1)
  {
    KeepDistinct(t0.clientOrder, t1.clients.Keys);
    forall n | n in t1.channels
      ensures Distinct(t1.channels[n])
    {
      KeepDistinct(t0.channels[n], t1.clients.Keys);
    }
    LoadMono(t0.channelOrder, t0.channels, t1.channels);
    SubsetCard(t1.clients.Keys, t0.clients.Keys);
    if Valid(t0) {
      forall y | y in t1.clients && t1.clients[y].channel.Some?
        ensures Attached(t1, y)
      {
        assert Attached(t0, y);
      }
    }
  }

  /** No channel list of `t1` holds a connection that the same list of `t0` did not. */
  ghost predicate Shrinks(t0: Tables, t1: Tables)
  {
    forall n, y {:trigger y in t1.channels[n]} ::
      n in t1.channels && y in t1.channels[n] ==> n in t0.channels && y in t0.channels[n]
  }

  lemma ShrinksTrans(t0: Tables, t1: Tables, t2: Tables)
    requires Shrinks(t0, t1) && Shrinks(t1, t2)
    ensures Shrinks(t0, t2)
  {
  }

  lemma PrunedShrinks(t0: Tables, t1: Tables, dropped: set<ConnId>)
    requires Pruned(t0, t1, dropped)
    ensures Shrinks(t0, t1)
  {
  }

  /** `del self.clients[x]`: the entry and its place in the key order go. */
  ghost function Delete(t: Tables, x: ConnId): Tables
  {
    var c := t.clients - {x};
    Tables(c, Keep(t.clientOrder, c.Keys), t.channels, t.channelOrder)
  }

  /** Deleting a client that is in no list keeps the invariant and lowers the measure. */
  lemma DeleteFacts(t: Tables, x: ConnId)
    requires WellFormed(t) && x in t.clients
    requires forall n :: n in t.channels ==> x !in t.channels[n]
    ensures WellFormed(Delete(t, x)) && Measure(Delete(t, x)) < Measure(t)
  {
    var t1 := Delete(t, x);
    assert t1.clients.Keys == t.clients.Keys - {x};
    KeepDistinct(t.clientOrder, t1.clients.Keys);
  }

  /** `self.channels[a].remove(x)`. */
  ghost function Detach(t: Tables, x: ConnId, a: string): Tables
    requires a in t.channels
  {
    t.(channels := t.channels[a := RemoveFirst(t.channels[a], x)])
  }

  /**
   * `self.clients[x] = (username, None)` at server.py:102: overwrites the
   * entry, or re-inserts it at the end of the key order when a nested
   * broadcast deleted it.
   */
  ghost function Restore(t: Tables, x: ConnId, username: string): Tables
  {
    Tables(t.clients[x := Session(username, None)],
           if x in t.clients then t.clientOrder else t.clientOrder + [x],
           t.channels, t.channelOrder)
  }

  /**
   * What `leave_channel(x)` leaves behind in `t1`, starting from `t0`: `x`
   * is registered under its old username, every other client is unchanged
   * or deleted (then it is in `dropped`), `x` and the deleted clients are in
   * no channel list, and apart from `x` the key order is the old one.
   */
  ghost predicate LeftBehind(t0: Tables, t1: Tables, x: ConnId, dropped: set<ConnId>)
  {
    && x in t0.clients
    && x in t1.clients && t1.clients[x].username == t0.clients[x].username
    && (forall y :: y in t1.clients && y != x ==> y in t0.clients && t1.clients[y] == t0.clients[y])
    && (forall y :: y in t0.clients && y !in t1.clients ==> y in dropped)
    && Filtered(t0.channels, t1.channels, t1.clients.Keys - {x})
    && Keep(t1.clientOrder, t1.clients.Keys - {x}) == Keep(t0.clientOrder, t1.clients.Keys - {x})
    && t1.channelOrder == t0.channelOrder
  }

  /** A member of a channel's list is a client that records that channel. */
  lemma ListMember(t: Tables, n: string, y: ConnId)
    requires Memberships(t) && n in t.channels && y in t.channels[n]
    ensures y in t.clients && t.clients[y].channel == Some(n)
  {
  }

  /**
   * A client that is in no channel's list, or that records no truthy
   * channel, is in no list at all.
   */
  lemma Unlisted(t: Tables, x: ConnId)
    requires WellFormed(t) && x in t.clients
    requires !Truthy(t.clients[x].channel) || t.clients[x].channel.value !in t.channels
             || x !in t.channels[t.clients[x].channel.value]
    ensures forall n :: n in t.channels ==> x !in t.channels[n]
  {
    forall n | n in t.channels && x in t.channels[n]
      ensures false
    {
      ListMember(t, n, x);
    }
  }

  /** Leaving changes nothing when `x` is in no channel list. */
  lemma LeftBehindRefl(t: Tables, x: ConnId, dropped: set<ConnId>)
    requires WellFormed(t) && x in t.clients
    requires forall n :: n in t.channels ==> x !in t.channels[n]
    ensures LeftBehind(t, t, x, dropped)
  {
    forall n | n in t.channels
      ensures t.channels[n] == Keep(t.channels[n], t.clients.Keys - {x})
    {
      forall e | e in t.channels[n]
        ensures e in t.clients.Keys - {x}
      {
        ListMember(t, n, e);
      }
      KeepAll(t.channels[n], t.clients.Keys - {x});
    }
  }

  /** Removing `x` from the list of channel `a` keeps every list a filtered copy. */
  lemma DetachFiltered(t: Tables, x: ConnId, a: string)
    requires WellFormed(t) && a in t.channels && x in t.channels[a]
    ensures Filtered(t.channels, Detach(t, x, a).channels, t.clients.Keys - {x})
  {
    var members := t.channels[a];
    forall e | e in members && e != x
      ensures e in t.clients.Keys - {x}
    {
      ListMember(t, a, e);
    }
    RemoveFirstIsKeep(members, x, t.clients.Keys - {x});
    ListMember(t, a, x);
    forall n | n in t.channels && n != a
      ensures t.channels[n] == Keep(t.channels[n], t.clients.Keys - {x})
    {
      forall e | e in t.channels[n]
        ensures e in t.clients.Keys - {x}
      {
        ListMember(t, n, e);
      }
      KeepAll(t.channels[n], t.clients.Keys - {x});
    }
  }

  /**
   * Removing `x` from the list of its channel `a` keeps the invariant,
   * takes `x` out of every list and lowers the measure.
   */
  lemma DetachFacts(t: Tables, x: ConnId, a: string)
    requires WellFormed(t) && a in t.channels && x in t.channels[a]
    ensures WellFormed(Detach(t, x, a)) && Measure(Detach(t, x, a)) < Measure(t)
    ensures Filtered(t.channels, Detach(t, x, a).channels, t.clients.Keys - {x})
    ensures forall y :: y in RemoveFirst(t.channels[a], x) ==> y in t.clients && y != x
  {
    RemoveFirstDistinct(t.channels[a], x);
    LoadUpdate(t.channelOrder, t.channels, a, RemoveFirst(t.channels[a], x));
    DetachFiltered(t, x, a);
  }

  /** Overwriting or re-inserting a client that is in no list keeps the invariant. */
  lemma RestoreFacts(t: Tables, x: ConnId, username: string)
    requires WellFormed(t)
    requires forall n :: n in t.channels ==> x !in t.channels[n]
    ensures WellFormed(Restore(t, x, username))
    ensures Measure(Restore(t, x, username)) <= Measure(t) + 1
  {
    if x !in t.clients {
      DistinctAppend(t.clientOrder, x);
    }
  }

  /**
   * The invariant across `leave_channel(x)`: after the list removal, a
   * nested broadcast that keeps the invariant and adds no list member, and
   * the write at line 102, the invariant holds, the measure has not grown,
   * `x` is registered and in no list, and no list has gained a member.
   */
  lemma RestoreAfterDetach(t0: Tables, x: ConnId, a: string, t2: Tables, username: string)
    requires WellFormed(t0) && a in t0.channels && x in t0.channels[a]
    requires WellFormed(t2) && Measure(t2) <= Measure(Detach(t0, x, a)) && Shrinks(Detach(t0, x, a), t2)
    ensures WellFormed(Restore(t2, x, username)) && Measure(Restore(t2, x, username)) <= Measure(t0)
    ensures forall n :: n in t2.channels ==> x !in t2.channels[n]
    ensures Shrinks(t0, Restore(t2, x, username))
  {
    DetachFacts(t0, x, a);
    RemoveFirstDistinct(t0.channels[a], x);
    forall n | n in t2.channels
      ensures x !in t2.channels[n]
    {
      if x in t2.channels[n] {
        ListMember(t0, a, x);
        ListMember(t0, n, x);
      }
    }
    RestoreFacts(t2, x, username);
  }

  /** After the leave the lists are the old ones without `x` and the deleted clients. */
  lemma LeaveFiltered(t0: Tables, x: ConnId, a: string, t2: Tables, dropped: set<ConnId>)
    requires WellFormed(t0) && x in t0.clients && a in t0.channels && x in t0.channels[a]
    requires Pruned(Detach(t0, x, a), t2, dropped)
    ensures Filtered(t0.channels, t2.channels, t2.clients.Keys - {x})
  {
    DetachFiltered(t0, x, a);
    var live := t2.clients.Keys - {x};
    forall n | n in t2.channels
      ensures t2.channels[n] == Keep(t0.channels[n], live)
    {
      KeepKeep(t0.channels[n], t0.clients.Keys - {x}, t2.clients.Keys);
      assert (t0.clients.Keys - {x}) * t2.clients.Keys == live;
    }
  }

  /** After the leave the key order is the old one, apart from `x`. */
  lemma LeaveOrder(t0: Tables, x: ConnId, a: string, t2: Tables, u: string, dropped: set<ConnId>)
    requires a in t0.channels
    requires Pruned(Detach(t0, x, a), t2, dropped)
    ensures Keep(Restore(t2, x, u).clientOrder, t2.clients.Keys - {x})
            == Keep(t0.clientOrder, t2.clients.Keys - {x})
  {
    var live := t2.clients.Keys - {x};
    if x !in t2.clients {
      KeepAppend(t2.clientOrder, [x], live);
      assert Keep([x], live) == [];
    }
    KeepKeep(t0.clientOrder, t2.clients.Keys, live);
    assert t2.clients.Keys * live == live;
  }

  /**
   * `leave_channel(x)` when `x` is in its channel's list, as a change of
   * state: after the list removal, the nested broadcast's deletions and the
   * write at line 102 the state is what `LeftBehind` describes.
   */
  lemma LeaveLeftBehind(t0: Tables, x: ConnId, a: string, t2: Tables, dropped: set<ConnId>)
    requires WellFormed(t0) && x in t0.clients && a in t0.channels && x in t0.channels[a]
    requires Pruned(Detach(t0, x, a), t2, dropped)
    ensures LeftBehind(t0, Restore(t2, x, t0.clients[x].username), x, dropped)
  {
    var t3 := Restore(t2, x, t0.clients[x].username);
    LeaveFiltered(t0, x, a, t2, dropped);
    LeaveOrder(t0, x, a, t2, t0.clients[x].username, dropped);
    assert t3.clients.Keys - {x} == t2.clients.Keys - {x};
  }

  /**
   * `leave_channel(x)` when `x` is in its channel's list keeps the
   * invariant, does not raise the measure, and keeps the two-way invariant.
   */
  lemma LeaveSteps(t0: Tables, x: ConnId, a: string, t2: Tables, dropped: set<ConnId>)
    requires WellFormed(t0) && x in t0.clients && a in t0.channels && x in t0.channels[a]
    requires Pruned(Detach(t0, x, a), t2, dropped)
    ensures WellFormed(Restore(t2, x, t0.clients[x].username))
    ensures Measure(Restore(t2, x, t0.clients[x].username)) <= Measure(t0)
    ensures LeftBehind(t0, Restore(t2, x, t0.clients[x].username), x, dropped)
    ensures Valid(t0) ==> Valid(Restore(t2, x, t0.clients[x].username))
  {
    var t1 := Detach(t0, x, a);
    var u := t0.clients[x].username;
    DetachFacts(t0, x, a);
    PrunedWellFormed(t1, t2, dropped);
    RestoreFacts(t2, x, u);
    LeaveLeftBehind(t0, x, a, t2, dropped);
    if Valid(t0) {
      LeftBehindValid(t0, Restore(t2, x, u), x, dropped);
    }
  }

  /** What `LeftBehind` describes keeps the two-way invariant. */
  lemma LeftBehindValid(t0: Tables, t1: Tables, x: ConnId, dropped: set<ConnId>)
    requires Valid(t0) && WellFormed(t1) && LeftBehind(t0, t1, x, dropped)
    requires t1.clients[x].channel == None
    ensures Valid(t1)
  {
    forall y | y in t1.clients && t1.clients[y].channel.Some?
      ensures Attached(t1, y)
    {
      assert Attached(t0, y);
    }
  }

  /**
   * `remove_client(x)` after the leave: deleting `x` keeps the invariant,
   * lowers the measure below the one at the start, and the two steps
   * together delete `x` and clients in `dropped` only.
   */
  lemma DeleteAfterLeave(t0: Tables, t1: Tables, x: ConnId, dropped: set<ConnId>)
    requires WellFormed(t1) && LeftBehind(t0, t1, x, dropped) && Measure(t1) <= Measure(t0)
    ensures WellFormed(Delete(t1, x)) && Measure(Delete(t1, x)) < Measure(t0)
    ensures Pruned(t0, Delete(t1, x), dropped + {x})
  {
    var t2 := Delete(t1, x);
    assert t2.clients.Keys == t1.clients.Keys - {x};
    KeepDistinct(t1.clientOrder, t2.clients.Keys);
  }

  /**
   * `join_channel(c, name)` up to its broadcast (server.py:90-93): the
   * channel is created at the end of the key order if it is new, `c` is
   * appended to its list, and `c`'s channel field names it.
   */
  ghost function Joined(t: Tables, c: ConnId, name: string): Tables
    requires c in t.clients
  {
    Tables(t.clients[c := Session(t.clients[c].username, Some(name))], t.clientOrder,
           t.channels[name := Lookup(t.channels, name) + [c]],
           if name in t.channels then t.channelOrder else t.channelOrder + [name])
  }

  lemma JoinedOrders(t: Tables, c: ConnId, name: string)
    requires WellFormed(t) && c in t.clients
    ensures KeyOrders(Joined(t, c, name))
  {
    if name !in t.channels {
      DistinctAppend(t.channelOrder, name);
    }
  }

  lemma JoinedLists(t: Tables, c: ConnId, name: string)
    requires WellFormed(t) && c in t.clients && name != ""
    requires forall n :: n in t.channels ==> c !in t.channels[n]
    ensures ChannelLists(Joined(t, c, name))
  {
    DistinctAppend(Lookup(t.channels, name), c);
  }

  lemma JoinedMembers(t: Tables, c: ConnId, name: string)
    requires WellFormed(t) && c in t.clients
    requires forall n :: n in t.channels ==> c !in t.channels[n]
    ensures Memberships(Joined(t, c, name))
  {
    var t1 := Joined(t, c, name);
    forall n, y | n in t1.channels && y in t1.channels[n]
      ensures y in t1.clients && t1.clients[y].channel == Some(n)
    {
      if y != c {
        ListMember(t, n, y);
      }
    }
  }

  /** Joining keeps both invariants and attaches `c` to the channel. */
  lemma JoinedFacts(t: Tables, c: ConnId, name: string)
    requires WellFormed(t) && c in t.clients && name != ""
    requires forall n :: n in t.channels ==> c !in t.channels[n]
    ensures WellFormed(Joined(t, c, name)) && Attached(Joined(t, c, name), c)
    ensures Valid(t) ==> Valid(Joined(t, c, name))
  {
    var t1 := Joined(t, c, name);
    JoinedOrders(t, c, name);
    JoinedLists(t, c, name);
    JoinedMembers(t, c, name);
    if Valid(t) {
      forall y | y in t1.clients && t1.clients[y].channel.Some?
        ensures Attached(t1, y)
      {
        if y != c {
          assert Attached(t, y);
        }
      }
    }
  }

  /**
   * After a join and its broadcast, a joiner that was not dropped is still
   * registered, records the channel, and is the last entry of its list;
   * the members before it are the earlier members still registered, in
   * their order.
   */
  lemma JoinedKept(t: Tables, c: ConnId, name: string, t1: Tables, dropped: set<ConnId>)
    requires c in t.clients && c !in dropped
    requires Pruned(Joined(t, c, name), t1, dropped)
    ensures c in t1.clients && t1.clients[c].channel == Some(name)
    ensures name in t1.channels
    ensures t1.channels[name] == Keep(Lookup(t.channels, name), t1.clients.Keys) + [c]
  {
    KeepAppend(Lookup(t.channels, name), [c], t1.clients.Keys);
  }

  /**
   * After a join and its broadcast's deletions, the other clients and the
   * other lists are as before, less the deleted clients.
   */
  lemma JoinedFrame(t: Tables, c: ConnId, name: string, t1: Tables, dropped: set<ConnId>)
    requires c in t.clients
    requires Pruned(Joined(t, c, name), t1, dropped)
    ensures forall y :: y in t.clients && y != c && y !in dropped ==> y in t1.clients && t1.clients[y] == t.clients[y]
    ensures forall y :: y in t.clients && y !in t1.clients ==> y in dropped
    ensures t1.channels.Keys == t.channels.Keys + {name}
    ensures forall n :: n in t.channels && n != name ==> t1.channels[n] == Keep(t.channels[n], t1.clients.Keys)
  {
    var t0 := Joined(t, c, name);
    forall y | y in t.clients && y != c && y !in dropped
      ensures y in t1.clients && t1.clients[y] == t.clients[y]
    {
      assert y in t0.clients && t0.clients[y] == t.clients[y];
    }
    forall y | y in t.clients && y !in t1.clients
      ensures y in dropped
    {
      assert y in t0.clients;
    }
  }

  /** Registration (server.py:40): a new entry with no channel, last in the key order. */
  ghost function Registered(t: Tables, c: ConnId, username: string): Tables
  {
    t.(clients := t.clients[c := Session(username, None)], clientOrder := t.clientOrder + [c])
  }

  lemma RegisteredFacts(t: Tables, c: ConnId, username: string)
    requires WellFormed(t) && c !in t.clients
    ensures WellFormed(Registered(t, c, username))
    ensures Valid(t) ==> Valid(Registered(t, c, username))
  {
    var t1 := Registered(t, c, username);
    DistinctAppend(t.clientOrder, c);
    forall n, y | n in t1.channels && y in t1.channels[n]
      ensures y in t1.clients && t1.clients[y].channel == Some(n)
    {
      ListMember(t, n, y);
    }
    if Valid(t) {
      forall y | y in t1.clients && t1.clients[y].channel.Some?
        ensures Attached(t1, y)
      {
        assert Attached(t, y);
      }
    }
  }

}
