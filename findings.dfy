/**
 * The send loop of `broadcast` as server.py writes it (lines 24-34). The
 * loop iterates the live collection rather than a copy, and the
 * `remove_client` of a member whose send fails changes that same
 * collection. The model in `Steps.Broadcast` sends over a snapshot
 * instead (`Registry.Fanout`); the lemmas here show where the two differ
 * and that they agree when no send fails.
 */
module Findings {
  import opened Optional
  import opened Lists
  import opened Registry

  /**
   * The fan-out to a channel as written (server.py:25, 29-34). Python's list
   * iterator walks the live list `self.channels[target]` by position, and
   * the `remove_client` of a member whose send fails takes that member out
   * of the list (line 100). The member after it moves into the position
   * just visited, and the loop never reaches it. Removals made by nested
   * announcements are not followed here; the member's own removal is
   * enough to show the skip.
   */
  function LiveFanout(members: seq<ConnId>, i: nat, sender: Option<ConnId>, broken: set<ConnId>,
                      text: string): (r: seq<Delivery>)
    ensures |r| + i <= |members| || i >= |members|
    ensures forall d :: d in r ==> d.text == text && Some(d.to) != sender && d.to !in broken
    decreases |members| - i
  {
    if i >= |members| then []
    else
      var y := members[i];
      if Some(y) == sender then LiveFanout(members, i + 1, sender, broken, text)
      else if y in broken then LiveFanout(RemoveFirst(members, y), i + 1, sender, broken, text)
      else [Delivery(y, text)] + LiveFanout(members, i + 1, sender, broken, text)
  }

  /**
   * Channel `a` holds [1, 2] and 1's connection is broken: as written,
   * member 2 is never sent the message, although its connection works and
   * the snapshot fan-out sends it.
   */
  lemma ChannelFanoutSkips()
    ensures LiveFanout([1, 2], 0, None, {1}, "m") == []
    ensures Fanout([1, 2], None, {1}, "m") == [Delivery(2, "m")]
  {
    assert RemoveFirst([1, 2], 1) == [2];
    assert [1, 2][..1] == [1];
  }

  /** Taking the first member off the front of a fan-out. */
  lemma {:induction false} FanoutCons(y: ConnId, s: seq<ConnId>, sender: Option<ConnId>, broken: set<ConnId>,
                                      text: string)
    ensures Fanout([y] + s, sender, broken, text)
            == (if Some(y) != sender && y !in broken then [Delivery(y, text)] else []) + Fanout(s, sender, broken, text)
    decreases |s|
  {
    if s == [] {
      assert [y] + s == [y];
      assert [y][..0] == [];
    } else {
      var init := s[..|s| - 1];
      assert ([y] + s)[..|s|] == [y] + init;
      assert s == init + [s[|s| - 1]];
      FanoutCons(y, init, sender, broken, text);
    }
  }

  /** When no send fails, the live walk and the snapshot fan-out send the same. */
  lemma {:induction false} LiveFanoutAgrees(members: seq<ConnId>, i: nat, sender: Option<ConnId>,
                                            broken: set<ConnId>, text: string)
    requires i <= |members|
    requires forall k :: i <= k < |members| && Some(members[k]) != sender ==> members[k] !in broken
    ensures LiveFanout(members, i, sender, broken, text) == Fanout(members[i..], sender, broken, text)
    decreases |members| - i
  {
    if i < |members| {
      LiveFanoutAgrees(members, i + 1, sender, broken, text);
      assert members[i..] == [members[i]] + members[i + 1..];
      FanoutCons(members[i], members[i + 1..], sender, broken, text);
    }
  }

  /**
   * The broadcast to everyone as written (server.py:27, 29-34): the loop
   * walks a live view of the keys of `self.clients`, and the `del` at
   * line 110 in the `remove_client` of a member whose send fails changes
   * the dict's size, so the next step of the loop raises `RuntimeError`.
   * The result is the sends made before the failure and whether the loop
   * raised; nobody after the failed member is sent the message.
   */
  function ViewFanout(order: seq<ConnId>, sender: Option<ConnId>, broken: set<ConnId>,
                      text: string): (r: (seq<Delivery>, bool))
    ensures r.1 <==> exists k :: 0 <= k < |order| && Some(order[k]) != sender && order[k] in broken
    ensures forall d :: d in r.0 ==> d.text == text && d.to in order && Some(d.to) != sender && d.to !in broken
  {
    if order == [] then ([], false)
    else if Some(order[0]) == sender then
      var rest := ViewFanout(order[1..], sender, broken, text);
      assert forall k :: 1 <= k < |order| ==> order[k] == order[1..][k - 1];
      rest
    else if order[0] in broken then ([], true)
    else
      var rest := ViewFanout(order[1..], sender, broken, text);
      assert forall k :: 1 <= k < |order| ==> order[k] == order[1..][k - 1];
      ([Delivery(order[0], text)] + rest.0, rest.1)
  }

  /**
   * Clients 1 and 2 are registered in that order and 1's connection is
   * broken: as written the broadcast raises and 2 is never sent the
   * message, while the snapshot fan-out sends it.
   */
  lemma GlobalFanoutRaises()
    ensures ViewFanout([1, 2], None, {1}, "m") == ([], true)
    ensures Fanout([1, 2], None, {1}, "m") == [Delivery(2, "m")]
  {
    assert [1, 2][..1] == [1];
  }

  /** When no send fails, the live walk neither raises nor differs from the snapshot fan-out. */
  lemma {:induction false} ViewFanoutAgrees(order: seq<ConnId>, sender: Option<ConnId>, broken: set<ConnId>,
                                            text: string)
    requires forall y :: y in order && Some(y) != sender ==> y !in broken
    ensures ViewFanout(order, sender, broken, text) == (Fanout(order, sender, broken, text), false)
  {
    if order != [] {
      assert order == [order[0]] + order[1..];
      assert forall y :: y in order[1..] ==> y in order;
      ViewFanoutAgrees(order[1..], sender, broken, text);
      FanoutCons(order[0], order[1..], sender, broken, text);
      if Some(order[0]) == sender {
        assert ViewFanout(order, sender, broken, text) == ViewFanout(order[1..], sender, broken, text);
        assert Fanout(order, sender, broken, text) == [] + Fanout(order[1..], sender, broken, text);
        assert [] + Fanout(order[1..], sender, broken, text) == Fanout(order[1..], sender, broken, text);
      } else {
        assert order[0] !in broken;
      }
    }
  }
}
