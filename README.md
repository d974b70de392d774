# Chat server registry and broadcast, in Dafny

`ChatServer` (server.py) is a threaded TCP chat server. Each connection
sends a username first and then lines of text. The server keeps two tables:

- `clients` maps a connection to `(username, current_channel)`.
- `channels` maps a channel name to the list of its connections.

A line starting with `/` is a command: `/help`, `/list`, `/join <name>`,
`/leave` or `/quit`. Any other line is chat. It goes to the sender's channel,
or to everyone when the sender has no channel, and never back to the sender.
A broadcast stamps the message with the time. A member whose send fails is
removed. A removal leaves the member's channel and announces the departure,
so `broadcast`, `remove_client` and `leave_channel` call one another.

The project models this core in layers:

- `Lists`, `Text`, `Commands` define Python's `list.remove`, `str.split()`,
  `str.lower()` on command words, and the fixed texts.
- `Commands.Parse` reads a command line.
- `Registry` holds the two tables as one value, `Tables`. It adds the
  insertion order of each dict's keys, because a broadcast to everyone and
  `/list` follow that order.
- `Registry` also defines two invariants:
  - `WellFormed`: the key orders match the dicts, no list holds a connection
    twice, and every list member records that channel.
  - `Valid`: `WellFormed` plus the other direction, so a client that records
    a channel is in that channel's list.
- `Steps` has one ghost function per server operation. Each maps a state
  (the tables plus every send that went through) to the next state.
- `Guarantees` proves what those operations promise.
- `Connection` models a whole `handle_client` run over a sequence of reads.
- `Server.ChatServer` is the server as a class. Its fields are the dicts,
  the key orders and the outbox. Each method is proved to change the state
  exactly as its `Steps` function says.
- `Findings` models the send loop as written, where it differs from the
  snapshot that the rest of the model uses.

Connections are opaque ids (`ConnId`). Three things become parameters:

- the clock is the timestamp `ts`;
- the set `broken` says which connections fail on send;
- the reads of a connection are a sequence of `Connection.Read` values.

In `Connection`, every read carries its own `Connection.Moment`: a clock
reading and a set of failing connections. Registration and the final removal
each have a moment of their own too. So a connection can work for some reads
and then break, and every read has its own timestamp.

## Model

| member | source | states |
|---|---|---|
| `Lists.RemoveFirst` | server.py:100 | `list.remove(x)` for an `x` that is present: one element fewer and no new elements. Python raises `ValueError` when `x` is absent; line 99 tests membership first, so line 100 never sees that case. The model's total extension (list unchanged) is never reached |
| `Lists.RemoveFirstMultiset` | server.py:100 | `list.remove(x)` takes away exactly one occurrence of `x` and nothing else |
| `Lists.RemoveFirstIsKeep` | server.py:99-100 | on a list without duplicates, removing `x` keeps every other member in order |
| `Text.Split` | server.py:65 | every piece of `str.split()` is non-empty and contains no whitespace |
| `Text.SplitJoin` | server.py:65 | splitting words joined by single spaces gives back exactly those words |
| `Text.Lower` | server.py:66 | lower-cases each ASCII letter and keeps every other character, so the length is kept |
| `Text.FirstToken` | server.py:47-48 | a line starting with `/` has a first token, and it starts with `/`, so `tokens[0]` at line 66 exists |
| `Commands.Parse` | server.py:65-77 | the first word, lower-cased, picks the command; a `/join` channel name is a whole token |
| `Commands.ParseJoin` | server.py:73-77 | `/join` in any letter case with a name and extra words joins that name and ignores the rest |
| `Commands.ParseJoinAlone` | server.py:74-75 | any line whose only word is `/join`, in any letter case and with any surrounding whitespace, gets the usage notice |
| `Commands.ParseUnknown` | server.py:85-86 | any other first word is an unknown command, whatever follows |
| `Commands.Stamp` | server.py:21-22 | defines the delivered text: `[`, the timestamp, `] `, then the message; `Commands.StampInjective` proves a text can be decoded |
| `Commands.ListReply` | server.py:71 | defines the `/list` reply: `Available channels: ` and then the channel names in creation order, joined by `, ` |
| `Commands.StampInjective` | server.py:21-22 | with a fixed-width timestamp, a delivered text determines both the timestamp and the message |
| `Registry.Valid` | server.py:14-15 | defines the two-way invariant between `clients` and `channels`. It holds for the empty server (`Server.ChatServer.constructor`) and after every command, read and connection (`Guarantees.ExecuteValid`, `Guarantees.DispatchValid`, `Connection.Serve`) |
| `Registry.MembershipOnce` | server.py:14-15 | under the two-way invariant, a client with a channel is in that list exactly once and in no other list |
| `Registry.Audience` | server.py:24-27 | defines the audience. With a truthy target it is that channel's list, or empty when the channel does not exist, as `.get(name, [])` gives. Otherwise it is every client in insertion order. `Registry.AudienceExact` states this from the clients' side |
| `Registry.AudienceExact` | server.py:24-27 | the audience is exactly the clients recording the target channel, or every client when there is no target |
| `Registry.Fanout` | server.py:29-32 | sends reach exactly the audience members other than the sender with working connections, and carry the one text |
| `Registry.Failures` | server.py:33-34 | a member's send fails exactly when it is in the audience, is not the sender, and its connection is broken |
| `Registry.FailuresNone` | server.py:29-34 | with no broken member besides the sender, no send fails |
| `Registry.PrunedWellFormed` | server.py:104-112 | deleting clients keeps both invariants and does not raise the recursion measure |
| `Registry.DeleteFacts` | server.py:110 | deleting a client that is in no list keeps the invariant and lowers the measure |
| `Registry.DetachFacts` | server.py:100 | removing `x` from its channel's list keeps the invariant and takes `x` out of every list |
| `Registry.RestoreAfterDetach` | server.py:100-102 | after the removal, the nested broadcast and the write at line 102, the invariant holds and no list has gained a member |
| `Registry.LeaveSteps` | server.py:96-102 | a leave by a listed client keeps both invariants and ends in the state `LeftBehind` describes |
| `Registry.DeleteAfterLeave` | server.py:108-110 | leave then delete removes `x` and otherwise only dropped clients, and lowers the measure |
| `Registry.JoinedFacts` | server.py:90-93 | the table writes of a join keep both invariants and attach the joiner to the channel |
| `Registry.JoinedKept` | server.py:92 | after the join's broadcast, an unbroken joiner is last in the list, after the earlier members still registered |
| `Registry.RegisteredFacts` | server.py:40 | registering a new connection keeps both invariants |
| `Steps.Broadcast` | server.py:19-34 | a broadcast keeps the invariant, never raises the measure, and adds no list member |
| `Steps.RemoveAll` | server.py:33-34 | the removals after a fan-out keep the invariant and never raise the measure |
| `Steps.RemoveClient` | server.py:104-112 | `remove_client` keeps the invariant and never raises the measure |
| `Steps.Leave` | server.py:96-102 | after `leave_channel`, `x` is registered and in no channel list |
| `Steps.Vacate` | server.py:108-110 | both branches of line 108 leave `x` in no list, so the delete keeps the invariant and lowers the measure |
| `Steps.Join` | server.py:88-94 | `join_channel` keeps the invariant |
| `Steps.Process` | server.py:62-66 | defines `process_command` as parsing the line, then running `Steps.Execute` |
| `Steps.Execute` | server.py:64-86 | defines the branches of `process_command`; `Guarantees.ExecuteValid`, `Guarantees.ExecuteReplies` and `Guarantees.ExecuteJoin` state what they guarantee |
| `Steps.Dispatch` | server.py:46-54 | defines one non-empty read: a command, or a chat line broadcast from the sender; `Guarantees.ChatRouting` and `Guarantees.DispatchValid` state what it guarantees |
| `Steps.Register` | server.py:39-42 | defines registration: the entry, the announcement, then the welcome; `Guarantees.RegisterResult` states what it guarantees |
| `Steps.Reply` | server.py:42 | a direct send keeps the invariant; when it fails, `remove_client` runs |
| `Guarantees.BroadcastEffect` | server.py:19-34 | only broken connections are deleted, every failed member is deleted, the fan-out's sends stay in the outbox, and the two-way invariant is kept |
| `Guarantees.RemoveAllEffect` | server.py:33-34 | every failed member is gone, others go only if broken, and the outbox only grows |
| `Guarantees.RemoveClientEffect` | server.py:104-112 | `x` is gone; other clients go only if broken; the outbox only grows; the two-way invariant is kept |
| `Guarantees.LeaveEffect` | server.py:96-102 | `x` stays under its name, other clients are unchanged unless broken and deleted, lists lose only `x` and deleted clients |
| `Guarantees.BroadcastReaches` | server.py:24-32 | exactly the clients in the target channel (or all clients), minus the sender and broken connections, are sent the stamped message |
| `Guarantees.BroadcastQuiet` | server.py:29-34 | when no send fails, a broadcast appends the fan-out and changes neither table |
| `Guarantees.BroadcastRemovesFailures` | server.py:33-34 | every failing member is removed; every unbroken client keeps its entry; channel names stay |
| `Guarantees.RemoveClientGone` | server.py:104-112 | afterwards no table mentions `x`; channels stay; unbroken clients keep their entries |
| `Guarantees.RemoveClientIdempotent` | server.py:106 | removing an unregistered id changes nothing, so removing twice is removing once |
| `Guarantees.RemoveClientNotifies` | server.py:112 | every other unbroken client is told that `x` disconnected |
| `Guarantees.Departure` | server.py:108-110 | leaving and deleting `x` keeps every other unbroken client in the key order |
| `Guarantees.Recorded` | server.py:107-109 | under the two-way invariant a recorded channel is truthy and its list holds the client |
| `Guarantees.LeaveResult` | server.py:96-102 | `x` ends with no channel and in no list; channels stay even when empty; other unbroken clients are unchanged; no channel means no change |
| `Guarantees.LeaveNotifies` | server.py:101 | the unbroken channel-mates left behind are told that `x` left |
| `Guarantees.JoinResult` | server.py:88-94 | a new channel goes last in the creation order; an unbroken joiner records it and is last in its list; joiner and old members are told; every other unbroken client keeps its entry; every other list loses only deleted clients |
| `Guarantees.JoinFrame` | server.py:88-94 | `join_channel` leaves everything else alone: other unbroken clients keep their entries, only broken clients are deleted, `name` is the only new channel, and other lists lose only deleted clients |
| `Registry.JoinedFrame` | server.py:90-94 | the same frame at the level of the tables: after the writes and the broadcast's deletions |
| `Guarantees.ReplyValid` | server.py:69-86 | a direct reply keeps the two-way invariant, also when it fails |
| `Guarantees.ExecuteValid` | server.py:62-86 | every command keeps the two-way invariant |
| `Guarantees.ExecuteReplies` | server.py:68-86 | `/help`, `/list`, `/join` without a name and unknown commands change no table and send exactly one reply, or remove a broken issuer |
| `Guarantees.ExecuteJoin` | server.py:73-80 | after `/join <name>` the client records `name`, is in its list, and is in no other list |
| `Guarantees.Rejoin` | server.py:78-80 | leaving the old channel first makes the join's precondition hold, and the join attaches the client |
| `Guarantees.DispatchValid` | server.py:46-54 | every non-empty read keeps the two-way invariant |
| `Guarantees.ChatRouting` | server.py:49-54 | a chat line reaches exactly the unbroken clients in the sender's channel (or everyone), never the sender |
| `Guarantees.RegisterResult` | server.py:39-42 | unbroken existing clients are told; an unbroken newcomer is registered with no channel, in no list, and sent the welcome last; a broken newcomer is removed |
| `Connection.Converse` | server.py:44-56 | the read loop keeps the two-way invariant through every line |
| `Connection.Serve` | server.py:36-60 | after a whole connection the client is no longer registered, and the two-way invariant holds; each read is handled in its own moment |
| `Connection.ConverseSplit` | server.py:44-56 | reading `a` then `b` is reading `a + b` when `a` has no empty read |
| `Connection.ConverseStopsAtEmpty` | server.py:55-56 | nothing after the first empty read is ever processed |
| `Server.SendEach` | server.py:29-34 | the send loop produces exactly the fan-out's sends and the failed members, in audience order |
| `Server.ChatServer.constructor` | server.py:14-15 | a new server has no clients and no channels and satisfies the two-way invariant |
| `Server.ChatServer.Broadcast` | server.py:19-34 | the new state is `Steps.Broadcast` of the old state; the two-way invariant is kept |
| `Server.ChatServer.RemoveEach` | server.py:33-34 | the new state is `Steps.RemoveAll` of the old state; the two-way invariant is kept |
| `Server.ChatServer.RemoveClient` | server.py:104-112 | the new state is `Steps.RemoveClient` of the old state; the two-way invariant is kept |
| `Server.ChatServer.LeaveChannel` | server.py:96-102 | the new state is `Steps.Leave` of the old state; the two-way invariant is kept |
| `Server.ChatServer.JoinChannel` | server.py:88-94 | the new state is `Steps.Join` of the old state; the two-way invariant is kept |
| `Server.ChatServer.Reply` | server.py:42 | the new state is `Steps.Reply` of the old state; the two-way invariant is kept |
| `Server.ChatServer.ProcessCommand` | server.py:62-66 | the new state is `Steps.Process` of the old state, and the two-way invariant holds |
| `Server.ChatServer.Execute` | server.py:64-86 | the new state is `Steps.Execute` of the old state, and the two-way invariant holds |
| `Server.ChatServer.Dispatch` | server.py:46-54 | the new state is `Steps.Dispatch` of the old state, and the two-way invariant holds |
| `Server.ChatServer.Register` | server.py:39-42 | the new state is `Steps.Register` of the old state; the two-way invariant is kept |
| `Server.ChatServer.HandleClient` | server.py:36-60 | the new state is `Connection.Serve` of the old state; afterwards the client is gone and the two-way invariant holds |
| `Server.ChatServer.ListRemove` | server.py:100 | the tables become `Detach` of the old ones; the outbox is unchanged |
| `Server.ChatServer.ClearChannel` | server.py:102 | the tables become `Restore` of the old ones; the outbox is unchanged |
| `Server.ChatServer.AddEntry` | server.py:40 | the tables become `Registered` of the old ones; the outbox is unchanged |
| `Server.ChatServer.AddMember` | server.py:90-93 | the tables become `Joined` of the old ones; the outbox is unchanged |
| `Server.ChatServer.DeleteEntry` | server.py:110 | the tables become `Delete` of the old ones; the outbox is unchanged |
| `Findings.LiveFanout` | server.py:24-34 | the live-list loop sends only the text, never to the sender or a broken connection, and at most once per remaining position |
| `Findings.ChannelFanoutSkips` | server.py:29-34 | with channel list [1, 2] and 1 broken, the loop as written sends nothing, while the snapshot sends to 2 |
| `Findings.LiveFanoutAgrees` | server.py:29-34 | with no failing member, the live-list loop and the snapshot send the same |
| `Findings.ViewFanout` | server.py:26-34 | the key-view loop raises exactly when some non-sender member is broken, and sends only to working non-senders |
| `Findings.GlobalFanoutRaises` | server.py:29-34 | with clients [1, 2] and 1 broken, the loop as written raises before reaching 2, while the snapshot sends to 2 |
| `Findings.ViewFanoutAgrees` | server.py:29-34 | with no failing member, the key-view loop does not raise and sends what the snapshot sends |

## Left out

- Sockets, `recv`, UTF-8 encoding and `close()` are not modelled. A read is
  a string; a send that goes through is a `Delivery` in the outbox; a
  failing send is membership of the connection in `broken`.
- Threads are not modelled: every operation runs alone, from start to
  finish. The source has no locks, so interleaved `handle_client` threads
  can interleave updates in ways the model does not cover.
- `start` (the accept loop), the constructor's socket setup and
  `shutdown_flag` are not modelled. client.py is not part of this model.
- Within one step of a connection (a read, registration or the final
  removal), the clock reading and the set of failing connections are
  fixed. The source reads the clock again for every broadcast, so the
  nested announcements of one read can carry different timestamps, and a
  connection can break in the middle of one step.
- `Steps.Broadcast` sends over a snapshot of the audience and removes the
  failed members afterwards. The source iterates the live list or dict
  while removing from it; `## Findings` shows where that differs, and
  `Findings.LiveFanoutAgrees` and `Findings.ViewFanoutAgrees` show that the
  two agree when no send fails.
- A connection that stops sending is modelled by the sequence of reads
  ending, which ends the loop like an empty read. A `recv` that fails is
  modelled the same way.
- A failing `recv` of the username (line 39) is not modelled: `Serve`
  always registers the client first.
- `leave_channel` rewrites `self.clients[x]` at line 102 even when a nested
  broadcast has already deleted `x`, which registers `x` again. The model
  keeps this behaviour (`Registry.Restore`). The socket was closed by then
  (line 111), so the source's next `recv` on it raises and ends that
  connection's loop. `Connection.Converse` does not track closed sockets,
  so in that case it goes on reading the client's lines.
- `Text.Lower` lower-cases ASCII letters only. No other character
  lower-cases to a letter of a command word, so every comparison with a
  command word comes out the same.
- The repository's design description asks for more than server.py does:
  authentication, unique usernames, channel secrets, `/users`, `/nick`,
  `/status`, `/msg`, deleting empty channels, refusing chat outside a
  channel, and locking. The model follows server.py. Channels here are
  never deleted, and a chat line outside a channel goes to everyone.

## Findings

| source | as written | input that shows it | evidently intended | confidence | as-written member | corrected member |
|---|---|---|---|---|---|---|
| server.py:24-34 | the loop at lines 29-34 walks the channel's live list; the `remove_client` of a failed member removes it from that list, so the next member moves into the visited position and is skipped | channel `a` holds [1, 2] and 1's send fails: 2 is never sent the message | every working member of the channel receives it | not executed | `Findings.ChannelFanoutSkips` | `Guarantees.BroadcastReaches` |
| server.py:26-34 | the loop at lines 29-34 walks the live key view of `self.clients`; the `del` in the `remove_client` of a failed member changes the dict's size, so the next step raises `RuntimeError` | clients 1 and 2, 1's send fails: the broadcast raises and 2 is never sent the message | every working client receives it, and the broadcast does not raise | not executed | `Findings.GlobalFanoutRaises` | `Guarantees.BroadcastReaches` |
