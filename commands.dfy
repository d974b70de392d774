/**
 * The server's line protocol: how a line that starts with '/' is read as a
 * command (server.py `process_command`), and the fixed texts the server
 * sends back or broadcasts.
 */
module Commands {
  import opened Optional
  import opened Text

  /** What `process_command` does with a line, decided by its first word. */
  datatype Command =
    | Help
    | List
    | Join(channel: Option<string>)  // None: `/join` without a channel name
    | Leave
    | Quit
    | Unknown

  /**
   * The command word is the first whitespace-separated token, lower-cased;
   * `/join` takes its channel name from the second token and ignores the rest.
   */
  function Parse(line: string): (cmd: Command)
    requires Split(line) != []
    ensures cmd.Join? && cmd.channel.Some? ==> IsToken(cmd.channel.value)
  {
    var tokens := Split(line);
    var word := Lower(tokens[0]);
    if word == "/help" then Help
    else if word == "/list" then List
    else if word == "/join" then
      if |tokens| < 2 then Join(None) else Join(Some(tokens[1]))
    else if word == "/leave" then Leave
    else if word == "/quit" then Quit
    else Unknown
  }

  /**
   * `/join` in any letter case, followed by a channel name and possibly more
   * words, asks to join that channel; the extra words are ignored.
   */
  lemma ParseJoin(word: string, name: string, rest: seq<string>)
    requires IsToken(word) && Lower(word) == "/join"
    requires IsToken(name)
    requires forall t :: t in rest ==> IsToken(t)
    ensures Split(JoinSpaced([word, name] + rest)) != []
    ensures Parse(JoinSpaced([word, name] + rest)) == Join(Some(name))
  {
    var ts := [word, name] + rest;
    SplitJoin(ts);
    JoinWord(JoinSpaced(ts));
  }

  lemma JoinWord(line: string)
    requires |Split(line)| >= 2 && Lower(Split(line)[0]) == "/join"
    ensures Parse(line) == Join(Some(Split(line)[1]))
  {
  }

  /**
   * A line whose only word is `/join`, in any letter case and with any
   * whitespace around it, only earns the usage notice.
   */
  lemma ParseJoinAlone(line: string)
    requires |Split(line)| == 1 && Lower(Split(line)[0]) == "/join"
    ensures Parse(line) == Join(None)
  {
  }

  /** A first word that is none of the five commands is unknown, whatever follows it. */
  lemma ParseUnknown(word: string, rest: seq<string>)
    requires IsToken(word)
    requires Lower(word) != "/help" && Lower(word) != "/list" && Lower(word) != "/join"
    requires Lower(word) != "/leave" && Lower(word) != "/quit"
    requires forall t :: t in rest ==> IsToken(t)
    ensures Split(JoinSpaced([word] + rest)) != []
    ensures Parse(JoinSpaced([word] + rest)) == Unknown
  {
    var ts := [word] + rest;
    SplitJoin(ts);
    assert Split(JoinSpaced(ts))[0] == word;
  }

  const HelpText := "Commands:\n/help\n/list\n/join <channel>\n/leave\n/quit\n"
  const JoinUsage := "Usage: /join <channel>"
  const UnknownCommand := "Unknown command. Type /help for a list of commands."
  const Welcome := "Welcome to the chat! Type /help for commands."

  /** `sep.join(names)`. */
  function JoinWith(names: seq<string>, sep: string): string
  {
    if names == [] then ""
    else if |names| == 1 then names[0]
    else names[0] + sep + JoinWith(names[1..], sep)
  }

  /** The `/list` reply: the channel names in creation order. */
  function ListReply(names: seq<string>): string
  {
    "Available channels: " + JoinWith(names, ", ")
  }

  /** The delivery format: the timestamp in brackets, a space, the message. */
  function Stamp(ts: string, message: string): string
  {
    "[" + ts + "] " + message
  }

  /**
   * Timestamps are fixed-width ("%H:%M:%S"), so a delivered text determines
   * both the timestamp and the message.
   */
  lemma StampInjective(ts1: string, m1: string, ts2: string, m2: string)
    requires |ts1| == |ts2|
    requires Stamp(ts1, m1) == Stamp(ts2, m2)
    ensures ts1 == ts2 && m1 == m2
  {
    var s := Stamp(ts1, m1);
    assert s[1..|ts1| + 1] == ts1;
    assert Stamp(ts2, m2)[1..|ts2| + 1] == ts2;
    assert s[|ts1| + 3..] == m1;
    assert Stamp(ts2, m2)[|ts2| + 3..] == m2;
  }

  function JoinedChat(username: string): string { username + " joined the chat!" }
  function JoinedChannel(username: string, name: string): string { username + " joined " + name + "." }
  function LeftChannel(username: string, name: string): string { username + " left " + name + "." }
  function Disconnected(username: string): string { username + " has disconnected." }
  function ChatLine(username: string, line: string): string { username + ": " + line }

}
