/** Slash commands: what `ReadPump` (internal/chat/client.go) makes of a chat message that begins with a slash. */
module SlashCommands {
  import opened Options
  import opened Rooms

  /** Commands that put something behind the rest of the message. */
  const EMOTICONS: seq<(string, string)> :=
    [("/shrug", "¯\\_(ツ)_/¯"), ("/lenny", "( ͡° ͜ʖ ͡°)"), ("/tableflip", "(╯°□°）╯︵ ┻━┻"), ("/unflip", "┬─┬ノ( º _ ºノ)"),
     ("/bear", "ʕ •ᴥ•ʔ"), ("/disapprove", "ಠ_ಠ"), ("/hug", "(づ｡◕‿‿◕｡)づ"), ("/dance", "└|∵|┐  ♪  ┌|∵|┘"),
     ("/flex", "ᕦ(ò_ó)ᕤ"), ("/cry", "(╥﹏╥)"), ("/coffee", "☕"), ("/fix", "🛠️"), ("/deploy", "🚀")]

  function Lookup(table: seq<(string, string)>, key: string): Option<string> {
    if table == [] then None
    else if table[0].0 == key then Some(table[0].1)
    else Lookup(table[1..], key)
  }

  /** The first space, or the end. */
  function WordEnd(s: string): (n: nat)
    ensures n <= |s|
  {
    if s == "" || s[0] == ' ' then 0 else 1 + WordEnd(s[1..])
  }

  function Command(content: string): string {
    content[..WordEnd(content)]
  }

  /** What follows the command and a space. */
  function Argument(content: string): string {
    var n := WordEnd(content);
    if n == |content| then "" else content[n + 1..]
  }

  /** What a chat message comes to be; nothing for those that are answered and go nowhere. */
  function Said(content: string): Option<string> {
    if content == "" || content[0] != '/' then Some(content)
    else
      var cmd := Command(content);
      if cmd == "/help" || cmd == "/ping" then None
      else if cmd == "/sparkles" then Some("✨ " + Trimmed(Argument(content)) + " ✨")
      else
        match Lookup(EMOTICONS, cmd)
        case Some(emoticon) => Some(Argument(content) + " " + emoticon)
        case None => Some(content)
  }

  // ---------- what it does ----------

  lemma {:induction false} WordEndIs(cmd: string, tail: string)
    requires ' ' !in cmd && (tail == "" || tail[0] == ' ')
    ensures WordEnd(cmd + tail) == |cmd|
  {
    if cmd == "" {
      assert cmd + tail == tail;
    } else {
      assert (cmd + tail)[1..] == cmd[1..] + tail;
      WordEndIs(cmd[1..], tail);
    }
  }

  lemma SplitIs(cmd: string, tail: string)
    requires ' ' !in cmd && (tail == "" || tail[0] == ' ')
    ensures Command(cmd + tail) == cmd
    ensures Argument(cmd + tail) == if tail == "" then "" else tail[1..]
  {
    WordEndIs(cmd, tail);
  }

  lemma {:induction false} LookupFinds(table: seq<(string, string)>, key: string, i: nat)
    requires i < |table| && table[i].0 == key && forall j | 0 <= j < i :: table[j].0 != key
    ensures Lookup(table, key) == Some(table[i].1)
  {
    if i > 0 {
      assert forall j | 0 <= j < i - 1 :: table[1..][j] == table[j + 1];
      LookupFinds(table[1..], key, i - 1);
    }
  }

  lemma {:induction false} LookupFails(table: seq<(string, string)>, key: string)
    requires forall j | 0 <= j < |table| :: table[j].0 != key
    ensures Lookup(table, key) == None
  {
    if table != [] {
      LookupFails(table[1..], key);
    }
  }

  /** Each command is there once, and is none of the others. */
  lemma EmoticonsApart(i: nat, j: nat)
    requires i < |EMOTICONS| && j < |EMOTICONS| && i != j
    ensures EMOTICONS[i].0 != EMOTICONS[j].0
  {
  }

  lemma EmoticonsAreOthers(i: nat)
    requires i < |EMOTICONS|
    ensures var name := EMOTICONS[i].0; name != "/help" && name != "/ping" && name != "/sparkles"
  {
  }

  /** A message that does not begin with a slash stays as it is. */
  lemma PlainIsSaid(content: string)
    requires content == "" || content[0] != '/'
    ensures Said(content) == Some(content)
  {
  }

  /** /help and /ping are answered, /sparkles puts the rest between sparkles, ... */
  lemma SpecialIsSaid(cmd: string, tail: string)
    requires cmd != "" && cmd[0] == '/' && ' ' !in cmd && (tail == "" || tail[0] == ' ')
    ensures var said, rest := Said(cmd + tail), if tail == "" then "" else tail[1..];
            && (cmd == "/help" || cmd == "/ping" ==> said == None)
            && (cmd == "/sparkles" ==> said == Some("✨ " + Trimmed(rest) + " ✨"))
  {
    SplitIs(cmd, tail);
    assert (cmd + tail)[0] == cmd[0];
  }

  /** ... thirteen commands put an emoticon behind the rest, ... */
  lemma EmoticonIsSaid(i: nat, tail: string)
    requires i < |EMOTICONS| && (tail == "" || tail[0] == ' ')
    ensures |EMOTICONS| == 13
    ensures var (cmd, emoticon) := EMOTICONS[i];
            Said(cmd + tail) == Some((if tail == "" then "" else tail[1..]) + " " + emoticon)
  {
    var cmd := EMOTICONS[i].0;
    EmoticonIsCommand(i);
    SplitIs(cmd, tail);
    assert (cmd + tail)[0] == cmd[0];
    EmoticonsAreOthers(i);
    forall j | 0 <= j < i ensures EMOTICONS[j].0 != cmd {
      EmoticonsApart(i, j);
    }
    LookupFinds(EMOTICONS, cmd, i);
  }

  lemma EmoticonIsCommand(i: nat)
    requires i < |EMOTICONS|
    ensures var cmd := EMOTICONS[i].0; cmd != "" && cmd[0] == '/' && ' ' !in cmd
  {
  }

  /** ... and any other stays as it is. */
  lemma OtherIsSaid(cmd: string, tail: string)
    requires cmd != "" && cmd[0] == '/' && ' ' !in cmd && (tail == "" || tail[0] == ' ')
    requires cmd != "/help" && cmd != "/ping" && cmd != "/sparkles"
    requires forall i | 0 <= i < |EMOTICONS| :: EMOTICONS[i].0 != cmd
    ensures Said(cmd + tail) == Some(cmd + tail)
  {
    SplitIs(cmd, tail);
    assert (cmd + tail)[0] == cmd[0];
    LookupFails(EMOTICONS, cmd);
  }

  /** So a message that does not look like a signal can become one. */
  lemma CommandsCanSignal(id: string)
    ensures var content := "/shrug" + (" " + ("JOIN:" + id));
            && !("JOIN:" <= content) && Said(content).Some? && "JOIN:" + id <= Said(content).value
  {
    var tail := " " + ("JOIN:" + id);
    EmoticonIsSaid(0, tail);
    assert tail[1..] == "JOIN:" + id;
    assert ("/shrug" + tail)[0] == '/';
  }
}
