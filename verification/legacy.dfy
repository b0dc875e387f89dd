/**
 The earlier, single-process hub (legacy/challenge-7/chat.go): a snapshot of the last 20 chat messages
 replayed synchronously to a newcomer, followed by the live stream. Module `Snapshot` is the hub as a
 state machine, one turn of its `select` loop a step; module `LegacyHub` is the loop's code.
 */
module Snapshot {
  import opened Numbers

  datatype Kind = Chat | Private | System | UserList | Unknown

  datatype Message = Message(kind: Kind, sender: string, target: string, content: string, timestamp: int)

  /** A `*Client`. Two pointers differ in `id`. */
  datatype Client = Client(id: nat, name: string)

  const CAPACITY := 256
  const DEPTH := 20

  /** `send` holds what is queued in the channel of every client ever registered, `closed` the clients
      whose channel is closed. */
  datatype Hub = Hub(clients: map<string, Client>, history: seq<Message>,
                     send: map<Client, seq<Message>>, closed: set<Client>)

  const NEW_HUB := Hub(map[], [], map[], {})

  // ---------- one turn of the loop ----------

  function Queue(h: Hub, c: Client): seq<Message> {
    if c in h.send then h.send[c] else []
  }

  predicate HasSpace(h: Hub, c: Client) {
    |Queue(h, c)| < CAPACITY
  }

  function Put(h: Hub, c: Client, m: Message): Hub {
    h.(send := h.send[c := Queue(h, c) + [m]])
  }

  /** Whoever holds `name` is out, with the channel closed. */
  function Dismissed(h: Hub, name: string): Hub {
    if name in h.clients then h.(clients := h.clients - {name}, closed := h.closed + {h.clients[name]}) else h
  }

  function Joined(h: Hub, c: Client): Hub {
    var vacated := Dismissed(h, c.name);
    vacated.(clients := vacated.clients[c.name := c], send := h.send[c := Queue(h, c) + h.history])
  }

  function Emptied(h: Hub): Hub {
    h.(clients := map[], closed := h.closed + h.clients.Values)
  }

  /** A non-blocking send to each of `clients`. */
  function SentTo(h: Hub, clients: set<Client>, m: Message): Hub {
    h.(send := map c | c in h.send :: if c in clients && HasSpace(h, c) then h.send[c] + [m] else h.send[c])
  }

  function FannedOut(h: Hub, m: Message): Hub {
    SentTo(h, h.clients.Values, m)
  }

  function Remembered(history: seq<Message>, m: Message): seq<Message> {
    if |history + [m]| > DEPTH then (history + [m])[1..] else history + [m]
  }

  function PutNamed(h: Hub, name: string, m: Message): Hub {
    if name in h.clients then Put(h, h.clients[name], m) else h
  }

  function Handled(h: Hub, m: Message): Hub {
    match m.kind
    case Chat => FannedOut(h, m).(history := Remembered(h.history, m))
    case System => FannedOut(h, m)
    case UserList => FannedOut(h, m)
    case Private =>
      var first := PutNamed(h, m.sender, m);
      if m.target != m.sender then PutNamed(first, m.target, m) else first
    case Unknown => h
  }

  predicate NameHasSpace(h: Hub, name: string) {
    name in h.clients ==> HasSpace(h, h.clients[name])
  }

  // ---------- runs, with what has happened so far ----------

  /** `read` is what the write pump has taken from the channel; `joined` and `left` are the lengths of
      the chat log at registration and at the close of the channel; `missed` are the places in the log
      of the chat messages that found the channel full. */
  datatype Record = Record(read: seq<Message>, joined: nat, left: nat, missed: set<nat>)

  /** `log` is every chat message the hub has handled, in order. A send on a closed channel, or closing it
      again, is a panic, and the end of the process. */
  datatype State = State(hub: Hub, records: map<Client, Record>, log: seq<Message>, panicked: bool)

  const START := State(NEW_HUB, map[], [], false)

  datatype Action =
    | Register(c: Client)
    | Unregister(c: Client)       // a pump has ended, or a send found the channel full
    | Quit
    | Handle(m: Message)
    | Drain(c: Client)            // writePump
    | Warn(c: Client, m: Message) // readPump over its rate

  ghost predicate Enabled(s: State, a: Action) {
    && !s.panicked
    && match a
       case Register(c) => c !in s.records
       case Handle(m) => m.kind.Private? ==> NameHasSpace(s.hub, m.sender) && NameHasSpace(s.hub, m.target)
       case Drain(c) => c in s.records && Queue(s.hub, c) != []
       case Warn(c, m) => c in s.records && (c in s.hub.closed || HasSpace(s.hub, c)) && !m.kind.Chat?
       case _ => true
  }

  /** The channel of whoever holds `name` is closed. */
  predicate NameIsClosed(h: Hub, name: string) {
    name in h.clients && h.clients[name] in h.closed
  }

  predicate SomeoneIsClosed(h: Hub) {
    h.clients.Values * h.closed != {}
  }

  /** The action sends on a closed channel, or closes it. */
  predicate MeetsClosed(h: Hub, a: Action) {
    match a
    case Register(c) => NameIsClosed(h, c.name) || (h.history != [] && c in h.closed)
    case Unregister(c) => NameIsClosed(h, c.name)
    case Quit => SomeoneIsClosed(h)
    case Handle(m) =>
      if m.kind.Private? then NameIsClosed(h, m.sender) || NameIsClosed(h, m.target)
      else !m.kind.Unknown? && SomeoneIsClosed(h)
    case Drain(_) => false
    case Warn(c, _) => c in h.closed
  }

  /** The hub becomes `h`; clients whose channel that closes have left now. */
  function Closing(s: State, h: Hub): State {
    State(h, map c | c in s.records :: if c in h.closed && c !in s.hub.closed then s.records[c].(left := |s.log|)
                                       else s.records[c], s.log, s.panicked)
  }

  predicate Misses(h: Hub, c: Client) {
    c in h.clients.Values && !HasSpace(h, c)
  }

  function Logged(s: State, m: Message): State {
    State(Handled(s.hub, m),
          map c | c in s.records :: if Misses(s.hub, c) then s.records[c].(missed := s.records[c].missed + {|s.log|})
                                    else s.records[c],
          s.log + [m], s.panicked)
  }

  ghost function Next(s: State, a: Action): State
    requires Enabled(s, a)
  {
    if MeetsClosed(s.hub, a) then s.(panicked := true) else Turned(s, a)
  }

  ghost function Turned(s: State, a: Action): State
    requires Enabled(s, a)
  {
    match a
    case Register(c) =>
      var t := Closing(s, Joined(s.hub, c));
      t.(records := t.records[c := Record([], |s.log|, 0, {})])
    case Unregister(c) => Closing(s, Dismissed(s.hub, c.name))
    case Quit => Closing(s, Emptied(s.hub))
    case Handle(m) => if m.kind.Chat? then Logged(s, m) else s.(hub := Handled(s.hub, m))
    case Drain(c) =>
      State(s.hub.(send := s.hub.send[c := Queue(s.hub, c)[1..]]),
            s.records[c := s.records[c].(read := s.records[c].read + [Queue(s.hub, c)[0]])], s.log, s.panicked)
    case Warn(c, m) => s.(hub := Put(s.hub, c, m))
  }

  ghost predicate Leads(run: seq<State>, actions: seq<Action>, i: nat)
    requires i < |actions| && |run| == |actions| + 1
  {
    Enabled(run[i], actions[i]) && run[i + 1] == Next(run[i], actions[i])
  }

  ghost predicate IsRun(run: seq<State>, actions: seq<Action>) {
    && |run| == |actions| + 1 && run[0] == START
    && forall i {:trigger Leads(run, actions, i)} | 0 <= i < |actions| :: Leads(run, actions, i)
  }

  // ---------- what a client has been sent ----------

  function Chats(s: seq<Message>): seq<Message> {
    if s == [] then []
    else Chats(s[..|s| - 1]) + if s[|s| - 1].kind.Chat? then [s[|s| - 1]] else []
  }

  /** Everything ever put into the client's channel. */
  function Stream(s: State, c: Client): seq<Message>
    requires c in s.records
  {
    s.records[c].read + Queue(s.hub, c)
  }

  /** The stretch of the log meant for a client: from 20 before it joined until it left. */
  function From(r: Record): nat {
    r.joined - Min(DEPTH, r.joined)
  }

  function Until(s: State, c: Client): nat
    requires c in s.records
  {
    if c in s.hub.closed then s.records[c].left else |s.log|
  }

  /** `log[from..to]` without the places in `missed`. */
  function Kept(log: seq<Message>, from: nat, to: nat, missed: set<nat>): seq<Message>
    requires from <= to <= |log|
  {
    if from == to then []
    else Kept(log, from, to - 1, missed) + if to - 1 in missed then [] else [log[to - 1]]
  }

  ghost predicate RecordOk(s: State, c: Client)
    requires c in s.records
  {
    var r := s.records[c];
    && c in s.hub.send && |s.hub.send[c]| <= CAPACITY
    && r.joined <= Until(s, c) <= |s.log|
    && (forall i | i in r.missed :: r.joined <= i < Until(s, c))
    && Chats(Stream(s, c)) == Kept(s.log, From(r), Until(s, c), r.missed)
  }

  ghost predicate RosterOk(s: State) {
    && s.hub.send.Keys == s.records.Keys && s.hub.closed <= s.records.Keys
    && (forall n | n in s.hub.clients ::
          s.hub.clients[n].name == n && s.hub.clients[n] in s.records && s.hub.clients[n] !in s.hub.closed)
    && (forall c | c in s.records && c !in s.hub.closed :: c.name in s.hub.clients && s.hub.clients[c.name] == c)
  }

  ghost predicate HistoryOk(s: State) {
    && s.hub.history == s.log[|s.log| - Min(DEPTH, |s.log|)..]
    && forall i | 0 <= i < |s.log| :: s.log[i].kind.Chat?
  }

  ghost predicate Inv(s: State) {
    RosterOk(s) && HistoryOk(s) && forall c | c in s.records :: RecordOk(s, c)
  }

  // ---------- lemmas on streams ----------

  lemma ChatsOfOneMore(s: seq<Message>, m: Message)
    ensures Chats(s + [m]) == Chats(s) + if m.kind.Chat? then [m] else []
  {
    assert (s + [m])[..|s|] == s;
  }

  lemma {:induction false} ChatsOfChats(s: seq<Message>)
    requires forall i | 0 <= i < |s| :: s[i].kind.Chat?
    ensures Chats(s) == s
  {
    if s != [] {
      ChatsOfChats(s[..|s| - 1]);
      assert s == s[..|s| - 1] + [s[|s| - 1]];
    }
  }

  /** Only the stretch itself matters. */
  lemma {:induction false} KeptIsLocal(log: seq<Message>, more: seq<Message>, from: nat, to: nat,
                                       missed: set<nat>, others: set<nat>)
    requires from <= to <= |log| <= |more| && more[..to] == log[..to]
    requires forall i | from <= i < to :: i in missed <==> i in others
    ensures Kept(log, from, to, missed) == Kept(more, from, to, others)
  {
    if from < to {
      assert more[to - 1] == more[..to][to - 1] == log[..to][to - 1] == log[to - 1];
      assert more[..to - 1] == more[..to][..to - 1] == log[..to - 1];
      KeptIsLocal(log, more, from, to - 1, missed, others);
    }
  }

  lemma KeptGrows(log: seq<Message>, m: Message, from: nat, missed: set<nat>, others: set<nat>)
    requires from <= |log|
    requires forall i | from <= i < |log| :: i in missed <==> i in others
    ensures Kept(log + [m], from, |log| + 1, others) ==
            Kept(log, from, |log|, missed) + if |log| in others then [] else [m]
  {
    KeptIsLocal(log, log + [m], from, |log|, missed, others);
  }

  lemma {:induction false} NothingMissed(log: seq<Message>, from: nat, to: nat, missed: set<nat>)
    requires from <= to <= |log|
    requires forall i | i in missed :: !(from <= i < to)
    ensures Kept(log, from, to, missed) == log[from..to]
  {
    if from < to {
      NothingMissed(log, from, to - 1, missed);
      assert log[from..to] == log[from..to - 1] + [log[to - 1]];
    }
  }

  lemma {:induction false} MissedIsShorter(log: seq<Message>, from: nat, to: nat, missed: set<nat>)
    requires from <= to <= |log|
    ensures |Kept(log, from, to, missed)| <= to - from
    ensures (exists i :: i in missed && from <= i < to) ==> |Kept(log, from, to, missed)| < to - from
  {
    if from < to {
      MissedIsShorter(log, from, to - 1, missed);
    }
  }

  // ---------- the invariant, step by step ----------

  /** The record of a client that the step does not touch, beyond perhaps closing its channel. */
  lemma SameRecord(s: State, t: State, c: Client)
    requires c in s.records && RecordOk(s, c) && c in t.records && c in t.hub.send
    requires t.log == s.log && t.hub.send[c] == s.hub.send[c]
    requires t.records[c] == s.records[c].(left := t.records[c].left)
    requires Until(t, c) == Until(s, c)
    ensures RecordOk(t, c)
  {
  }

  lemma SameRoster(s: State, t: State)
    requires RosterOk(s) && t.hub.clients == s.hub.clients && t.hub.closed == s.hub.closed
    requires t.hub.send.Keys == s.hub.send.Keys && t.records.Keys == s.records.Keys
    ensures RosterOk(t)
  {
  }

  lemma JoinedRoster(s: State, c: Client)
    requires RosterOk(s) && Enabled(s, Register(c))
    ensures RosterOk(Turned(s, Register(c)))
  {
    var t := Turned(s, Register(c));
    assert c !in s.hub.closed;
    forall d | d in t.records && d !in t.hub.closed
      ensures d.name in t.hub.clients && t.hub.clients[d.name] == d
    {
      if d != c {
        assert d in s.records && d !in s.hub.closed;
      }
    }
  }

  lemma TailIsKept(log: seq<Message>, from: nat)
    requires from <= |log| && forall i | 0 <= i < |log| :: log[i].kind.Chat?
    ensures Chats(log[from..]) == Kept(log, from, |log|, {})
  {
    ChatsOfChats(log[from..]);
    NothingMissed(log, from, |log|, {});
    assert log[from..|log|] == log[from..];
  }

  lemma NewcomerIsOpen(s: State, c: Client)
    requires RosterOk(s) && Enabled(s, Register(c))
    ensures c !in Turned(s, Register(c)).hub.closed
  {
    assert forall name | name in s.hub.clients :: s.hub.clients[name] != c;
  }

  lemma NewcomersChannel(s: State, c: Client)
    requires RosterOk(s) && Enabled(s, Register(c))
    ensures var t := Turned(s, Register(c));
            && c in t.hub.send && t.hub.send[c] == s.hub.history
            && c in t.records && t.records[c] == Record([], |s.log|, 0, {}) && t.log == s.log
  {
    assert c !in s.hub.send;
    assert [] + s.hub.history == s.hub.history;
  }

  lemma NewcomerOk(s: State, c: Client)
    requires RosterOk(s) && HistoryOk(s) && Enabled(s, Register(c))
    ensures RecordOk(Turned(s, Register(c)), c)
  {
    NewcomerIsOpen(s, c);
    NewcomersChannel(s, c);
    assert Stream(Turned(s, Register(c)), c) == s.hub.history;
    TailIsKept(s.log, |s.log| - Min(DEPTH, |s.log|));
  }

  lemma RegisterKeepsInv(s: State, c: Client)
    requires Inv(s) && Enabled(s, Register(c))
    ensures Inv(Turned(s, Register(c)))
  {
    var t := Turned(s, Register(c));
    JoinedRoster(s, c);
    NewcomerOk(s, c);
    forall d | d in t.records && d != c
      ensures RecordOk(t, d)
    {
      SameRecord(s, t, d);
    }
  }

  lemma DepartedRoster(s: State, a: Action)
    requires RosterOk(s) && Enabled(s, a) && (a.Unregister? || a.Quit?)
    ensures RosterOk(Turned(s, a))
  {
    var t := Turned(s, a);
    if a.Unregister? {
      forall d | d in t.records && d !in t.hub.closed
        ensures d.name in t.hub.clients && t.hub.clients[d.name] == d
      {
        assert d in s.records && d !in s.hub.closed;
      }
    }
  }

  lemma DepartedRecord(s: State, a: Action, c: Client)
    requires Enabled(s, a) && (a.Unregister? || a.Quit?) && c in s.records && RecordOk(s, c)
    ensures RecordOk(Turned(s, a), c)
  {
    SameRecord(s, Turned(s, a), c);
  }

  lemma DepartureFrame(s: State, a: Action)
    requires HistoryOk(s) && Enabled(s, a) && (a.Unregister? || a.Quit?)
    ensures Turned(s, a).records.Keys == s.records.Keys && HistoryOk(Turned(s, a))
  {
  }

  lemma DepartureKeepsInv(s: State, a: Action)
    requires Inv(s) && Enabled(s, a) && (a.Unregister? || a.Quit?)
    ensures Inv(Turned(s, a))
  {
    var t := Turned(s, a);
    DepartedRoster(s, a);
    DepartureFrame(s, a);
    forall c | c in t.records
      ensures RecordOk(t, c)
    {
      DepartedRecord(s, a, c);
    }
  }

  lemma HistoryStep(s: State, m: Message)
    requires HistoryOk(s) && Enabled(s, Handle(m)) && m.kind.Chat?
    ensures HistoryOk(Turned(s, Handle(m)))
  {
    var t := Turned(s, Handle(m));
    var n := |s.log|;
    assert t.log == s.log + [m];
    if n < DEPTH {
      assert s.hub.history == s.log;
    } else {
      assert (s.hub.history + [m])[1..] == s.log[n - DEPTH..][1..] + [m] == s.log[n - DEPTH + 1..] + [m];
      assert t.log[n + 1 - DEPTH..] == s.log[n - DEPTH + 1..] + [m];
    }
  }

  predicate IsLive(s: State, c: Client) {
    && c in s.records && c in s.hub.send && c !in s.hub.closed
    && c.name in s.hub.clients && s.hub.clients[c.name] == c
  }

  /** A client still connected: the log grew by `m`, and so did its stream unless its channel was full. */
  lemma LiveStream(s: State, m: Message, c: Client)
    requires IsLive(s, c) && m.kind.Chat?
    ensures var t := Logged(s, m);
            && Chats(Stream(t, c)) == Chats(Stream(s, c)) + (if HasSpace(s.hub, c) then [m] else [])
            && |t.hub.send[c]| == |s.hub.send[c]| + (if HasSpace(s.hub, c) then 1 else 0)
  {
    var t, gets := Logged(s, m), if HasSpace(s.hub, c) then [m] else [];
    assert c in s.hub.clients.Values;
    assert Stream(t, c) == Stream(s, c) + gets;
    assert Stream(s, c) + [] == Stream(s, c);
    ChatsOfOneMore(Stream(s, c), m);
  }

  lemma LiveMissed(s: State, m: Message, c: Client)
    requires IsLive(s, c) && RecordOk(s, c)
    ensures var t := Logged(s, m);
            && t.records[c] == s.records[c].(missed := t.records[c].missed)
            && t.records[c].missed == s.records[c].missed + (if HasSpace(s.hub, c) then {} else {|s.log|})
            && Until(s, c) == |s.log| && |s.log| !in s.records[c].missed
  {
    assert c in s.hub.clients.Values;
  }

  lemma LiveChats(s: State, m: Message, c: Client)
    requires IsLive(s, c) && RecordOk(s, c) && m.kind.Chat?
    ensures var t := Logged(s, m);
            && |t.log| == |s.log| + 1 && From(s.records[c]) <= |s.log|
            && Chats(Stream(t, c)) == Kept(t.log, From(s.records[c]), |t.log|, t.records[c].missed)
  {
    LiveMissed(s, m, c);
    LiveStream(s, m, c);
    KeptGrows(s.log, m, From(s.records[c]), s.records[c].missed, Logged(s, m).records[c].missed);
  }

  lemma LiveRecord(s: State, m: Message, c: Client)
    requires IsLive(s, c) && RecordOk(s, c) && m.kind.Chat?
    ensures RecordOk(Logged(s, m), c)
  {
    LiveMissed(s, m, c);
    LiveStream(s, m, c);
    LiveChats(s, m, c);
  }

  /** One whose channel is closed: nothing changes. */
  lemma GoneRecord(s: State, m: Message, c: Client)
    requires c in s.records && c in s.hub.closed && c !in s.hub.clients.Values && RecordOk(s, c) && m.kind.Chat?
    ensures RecordOk(Logged(s, m), c)
  {
    var t, r := Logged(s, m), s.records[c];
    assert t.records[c] == r && Stream(t, c) == Stream(s, c);
    KeptIsLocal(s.log, t.log, From(r), r.left, r.missed, r.missed);
  }

  lemma ChatRecord(s: State, m: Message, c: Client)
    requires RosterOk(s) && c in s.records && RecordOk(s, c) && m.kind.Chat?
    ensures RecordOk(Logged(s, m), c)
  {
    if c in s.hub.closed {
      GoneRecord(s, m, c);
    } else {
      LiveRecord(s, m, c);
    }
  }

  lemma ChatKeepsInv(s: State, m: Message)
    requires Inv(s) && Enabled(s, Handle(m)) && m.kind.Chat?
    ensures Inv(Turned(s, Handle(m)))
  {
    HistoryStep(s, m);
    forall c | c in s.records
      ensures RecordOk(Logged(s, m), c)
    {
      ChatRecord(s, m, c);
    }
  }

  predicate OneMoreAtMost(before: Hub, after: Hub, c: Client, m: Message) {
    || Queue(after, c) == Queue(before, c)
    || (HasSpace(before, c) && Queue(after, c) == Queue(before, c) + [m])
  }

  /** The channels change by at most one message, and nothing else does. */
  lemma HandledSends(s: State, m: Message)
    requires RosterOk(s) && Enabled(s, Handle(m)) && !m.kind.Chat?
    ensures var h := Handled(s.hub, m);
            && h == s.hub.(send := h.send) && h.send.Keys == s.hub.send.Keys
            && forall c | c in s.hub.send :: OneMoreAtMost(s.hub, h, c, m)
  {
    if m.kind.Private? {
      var first := PutNamed(s.hub, m.sender, m);
      assert first.send.Keys == s.hub.send.Keys;
      assert Handled(s.hub, m).send.Keys == first.send.Keys;
    }
  }

  lemma OtherRecord(s: State, t: State, c: Client, m: Message)
    requires c in s.records && RecordOk(s, c) && !m.kind.Chat?
    requires t.records == s.records && t.log == s.log && t.hub.closed == s.hub.closed && c in t.hub.send
    requires OneMoreAtMost(s.hub, t.hub, c, m)
    ensures RecordOk(t, c)
  {
    if Queue(t.hub, c) == Queue(s.hub, c) + [m] {
      assert Stream(t, c) == Stream(s, c) + [m];
      ChatsOfOneMore(Stream(s, c), m);
    }
  }

  lemma OthersKeepInv(s: State, t: State, m: Message)
    requires Inv(s) && !m.kind.Chat?
    requires t == s.(hub := s.hub.(send := t.hub.send)) && t.hub.send.Keys == s.hub.send.Keys
    requires forall c | c in s.hub.send :: OneMoreAtMost(s.hub, t.hub, c, m)
    ensures Inv(t)
  {
    forall c | c in t.records
      ensures RecordOk(t, c)
    {
      OtherRecord(s, t, c, m);
    }
  }

  lemma DrainedRecord(s: State, c: Client, d: Client)
    requires Enabled(s, Drain(c)) && d in s.records && RecordOk(s, d)
    ensures RecordOk(Turned(s, Drain(c)), d)
  {
    var t := Turned(s, Drain(c));
    assert Stream(t, d) == Stream(s, d);
    assert Until(t, d) == Until(s, d) && t.records[d].missed == s.records[d].missed;
  }

  lemma DrainedRoster(s: State, c: Client)
    requires RosterOk(s) && HistoryOk(s) && Enabled(s, Drain(c))
    ensures var t := Turned(s, Drain(c)); RosterOk(t) && HistoryOk(t) && t.records.Keys == s.records.Keys
  {
    var t := Turned(s, Drain(c));
    assert c in s.hub.send && c in s.records;
    assert t.hub.send.Keys == s.hub.send.Keys;
    SameRoster(s, t);
  }

  lemma DrainKeepsInv(s: State, c: Client)
    requires Inv(s) && Enabled(s, Drain(c))
    ensures Inv(Turned(s, Drain(c)))
  {
    DrainedRoster(s, c);
    forall d | d in s.records
      ensures RecordOk(Turned(s, Drain(c)), d)
    {
      DrainedRecord(s, c, d);
    }
  }

  lemma StepKeepsInv(s: State, a: Action)
    requires Inv(s) && Enabled(s, a)
    ensures Inv(Next(s, a))
  {
    if MeetsClosed(s.hub, a) {
      PanicKeepsInv(s);
    } else {
      TurnKeepsInv(s, a);
    }
  }

  lemma PanicKeepsInv(s: State)
    requires Inv(s)
    ensures Inv(s.(panicked := true))
  {
    forall c | c in s.records ensures RecordOk(s.(panicked := true), c) {
      assert RecordOk(s, c);
    }
  }

  lemma TurnKeepsInv(s: State, a: Action)
    requires Inv(s) && Enabled(s, a) && !MeetsClosed(s.hub, a)
    ensures Inv(Turned(s, a))
  {
    match a
    case Register(c) => RegisterKeepsInv(s, c);
    case Unregister(_) => DepartureKeepsInv(s, a);
    case Quit => DepartureKeepsInv(s, a);
    case Handle(m) =>
      if m.kind.Chat? {
        ChatKeepsInv(s, m);
      } else {
        HandledSends(s, m);
        OthersKeepInv(s, Turned(s, a), m);
      }
    case Drain(c) => DrainKeepsInv(s, c);
    case Warn(c, m) => OthersKeepInv(s, Turned(s, a), m);
  }

  lemma {:induction false} RunKeepsInv(run: seq<State>, actions: seq<Action>, i: nat)
    requires IsRun(run, actions) && i < |run|
    ensures Inv(run[i])
  {
    if i > 0 {
      RunKeepsInv(run, actions, i - 1);
      assert Leads(run, actions, i - 1);
      StepKeepsInv(run[i - 1], actions[i - 1]);
    }
  }

  // ---------- results ----------

  /** Snapshot and live stream join without a gap and without a duplicate exactly when no chat message
      found the client's channel full; whatever is missed comes after the snapshot. */
  lemma NoGapNoDuplicate(run: seq<State>, actions: seq<Action>, i: nat, c: Client)
    requires IsRun(run, actions) && i < |run| && c in run[i].records
    ensures var s := run[i];
            var r, to := s.records[c], Until(s, c);
            var from := if r.joined < 20 then 0 else r.joined - 20;
            && r.joined <= to <= |s.log|
            && Chats(Stream(s, c)) == Kept(s.log, from, to, r.missed)
            && (forall j | j in r.missed :: r.joined <= j < to)
            && (Chats(Stream(s, c)) == s.log[from..to] <==> r.missed == {})
  {
    RunKeepsInv(run, actions, i);
    var s := run[i];
    var r, to := s.records[c], Until(s, c);
    assert RecordOk(s, c);
    if r.missed == {} {
      NothingMissed(s.log, From(r), to, r.missed);
    } else {
      MissedIsShorter(s.log, From(r), to, r.missed);
      var j :| j in r.missed;
      assert From(r) <= j < to;
    }
  }

  /** Replay into the newcomer's channel never blocks. */
  lemma ReplayNeverBlocks(run: seq<State>, actions: seq<Action>, i: nat, c: Client)
    requires IsRun(run, actions) && i < |actions| && actions[i] == Register(c)
    ensures var h := run[i].hub; Queue(h, c) == [] && |h.history| <= 20 && CAPACITY == 256
  {
    RunKeepsInv(run, actions, i);
    assert Leads(run, actions, i);
  }

  /** The hub itself never meets a closed channel. A read pump that warns its client does, exactly if the
      client no longer holds its name. */
  lemma PanicsIff(run: seq<State>, actions: seq<Action>, i: nat)
    requires IsRun(run, actions) && i < |actions|
    ensures !run[i].panicked
    ensures run[i + 1].panicked <==>
              var h, a := run[i].hub, actions[i];
              a.Warn? && !(a.c.name in h.clients && h.clients[a.c.name] == a.c)
  {
    RunKeepsInv(run, actions, i);
    assert Leads(run, actions, i);
    OnlyWarningsPanic(run[i], actions[i]);
  }

  lemma OnlyWarningsPanic(s: State, a: Action)
    requires RosterOk(s) && Enabled(s, a)
    ensures MeetsClosed(s.hub, a) <==> a.Warn? && !(a.c.name in s.hub.clients && s.hub.clients[a.c.name] == a.c)
    ensures !MeetsClosed(s.hub, a) ==> !Turned(s, a).panicked
  {
    assert forall c | c in s.hub.clients.Values :: c !in s.hub.closed;
    assert a.Register? ==> a.c !in s.hub.closed;
  }

  /** Unregistering removes whoever holds the name: somebody else exactly when the name has been taken
      over since. */
  lemma UnregisterIsSafeIff(s: State, c: Client)
    requires Inv(s) && Enabled(s, Unregister(c)) && c in s.records
    ensures (forall d | d != c && d in s.hub.clients.Values :: d in Next(s, Unregister(c)).hub.clients.Values)
            <==> (c.name in s.hub.clients ==> s.hub.clients[c.name] == c)
  {
    OnlyWarningsPanic(s, Unregister(c));
    var h, t := s.hub, Next(s, Unregister(c)).hub;
    if c.name in h.clients {
      var d := h.clients[c.name];
      assert d in h.clients.Values;
      forall n | n in t.clients
        ensures t.clients[n] != d
      {
        assert t.clients[n].name == n;
      }
    }
    forall d | d in h.clients.Values && d.name != c.name
      ensures d in t.clients.Values
    {
      assert t.clients[d.name] == d;
    }
  }

  /** Two connections of one name, one after the other. */
  lemma TwoConnections(former: Client, newcomer: Client) returns (run: seq<State>, actions: seq<Action>)
    requires former != newcomer && former.name == newcomer.name
    ensures IsRun(run, actions) && actions == [Register(former), Register(newcomer)]
    ensures !run[2].panicked && former in run[2].records && newcomer in run[2].records
    ensures former in run[2].hub.closed && newcomer !in run[2].hub.closed
    ensures run[2].hub.clients == map[newcomer.name := newcomer]
  {
    var one := Next(START, Register(former));
    var two := Next(one, Register(newcomer));
    run, actions := [START, one, two], [Register(former), Register(newcomer)];
    assert Leads(run, actions, 0) && Leads(run, actions, 1);
  }

  lemma Extended(run: seq<State>, actions: seq<Action>, a: Action) returns (run': seq<State>, actions': seq<Action>)
    requires IsRun(run, actions) && Enabled(run[|actions|], a)
    ensures IsRun(run', actions') && run' == run + [Next(run[|actions|], a)] && actions' == actions + [a]
  {
    run', actions' := run + [Next(run[|actions|], a)], actions + [a];
    forall i | 0 <= i < |actions'| ensures Leads(run', actions', i) {
      if i < |actions| {
        assert Leads(run, actions, i);
      }
    }
  }

  /** When two connections get one name, the end of the former throws out the newcomer. */
  lemma LateUnregisterEvictsNewcomer(former: Client, newcomer: Client) returns (run: seq<State>, actions: seq<Action>)
    requires former != newcomer && former.name == newcomer.name
    ensures IsRun(run, actions) && |run| == 4
    ensures actions == [Register(former), Register(newcomer), Unregister(former)]
    ensures newcomer !in run[2].hub.closed && newcomer in run[3].hub.closed
  {
    run, actions := TwoConnections(former, newcomer);
    run, actions := Extended(run, actions, Unregister(former));
  }

  /** ... and a warning to the former is a panic. */
  lemma WarningPanics(former: Client, newcomer: Client, m: Message) returns (run: seq<State>, actions: seq<Action>)
    requires former != newcomer && former.name == newcomer.name && !m.kind.Chat?
    ensures IsRun(run, actions) && |run| == 4
    ensures actions == [Register(former), Register(newcomer), Warn(former, m)]
    ensures !run[2].panicked && run[3].panicked
  {
    run, actions := TwoConnections(former, newcomer);
    run, actions := Extended(run, actions, Warn(former, m));
  }

  lemma NamedSend(s: State, name: string, m: Message, c: Client)
    requires RosterOk(s) && c in s.records
    ensures PutNamed(s.hub, name, m).send.Keys == s.hub.send.Keys
    ensures Queue(PutNamed(s.hub, name, m), c) ==
            Queue(s.hub, c) + if c !in s.hub.closed && c.name == name then [m] else []
  {
    if c !in s.hub.closed {
      assert s.hub.clients[c.name] == c;
    }
  }

  /** A private message is put once into the channel of its sender and of its target, and nowhere else. */
  lemma WhisperReachesTwo(s: State, m: Message, c: Client)
    requires RosterOk(s) && m.kind.Private? && Enabled(s, Handle(m)) && c in s.records
    ensures Queue(Next(s, Handle(m)).hub, c) ==
            Queue(s.hub, c) + if c !in s.hub.closed && (c.name == m.sender || c.name == m.target) then [m] else []
  {
    OnlyWarningsPanic(s, Handle(m));
    var first := s.(hub := PutNamed(s.hub, m.sender, m));
    NamedSend(s, m.sender, m, c);
    SameRoster(s, first);
    if m.target != m.sender {
      NamedSend(first, m.target, m, c);
    }
  }

  // ---------- what a turn does, in plain words ----------

  /** Whom a handled message is for: everybody, or the two parties of a private one. */
  predicate IsFor(m: Message, c: Client) {
    m.kind in {Chat, System, UserList} || (m.kind == Private && c.name in {m.sender, m.target})
  }

  lemma AnnouncementReaches(s: State, m: Message, c: Client)
    requires RosterOk(s) && Enabled(s, Handle(m)) && !m.kind.Private? && c in s.records
    ensures Queue(Handled(s.hub, m), c) ==
            Queue(s.hub, c) +
            if IsFor(m, c) && c !in s.hub.closed && |Queue(s.hub, c)| < 256 then [m] else []
  {
    assert c !in s.hub.closed ==> s.hub.clients[c.name] == c;
    assert c in s.hub.closed ==> c !in s.hub.clients.Values;
  }

  lemma NewcomersQueue(s: State, c: Client)
    requires Inv(s) && Enabled(s, Register(c))
    ensures Queue(Turned(s, Register(c)).hub, c) == s.log[if |s.log| < 20 then 0 else |s.log| - 20..]
  {
    NewcomersChannel(s, c);
  }

  /** What a turn puts into a client's channel, and takes out of it. */
  lemma QueueStep(s: State, a: Action, c: Client)
    requires Inv(s) && Enabled(s, a) && !MeetsClosed(s.hub, a) && c in Next(s, a).records
    ensures var before, after := Queue(s.hub, c), Queue(Next(s, a).hub, c);
            match a
            case Register(d) =>
              after == if d == c then s.log[if |s.log| < 20 then 0 else |s.log| - 20..] else before
            case Handle(m) =>
              var has := c !in s.hub.closed && (m.kind == Private || |before| < 256);
              after == before + if IsFor(m, c) && has then [m] else []
            case Drain(d) => after == if d == c then before[1..] else before
            case Warn(d, m) => after == before + if d == c then [m] else []
            case _ => after == before
  {
    match a
    case Register(d) => NewcomersQueue(s, d);
    case Handle(m) =>
      if m.kind.Private? {
        WhisperReachesTwo(s, m, c);
      } else {
        AnnouncementReaches(s, m, c);
      }
    case _ =>
  }

  function RegisteredAfter(s: State, a: Action): map<string, Client> {
    match a
    case Register(c) => s.hub.clients[c.name := c]
    case Unregister(c) => s.hub.clients - {c.name}
    case Quit => map[]
    case _ => s.hub.clients
  }

  lemma JoinedClients(h: Hub, c: Client)
    ensures Joined(h, c).clients == h.clients[c.name := c]
  {
    assert h.clients[c.name := c] == (h.clients - {c.name})[c.name := c];
  }

  lemma RegisteredStep(s: State, a: Action)
    requires Inv(s) && Enabled(s, a)
    ensures Turned(s, a).hub.clients == RegisteredAfter(s, a)
  {
    if a.Register? {
      JoinedClients(s.hub, a.c);
    } else if a.Handle? && !a.m.kind.Chat? {
      HandledSends(s, a.m);
    }
  }

  lemma KnownStep(s: State, a: Action)
    requires Inv(s) && Enabled(s, a)
    ensures Turned(s, a).records.Keys == s.records.Keys + (if a.Register? then {a.c} else {})
  {
  }

  /** Who is registered under which name after a turn; every other channel is closed then. */
  lemma RosterStep(s: State, a: Action)
    requires Inv(s) && Enabled(s, a) && !MeetsClosed(s.hub, a)
    ensures var t := Next(s, a);
            && t.hub.clients == RegisteredAfter(s, a)
            && t.records.Keys == s.records.Keys + (if a.Register? then {a.c} else {})
            && t.hub.closed == t.records.Keys - t.hub.clients.Values
  {
    RegisteredStep(s, a);
    KnownStep(s, a);
    StepKeepsInv(s, a);
    RosterDecides(Next(s, a));
  }

  lemma RosterDecides(s: State)
    requires RosterOk(s)
    ensures s.hub.closed == s.records.Keys - s.hub.clients.Values
  {
    forall c | c in s.records ensures c in s.hub.closed <==> c !in s.hub.clients.Values {
      if c !in s.hub.closed {
        assert s.hub.clients[c.name] == c;
      }
    }
  }

  /** Quit leaves nobody registered and no channel open. */
  lemma QuitEmpties(run: seq<State>, actions: seq<Action>, i: nat)
    requires IsRun(run, actions) && i < |actions| && actions[i] == Quit
    ensures !run[i + 1].panicked && run[i + 1].hub.clients == map[]
    ensures run[i + 1].hub.closed == run[i + 1].records.Keys
  {
    RunKeepsInv(run, actions, i);
    assert Leads(run, actions, i);
    OnlyWarningsPanic(run[i], Quit);
    RosterStep(run[i], Quit);
  }

  /** What the history variables record: where in the log a client joined, where its channel was closed, and
      which chat messages were handled while 256 messages were waiting in it. */
  ghost predicate Explained(run: seq<State>, actions: seq<Action>, i: nat, c: Client)
    requires |run| == |actions| + 1 && i < |run| && c in run[i].records
  {
    var r := run[i].records[c];
    && (exists k | 0 <= k < i :: actions[k] == Register(c) && r.joined == |run[k].log|)
    && (forall j | j in r.missed :: exists k | 0 <= k < i :: Overflows(run[k], actions[k], c, j))
    && (c in run[i].hub.closed ==>
          exists k | 0 <= k < i :: c !in run[k].hub.closed && c in run[k + 1].hub.closed && r.left == |run[k].log|)
  }

  /** The action handles the chat message that becomes number `j` of the log, and the client's channel is full. */
  ghost predicate Overflows(s: State, a: Action, c: Client, j: nat) {
    a.Handle? && a.m.kind.Chat? && j == |s.log| && c in s.records && |Queue(s.hub, c)| >= 256
  }

  /** What a turn may do to the record of a client known before. */
  ghost predicate RecordMoves(s: State, a: Action, t: State, c: Client)
    requires c in s.records && c in t.records
  {
    var r, r' := s.records[c], t.records[c];
    && r'.joined == r.joined
    && (forall j | j in r'.missed && j !in r.missed :: Overflows(s, a, c, j))
    && (r'.left == if c !in s.hub.closed && c in t.hub.closed then |s.log| else r.left)
    && (c in s.hub.closed ==> c in t.hub.closed)
  }

  lemma HandleRecord(s: State, m: Message, c: Client)
    requires Inv(s) && Enabled(s, Handle(m)) && c in s.records
    ensures c in Turned(s, Handle(m)).records && RecordMoves(s, Handle(m), Turned(s, Handle(m)), c)
  {
    if !m.kind.Chat? {
      HandledSends(s, m);
    }
  }

  lemma OtherRecordMoves(s: State, a: Action, c: Client)
    requires Inv(s) && Enabled(s, a) && !a.Handle? && c in s.records
    ensures c in Turned(s, a).records && RecordMoves(s, a, Turned(s, a), c)
  {
  }

  lemma RecordStep(s: State, a: Action, c: Client)
    requires Inv(s) && Enabled(s, a) && c in Next(s, a).records
    ensures c !in s.records ==>
              a == Register(c) && Next(s, a).records[c] == Record([], |s.log|, 0, {}) && c !in Next(s, a).hub.closed
    ensures c in s.records ==> RecordMoves(s, a, Next(s, a), c)
  {
    if c in s.records {
      if a.Handle? {
        HandleRecord(s, a.m, c);
      } else {
        OtherRecordMoves(s, a, c);
      }
    } else {
      KnownStep(s, a);
      NewcomerIsOpen(s, c);
    }
  }

  lemma {:induction false} RecordsAreExplained(run: seq<State>, actions: seq<Action>, i: nat, c: Client)
    requires IsRun(run, actions) && i < |run| && c in run[i].records
    ensures Explained(run, actions, i, c)
  {
    if i > 0 {
      RunKeepsInv(run, actions, i - 1);
      assert Leads(run, actions, i - 1);
      RecordStep(run[i - 1], actions[i - 1], c);
      if c in run[i - 1].records {
        RecordsAreExplained(run, actions, i - 1, c);
      }
    }
  }
}
