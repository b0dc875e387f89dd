/**
 Where the messages on the bus come from: every one is published once, by the server at which it came
 into being, and bears its author's name and room.
 */
module Origin {
  import opened Options
  import opened RingSpec
  import Sessions
  import opened Delivery
  import SlashCommands

  /** The local messages waiting in `Broadcast`. */
  function Locals(items: seq<Item>): seq<Message> {
    if items == [] then []
    else Locals(items[..|items| - 1]) + (if items[|items| - 1].Local? then [items[|items| - 1].m] else [])
  }

  lemma {:induction false} LocalsTail(items: seq<Item>)
    requires items != []
    ensures Locals(items) == (if items[0].Local? then [items[0].m] else []) + Locals(items[1..])
  {
    if |items| > 1 {
      var front := items[..|items| - 1];
      LocalsTail(front);
      assert items[1..][..|items| - 2] == front[1..];
      assert items[1..][|items| - 2] == items[|items| - 1];
    }
  }

  lemma LocalsMore(items: seq<Item>, item: Item)
    ensures Locals(items + [item]) == Locals(items) + (if item.Local? then [item.m] else [])
  {
    assert (items + [item])[..|items|] == items;
  }

  /** What matters for the origin of messages: the bus, and each server's local and persisted messages. */
  datatype Trace = Trace(bus: seq<Message>, queued: map<ServerId, seq<Message>>,
                         persisted: map<ServerId, seq<Message>>, authors: seq<Option<Sessions.Client>>)

  function TraceOf(c: Cluster): Trace {
    Trace(c.bus, map s | s in c.servers :: Locals(c.servers[s].broadcast),
          map s | s in c.servers :: c.servers[s].persisted, c.authors)
  }

  /** A message bears its author's name and room; without an author it is one of the server's notices. */
  predicate Genuine(m: Message, authors: seq<Option<Sessions.Client>>) {
    && m.serial < |authors|
    && match authors[m.serial]
       case Some(a) => m.sender == a.name && m.room == a.room
       case None => m.kind.UserList? || m.kind.System?
  }

  ghost predicate OnBus(bus: seq<Message>, serial: nat) {
    exists i | 0 <= i < |bus| :: bus[i].serial == serial
  }

  ghost predicate AllApart(m: map<ServerId, seq<Message>>) {
    forall s, t, i, j | s in m && t in m && 0 <= i < |m[s]| && 0 <= j < |m[t]| && m[s][i].serial == m[t][j].serial ::
      s == t && i == j
  }

  ghost predicate TraceOk(t: Trace) {
    && (forall i | 0 <= i < |t.bus| :: Genuine(t.bus[i], t.authors))
    && (forall i, j | 0 <= i < j < |t.bus| :: t.bus[i].serial != t.bus[j].serial)
    && (forall s, i | s in t.queued && 0 <= i < |t.queued[s]| ::
          Genuine(t.queued[s][i], t.authors) && !OnBus(t.bus, t.queued[s][i].serial))
    && AllApart(t.queued)
    && (forall s, i | s in t.persisted && 0 <= i < |t.persisted[s]| ::
          t.persisted[s][i] in t.bus && IsPersisted(t.persisted[s][i].kind))
    && AllApart(t.persisted)
  }

  lemma QueueKeepsTrace(t: Trace, s: ServerId, m: Message, author: Option<Sessions.Client>)
    requires TraceOk(t) && s in t.queued
    requires m.serial == |t.authors| && Genuine(m, t.authors + [author])
    ensures TraceOk(t.(queued := t.queued[s := t.queued[s] + [m]], authors := t.authors + [author]))
  {
  }

  lemma GreetKeepsTrace(t: Trace, m: Message)
    requires TraceOk(t) && m.serial == |t.authors| && Genuine(m, t.authors + [None])
    ensures TraceOk(t.(bus := t.bus + [m], authors := t.authors + [None]))
  {
    forall i | 0 <= i < |t.bus + [m]| ensures Genuine((t.bus + [m])[i], t.authors + [None]) {
      assert i < |t.bus| ==> Genuine(t.bus[i], t.authors);
    }
  }

  lemma DropKeepsTrace(t: Trace, s: ServerId)
    requires TraceOk(t) && s in t.queued && t.queued[s] != []
    ensures TraceOk(t.(queued := t.queued[s := t.queued[s][1..]]))
  {
  }

  lemma MoveKeepsTrace(t: Trace, s: ServerId)
    requires TraceOk(t) && s in t.queued && t.queued[s] != []
    ensures TraceOk(t.(bus := t.bus + [t.queued[s][0]], queued := t.queued[s := t.queued[s][1..]]))
  {
    var m := t.queued[s][0];
    assert Genuine(m, t.authors) && !OnBus(t.bus, m.serial);
  }

  lemma PersistKeepsTrace(t: Trace, s: ServerId, m: Message)
    requires TraceOk(t) && s in t.persisted && m in t.bus && IsPersisted(m.kind)
    requires forall s', i | s' in t.persisted && 0 <= i < |t.persisted[s']| :: t.persisted[s'][i].serial != m.serial
    ensures TraceOk(t.(persisted := t.persisted[s := t.persisted[s] + [m]]))
  {
  }

  lemma ServerTrace(c: Cluster, s: ServerId, sv: Server)
    ensures TraceOf(c.(servers := c.servers[s := sv])) ==
            TraceOf(c).(queued := TraceOf(c).queued[s := Locals(sv.broadcast)],
                        persisted := TraceOf(c).persisted[s := sv.persisted])
  {
  }

  lemma PublishedTrace(c: Cluster, m: Message)
    ensures TraceOf(Published(c, m)) == TraceOf(c).(bus := c.bus + [m])
  {
    var c' := Published(c, m);
    assert forall s | s in c.servers ::
        c'.servers[s].broadcast == c.servers[s].broadcast && c'.servers[s].persisted == c.servers[s].persisted;
  }

  lemma QueuedTrace(c: Cluster, s: ServerId, m: Message, author: Option<Sessions.Client>)
    requires s in c.servers
    ensures var t := TraceOf(c);
            TraceOf(Queued(c, s, m, author)) ==
              t.(queued := t.queued[s := t.queued[s] + [m]], authors := t.authors + [author])
  {
    var sv := c.servers[s].(broadcast := c.servers[s].broadcast + [Local(m)]);
    LocalsMore(c.servers[s].broadcast, Local(m));
    ServerTrace(c, s, sv);
    assert TraceOf(c).persisted[s := sv.persisted] == TraceOf(c).persisted;
  }

  /** The loop takes local message `m` off `Broadcast`: it is dropped, or it moves to the bus and perhaps
      to the persistence queue. */
  lemma TurnLocalTrace(c: Cluster, s: ServerId, published: bool)
    requires s in c.servers && c.servers[s].broadcast != [] && c.servers[s].broadcast[0].Local?
    ensures var t, m := TraceOf(c), c.servers[s].broadcast[0].m;
            && t.queued[s] != [] && t.queued[s][0] == m
            && var dropped := t.(queued := t.queued[s := t.queued[s][1..]]);
            TraceOf(TurnLocal(c, s, m, published)) ==
              if !published then dropped
              else if !IsPersisted(m.kind) then dropped.(bus := t.bus + [m])
              else dropped.(bus := t.bus + [m], persisted := t.persisted[s := t.persisted[s] + [m]])
  {
    var t, sv, m := TraceOf(c), c.servers[s], c.servers[s].broadcast[0].m;
    var rest := sv.(broadcast := sv.broadcast[1..]);
    var kept := rest.(persisted := rest.persisted + [m]);
    LocalsTail(sv.broadcast);
    assert t.queued[s] == [m] + Locals(rest.broadcast);
    ServerTrace(c, s, rest);
    ServerTrace(c, s, kept);
    assert t.persisted[s := rest.persisted] == t.persisted;
    PublishedTrace(c.(servers := c.servers[s := rest]), m);
    PublishedTrace(c.(servers := c.servers[s := kept]), m);
  }

  lemma TurnLocalKeepsTrace(c: Cluster, s: ServerId, published: bool)
    requires TraceOk(TraceOf(c)) && s in c.servers && c.servers[s].broadcast != [] && c.servers[s].broadcast[0].Local?
    ensures TraceOk(TraceOf(TurnLocal(c, s, c.servers[s].broadcast[0].m, published)))
  {
    TurnLocalTrace(c, s, published);
    TakenKeepsTrace(TraceOf(c), s, published);
  }

  lemma TakenKeepsTrace(t: Trace, s: ServerId, published: bool)
    requires TraceOk(t) && s in t.queued && t.queued[s] != [] && t.queued.Keys == t.persisted.Keys
    ensures var m := t.queued[s][0];
            var dropped := t.(queued := t.queued[s := t.queued[s][1..]]);
            && TraceOk(dropped) && TraceOk(dropped.(bus := t.bus + [m]))
            && (IsPersisted(m.kind) ==>
                  TraceOk(dropped.(bus := t.bus + [m], persisted := t.persisted[s := t.persisted[s] + [m]])))
  {
    var m := t.queued[s][0];
    assert Genuine(m, t.authors) && !OnBus(t.bus, m.serial);
    DropKeepsTrace(t, s);
    MoveKeepsTrace(t, s);
    var moved := t.(bus := t.bus + [m], queued := t.queued[s := t.queued[s][1..]]);
    if IsPersisted(m.kind) {
      assert moved.bus[|t.bus|] == m;
      forall s', i | s' in t.persisted && 0 <= i < |t.persisted[s']| ensures t.persisted[s'][i].serial != m.serial {
        assert t.persisted[s'][i] in t.bus;
      }
      PersistKeepsTrace(moved, s, m);
    }
  }

  lemma SameTrace(c: Cluster, s: ServerId, sv: Server)
    requires s in c.servers
    requires Locals(sv.broadcast) == Locals(c.servers[s].broadcast) && sv.persisted == c.servers[s].persisted
    ensures TraceOf(c.(servers := c.servers[s := sv])) == TraceOf(c)
  {
    ServerTrace(c, s, sv);
    var t := TraceOf(c);
    assert t.queued[s := Locals(sv.broadcast)] == t.queued;
    assert t.persisted[s := sv.persisted] == t.persisted;
  }

  /** A message from Redis is neither published nor persisted again, nor queued. */
  lemma RedisIsNeverRepublished(c: Cluster, s: ServerId, full: Full, published: bool)
    requires Enabled(c, Turn(s, full, published)) && c.servers[s].broadcast[0].FromRedis?
    ensures TraceOf(Next(c, Turn(s, full, published))) == TraceOf(c)
  {
    var sv := c.servers[s];
    var at, rest := sv.broadcast[0].at, sv.(broadcast := sv.broadcast[1..]);
    LocalsTail(sv.broadcast);
    assert Locals(rest.broadcast) == Locals(sv.broadcast);
    var sv' := Delivered(rest, c.bus[at], at, full);
    DeliveredFrame(rest, c.bus[at], at, full);
    SameTrace(c, s, sv');
    assert Next(c, Turn(s, full, published)) == c.(servers := c.servers[s := sv']);
  }

  lemma ListenTrace(c: Cluster, s: ServerId)
    requires Enabled(c, Listen(s))
    ensures TraceOf(Next(c, Listen(s))) == TraceOf(c)
  {
    var sv := c.servers[s];
    var dropped := sv.(wire := sv.wire[1..]);
    var moved := dropped.(broadcast := sv.broadcast + [FromRedis(sv.wire[0])]);
    LocalsMore(sv.broadcast, FromRedis(sv.wire[0]));
    assert Locals(moved.broadcast) == Locals(sv.broadcast);
    SameTrace(c, s, dropped);
    SameTrace(c, s, moved);
  }

  lemma StartKeepsTrace(t: Trace, s: ServerId)
    requires TraceOk(t)
    ensures TraceOk(t.(queued := t.queued[s := []], persisted := t.persisted[s := []]))
  {
  }

  lemma StepKeepsTrace(c: Cluster, a: Action)
    requires TraceOk(TraceOf(c)) && Enabled(c, a)
    ensures TraceOk(TraceOf(Next(c, a)))
  {
    var t := TraceOf(c);
    match a {
      case Start(s) =>
        ServerTrace(c, s, NEW_SERVER);
        StartKeepsTrace(t, s);
      case Ingest(s, client, raw) =>
        QueuedTrace(c, s, Stamped(raw, client, |c.authors|), Some(client));
        QueueKeepsTrace(t, s, Stamped(raw, client, |c.authors|), Some(client));
      case Notice(s, room, content) =>
        QueuedTrace(c, s, Message(|c.authors|, UserList, room, "SYSTEM", "", content), None);
        QueueKeepsTrace(t, s, Message(|c.authors|, UserList, room, "SYSTEM", "", content), None);
      case Greet(s, room, content) =>
        PublishedTrace(c.(authors := c.authors + [None]), Message(|c.authors|, System, room, "SYSTEM", "", content));
        GreetKeepsTrace(t, Message(|c.authors|, System, room, "SYSTEM", "", content));
      case Listen(s) => ListenTrace(c, s);
      case Turn(s, full, published) =>
        if c.servers[s].broadcast[0].Local? {
          TurnLocalKeepsTrace(c, s, published);
        } else {
          RedisIsNeverRepublished(c, s, full, published);
        }
      case Take(s, client) => SameTrace(c, s, Next(c, a).servers[s]);
      case Change(s, maps, subs) => SameTrace(c, s, c.servers[s].(maps := maps, subs := subs));
    }
  }

  lemma {:induction false} RunKeepsTrace(run: seq<Cluster>, actions: seq<Action>, n: nat)
    requires IsRun(run, actions) && n < |run|
    ensures TraceOk(TraceOf(run[n]))
  {
    if n > 0 {
      RunKeepsTrace(run, actions, n - 1);
      assert Leads(run, actions, n - 1);
      StepKeepsTrace(run[n - 1], actions[n - 1]);
    }
  }

  /** Every message is published at most once and persisted at most once in the whole cluster, the
      latter only if it was published. */
  lemma NoEcho(run: seq<Cluster>, actions: seq<Action>, n: nat)
    requires IsRun(run, actions) && n < |run|
    ensures forall i, j | 0 <= i < j < |run[n].bus| :: run[n].bus[i].serial != run[n].bus[j].serial
    ensures forall s, i, s', j | s in run[n].servers && s' in run[n].servers
              && 0 <= i < |run[n].servers[s].persisted| && 0 <= j < |run[n].servers[s'].persisted|
              && run[n].servers[s].persisted[i].serial == run[n].servers[s'].persisted[j].serial :: s == s' && i == j
    ensures forall s, m | s in run[n].servers && m in run[n].servers[s].persisted ::
              m in run[n].bus && IsPersisted(m.kind)
  {
    RunKeepsTrace(run, actions, n);
    var t := TraceOf(run[n]);
    forall s, i, s', j | s in run[n].servers && s' in run[n].servers
      && 0 <= i < |run[n].servers[s].persisted| && 0 <= j < |run[n].servers[s'].persisted|
      && run[n].servers[s].persisted[i].serial == run[n].servers[s'].persisted[j].serial
      ensures s == s' && i == j
    {
      assert t.persisted[s][i].serial == t.persisted[s'][j].serial;
    }
    forall s, m | s in run[n].servers && m in run[n].servers[s].persisted
      ensures m in run[n].bus && IsPersisted(m.kind)
    {
      var i :| 0 <= i < |run[n].servers[s].persisted| && run[n].servers[s].persisted[i] == m;
      assert t.persisted[s][i] == m;
    }
  }

  // ---------- what was typed ----------

  /** Message `m` is in the cluster: waiting to be published, published or persisted. */
  ghost predicate IsAround(c: Cluster, m: Message) {
    || m in c.bus
    || exists s :: s in c.servers && (Local(m) in c.servers[s].broadcast || m in c.servers[s].persisted)
  }

  /** `m` is what the client of an Ingest, or the server of a Notice or Greet, said. */
  predicate Says(a: Action, m: Message) {
    match a
    case Ingest(_, c, raw) =>
      Worded(raw) == Some(m.content) && m == Message(m.serial, raw.kind, c.room, c.name, raw.target, m.content)
    case Notice(_, room, content) => m == Message(m.serial, UserList, room, "SYSTEM", "", content)
    case Greet(_, room, content) => m == Message(m.serial, System, room, "SYSTEM", "", content)
    case _ => false
  }

  predicate Author(a: Action, author: Option<Sessions.Client>) {
    author == if a.Ingest? then Some(a.c) else None
  }

  /** A step brings at most one new message about: what it says, with the next serial. */
  ghost predicate NewIsSaid(c: Cluster, a: Action, c': Cluster) {
    && |c.authors| <= |c'.authors| <= |c.authors| + 1 && c'.authors[..|c.authors|] == c.authors
    && forall m | IsAround(c', m) && !IsAround(c, m) ::
         Says(a, m) && m.serial == |c.authors| < |c'.authors| && Author(a, c'.authors[|c.authors|])
  }

  lemma QueuedIsSaid(c: Cluster, s: ServerId, m: Message, author: Option<Sessions.Client>, a: Action)
    requires s in c.servers && Says(a, m) && Author(a, author) && m.serial == |c.authors|
    ensures NewIsSaid(c, a, Queued(c, s, m, author))
  {
    var c' := Queued(c, s, m, author);
    forall n | IsAround(c', n) && !IsAround(c, n) ensures n == m {
      assert n !in c.bus;
      var t :| t in c'.servers && (Local(n) in c'.servers[t].broadcast || n in c'.servers[t].persisted);
      assert !(Local(n) in c.servers[t].broadcast || n in c.servers[t].persisted);
    }
  }

  lemma PublishedAround(c: Cluster, m: Message, n: Message)
    requires IsAround(Published(c, m), n)
    ensures n == m || IsAround(c, n)
  {
    if n !in Published(c, m).bus {
      var t :| t in Published(c, m).servers && (Local(n) in Published(c, m).servers[t].broadcast
                                               || n in Published(c, m).servers[t].persisted);
      assert Local(n) in c.servers[t].broadcast || n in c.servers[t].persisted;
    }
  }

  lemma GreetIsSaid(c: Cluster, a: Action)
    requires Enabled(c, a) && a.Greet?
    ensures NewIsSaid(c, a, Next(c, a))
  {
    var m, c1 := Message(|c.authors|, System, a.room, "SYSTEM", "", a.content), c.(authors := c.authors + [None]);
    forall n | IsAround(Next(c, a), n) && !IsAround(c, n) ensures n == m {
      PublishedAround(c1, m, n);
      assert IsAround(c1, n) <==> IsAround(c, n);
    }
  }

  /** A server none of whose messages is new. */
  ghost predicate NothingNew(sv: Server, sv': Server) {
    && (forall m | Local(m) in sv'.broadcast :: Local(m) in sv.broadcast)
    && (forall m | m in sv'.persisted :: m in sv.persisted || Local(m) in sv.broadcast)
  }

  lemma NothingNewAround(c: Cluster, s: ServerId, sv: Server, m: Message)
    requires s in c.servers && NothingNew(c.servers[s], sv)
    requires IsAround(c.(servers := c.servers[s := sv]), m)
    ensures IsAround(c, m)
  {
    if m !in c.bus {
      var after := c.servers[s := sv];
      var t :| t in after && (Local(m) in after[t].broadcast || m in after[t].persisted);
      assert t in c.servers && (Local(m) in c.servers[t].broadcast || m in c.servers[t].persisted);
    }
  }

  lemma LocalTurnIsSaid(c: Cluster, a: Action)
    requires Enabled(c, a) && a.Turn? && c.servers[a.s].broadcast[0].Local?
    ensures forall n | IsAround(Next(c, a), n) :: IsAround(c, n)
  {
    var sv, m := c.servers[a.s], c.servers[a.s].broadcast[0].m;
    var rest := sv.(broadcast := sv.broadcast[1..]);
    var kept := if a.published && IsPersisted(m.kind) then rest.(persisted := rest.persisted + [m]) else rest;
    var c1 := c.(servers := c.servers[a.s := kept]);
    assert sv.broadcast[0] in sv.broadcast && IsAround(c, m);
    assert NothingNew(sv, kept);
    forall n | IsAround(Next(c, a), n) ensures IsAround(c, n) {
      if a.published {
        assert Next(c, a) == Published(c1, m);
        PublishedAround(c1, m, n);
      }
      if n != m {
        NothingNewAround(c, a.s, kept, n);
      }
    }
  }

  lemma DeliveryIsSaid(c: Cluster, a: Action)
    requires Enabled(c, a) && a.Turn? && c.servers[a.s].broadcast[0].FromRedis?
    ensures forall n | IsAround(Next(c, a), n) :: IsAround(c, n)
  {
    var sv, at := c.servers[a.s], c.servers[a.s].broadcast[0].at;
    var rest := sv.(broadcast := sv.broadcast[1..]);
    var sv' := Delivered(rest, c.bus[at], at, a.full);
    DeliveredFrame(rest, c.bus[at], at, a.full);
    assert NothingNew(sv, sv');
    forall n | IsAround(Next(c, a), n) ensures IsAround(c, n) {
      NothingNewAround(c, a.s, sv', n);
    }
  }

  lemma OtherIsSaid(c: Cluster, a: Action)
    requires Enabled(c, a) && (a.Listen? || a.Take? || a.Change?)
    ensures forall n | IsAround(Next(c, a), n) :: IsAround(c, n)
  {
    var sv' := Next(c, a).servers[a.s];
    assert Next(c, a) == c.(servers := c.servers[a.s := sv']);
    assert NothingNew(c.servers[a.s], sv');
    forall n | IsAround(Next(c, a), n) ensures IsAround(c, n) {
      NothingNewAround(c, a.s, sv', n);
    }
  }

  lemma StartIsSaid(c: Cluster, s: ServerId)
    requires Enabled(c, Start(s))
    ensures forall n | IsAround(Next(c, Start(s)), n) :: IsAround(c, n)
  {
    var after := Next(c, Start(s)).servers;
    forall n | IsAround(Next(c, Start(s)), n) ensures IsAround(c, n) {
      if n !in c.bus {
        var t :| t in after && (Local(n) in after[t].broadcast || n in after[t].persisted);
        assert t in c.servers;
      }
    }
  }

  lemma StepIsSaid(c: Cluster, a: Action)
    requires Enabled(c, a)
    ensures NewIsSaid(c, a, Next(c, a))
  {
    match a
    case Start(s) => StartIsSaid(c, s);
    case Ingest(s, client, raw) => QueuedIsSaid(c, s, Stamped(raw, client, |c.authors|), Some(client), a);
    case Notice(s, room, content) =>
      QueuedIsSaid(c, s, Message(|c.authors|, UserList, room, "SYSTEM", "", content), None, a);
    case Greet(_, _, _) => GreetIsSaid(c, a);
    case Turn(s, _, _) =>
      if c.servers[s].broadcast[0].Local? {
        LocalTurnIsSaid(c, a);
      } else {
        DeliveryIsSaid(c, a);
      }
    case _ => OtherIsSaid(c, a);
  }

  /** One of the first `n` actions said `m`, and its author is who `authors` says. */
  ghost predicate WasSaid(actions: seq<Action>, n: nat, m: Message, author: Option<Sessions.Client>)
    requires n <= |actions|
  {
    exists k {:trigger Says(actions[k], m)} | 0 <= k < n :: Says(actions[k], m) && Author(actions[k], author)
  }

  lemma NothingAroundAtFirst(m: Message)
    ensures !IsAround(NO_SERVERS, m)
  {
  }

  /** Whatever is published or persisted, or waits to be, is what a client has typed, or the server has said, in
      the room and under the name of who did. */
  lemma {:induction false} AllWasSaid(run: seq<Cluster>, actions: seq<Action>, n: nat, m: Message)
    requires IsRun(run, actions) && n <= |actions| && IsAround(run[n], m)
    ensures m.serial < |run[n].authors| && WasSaid(actions, n, m, run[n].authors[m.serial])
  {
    if n == 0 {
      NothingAroundAtFirst(m);
    } else {
      assert Leads(run, actions, n - 1);
      var c, a := run[n - 1], actions[n - 1];
      StepIsSaid(c, a);
      if IsAround(c, m) {
        AllWasSaid(run, actions, n - 1, m);
        assert run[n].authors[m.serial] == run[n].authors[..|c.authors|][m.serial] == c.authors[m.serial];
        var k :| 0 <= k < n - 1 && Says(actions[k], m) && Author(actions[k], c.authors[m.serial]);
        assert Says(actions[k], m) && Author(actions[k], run[n].authors[m.serial]);
      } else {
        assert Says(actions[n - 1], m) && Author(actions[n - 1], run[n].authors[m.serial]);
      }
    }
  }

  /** `m` is what `a` typed: its kind, target and content, under the name and room of `a`. Only slash commands
      change the content. */
  predicate IsAsTyped(m: Message, a: Sessions.Client, raw: Message) {
    && m == Message(m.serial, raw.kind, a.room, a.name, raw.target, m.content)
    && (raw.kind == Chat && raw.content != "" && raw.content[0] == '/' ==>
          SlashCommands.Said(raw.content) == Some(m.content))
    && (!(raw.kind == Chat && raw.content != "" && raw.content[0] == '/') ==> m.content == raw.content)
  }

  /** So a message on the bus that has an author is what the author typed: its kind, target and content, under
      the author's name and room. */
  lemma PublishedAsTyped(run: seq<Cluster>, actions: seq<Action>, n: nat, m: Message)
    requires IsRun(run, actions) && n <= |actions|
    requires m in run[n].bus || exists s :: s in run[n].servers && m in run[n].servers[s].persisted
    ensures m.serial < |run[n].authors|
    ensures match run[n].authors[m.serial]
            case Some(a) =>
              exists k :: 0 <= k < n && actions[k].Ingest? && actions[k].c == a && IsAsTyped(m, a, actions[k].raw)
            case None => m.sender == "SYSTEM" && m.kind in {UserList, System}
  {
    AllWasSaid(run, actions, n, m);
    var k :| 0 <= k < n && Says(actions[k], m) && Author(actions[k], run[n].authors[m.serial]);
    if actions[k].Ingest? {
      SaysAsTyped(actions[k], m);
    }
  }

  lemma SaysAsTyped(a: Action, m: Message)
    requires a.Ingest? && Says(a, m)
    ensures IsAsTyped(m, a.c, a.raw)
  {
    if a.raw.content == "" || a.raw.content[0] != '/' {
      SlashCommands.PlainIsSaid(a.raw.content);
    }
  }

  // ---------- what is persisted ----------

  /** Everything on the bus that is to be persisted is. */
  ghost predicate BusPersisted(c: Cluster) {
    forall m | m in c.bus && m.kind in {Chat, Private, Ack} :: exists s :: s in c.servers && m in c.servers[s].persisted
  }

  lemma PersistedStays(c: Cluster, a: Action, s: ServerId)
    requires Enabled(c, a) && s in c.servers
    ensures s in Next(c, a).servers
    ensures c.servers[s].persisted <= Next(c, a).servers[s].persisted
  {
    if a.Turn? && a.s == s && c.servers[s].broadcast[0].FromRedis? {
      var at := c.servers[s].broadcast[0].at;
      DeliveredFrame(c.servers[s].(broadcast := c.servers[s].broadcast[1..]), c.bus[at], at, a.full);
    }
  }

  /** A step publishes at most one message, and persists it if it is of the kinds to be persisted. */
  lemma PublishedIsPersisted(c: Cluster, a: Action, m: Message)
    requires Enabled(c, a) && m in Next(c, a).bus && m !in c.bus && m.kind in {Chat, Private, Ack}
    ensures a.Turn? && a.s in Next(c, a).servers && m in Next(c, a).servers[a.s].persisted
  {
    if a.Turn? && c.servers[a.s].broadcast[0].Local? {
      TurnLocalTrace(c, a.s, a.published);
      assert TraceOf(Next(c, a)).persisted[a.s] == Next(c, a).servers[a.s].persisted;
    }
  }

  lemma StepKeepsPersisted(c: Cluster, a: Action)
    requires BusPersisted(c) && Enabled(c, a)
    ensures BusPersisted(Next(c, a))
  {
    var c' := Next(c, a);
    forall m | m in c'.bus && m.kind in {Chat, Private, Ack}
      ensures exists s :: s in c'.servers && m in c'.servers[s].persisted
    {
      if m in c.bus {
        var s :| s in c.servers && m in c.servers[s].persisted;
        PersistedStays(c, a, s);
      } else {
        PublishedIsPersisted(c, a, m);
      }
    }
  }

  lemma {:induction false} RunKeepsPersisted(run: seq<Cluster>, actions: seq<Action>, n: nat)
    requires IsRun(run, actions) && n < |run|
    ensures BusPersisted(run[n])
  {
    if n > 0 {
      RunKeepsPersisted(run, actions, n - 1);
      assert Leads(run, actions, n - 1);
      StepKeepsPersisted(run[n - 1], actions[n - 1]);
    }
  }

  /** In the whole cluster a message goes to a persistence queue if and only if it has been published and is a
      chat message, a private message or an acknowledgement. */
  lemma PersistedIff(run: seq<Cluster>, actions: seq<Action>, n: nat, m: Message)
    requires IsRun(run, actions) && n < |run|
    ensures (exists s :: s in run[n].servers && m in run[n].servers[s].persisted)
            <==> m in run[n].bus && m.kind in {Chat, Private, Ack}
  {
    NoEcho(run, actions, n);
    RunKeepsPersisted(run, actions, n);
  }

  /** Rooms are isolated: what a client receives live comes from the bus, in bus order, was meant for its
      own room, and if somebody typed it, was typed so by a client of that room; a private message reaches only
      its sender and its target; and nothing comes twice but a private message to oneself. */
  lemma RoomIsolation(run: seq<Cluster>, actions: seq<Action>, n: nat, s: ServerId, c: Sessions.Client, i: nat)
    requires IsRun(run, actions) && n < |run| && s in run[n].servers
    requires i < |LiveOf(run[n].servers[s], c)|
    ensures var stream := LiveOf(run[n].servers[s], c);
            && stream[i] < |run[n].bus|
            && var m := run[n].bus[stream[i]];
            && m.room == c.room && m.serial < |run[n].authors|
            && (run[n].authors[m.serial].Some? ==>
                  var a := run[n].authors[m.serial].value;
                  && a.room == c.room && a.name == m.sender
                  && exists k :: 0 <= k < n && actions[k].Ingest? && actions[k].c == a
                       && IsAsTyped(m, a, actions[k].raw))
            && (m.kind.Private? ==> c.name == m.sender || c.name == m.target)
            && (forall j | i < j < |stream| :: stream[i] < stream[j] ||
                  (stream[i] == stream[j] && m.kind.Private? && m.sender == m.target))
  {
    RunKeepsOrder(run, actions, n);
    RunKeepsTrace(run, actions, n);
    assert ServerOk(run[n].bus, run[n].servers[s]);
    assert Genuine(TraceOf(run[n]).bus[LiveOf(run[n].servers[s], c)[i]], run[n].authors);
    PublishedAsTyped(run, actions, n, run[n].bus[LiveOf(run[n].servers[s], c)[i]]);
  }
}
