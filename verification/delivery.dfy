/**
 Redis-first delivery (internal/chat/hub.go, internal/chat/client.go): a message typed at one server is
 published to its room's Redis channel, comes back to every server subscribed to that channel, and only
 then is handed to clients, without blocking. All servers share one Redis, which keeps one publication
 order; every step of every server interleaves freely.
 */
module Delivery {
  import opened Options
  import opened RingSpec
  import opened Sessions
  import SlashCommands

  datatype Kind = Chat | Private | System | UserList | Ack | Typing | Kick

  /** `serial` is history: it numbers messages in the order they came into being. The ids of the source
      are chosen by clients and may repeat. */
  datatype Message = Message(serial: nat, kind: Kind, room: string, sender: string, target: string, content: string)

  /** An entry of the `Broadcast` channel; a message from Redis is known by its place on the bus. */
  datatype Item = Local(m: Message) | FromRedis(at: nat)

  /** `wire` holds what Redis has sent to this server and `ListenToRedis` has not yet read. `live` is
      history: for each client, the places on the bus of what was put into its `Send` channel by delivery;
      its write pump has taken the first `taken` of them. `persisted` is what went to the persistence queue. */
  datatype Server = Server(maps: Maps, subs: set<string>, wire: seq<nat>, broadcast: seq<Item>,
                           live: map<Client, seq<nat>>, taken: map<Client, nat>, persisted: seq<Message>)

  /** `bus` is everything published, in Redis's order; the channel is the message's room. `authors` is
      history: who typed each message, by serial; nobody, for the server's own notices. */
  datatype Cluster = Cluster(servers: map<ServerId, Server>, bus: seq<Message>, authors: seq<Option<Client>>)

  const NEW_SERVER := Server(NO_SESSIONS, {}, [], [], map[], map[], [])
  const NO_SERVERS := Cluster(map[], [], [])

  /** The clients that a message finds with a full channel; a private message is sent twice. Replayed history
      and warnings take up space, too, so that a channel may be full of other things. */
  datatype Full = Full(first: set<Client>, second: set<Client>)

  datatype Action =
    | Start(s: ServerId)
    | Ingest(s: ServerId, c: Client, raw: Message)                  // ReadPump
    | Notice(s: ServerId, room: string, content: string)            // broadcastUserList
    | Greet(s: ServerId, room: string, content: string)             // the join message, published directly
    | Listen(s: ServerId)                                           // ListenToRedis
    | Turn(s: ServerId, full: Full, published: bool)                // Run, Broadcast case
    | Take(s: ServerId, c: Client)                                  // WritePump
    | Change(s: ServerId, maps: Maps, subs: set<string>)            // any session coming or going

  // ---------- steps ----------

  predicate IsSignal(content: string) {
    "JOIN:" <= content || "LEAVE:" <= content
  }

  /** What `ListenToRedis` hands on: signals and kicks (which it knows by the type of an ack) end there,
      and so does a chat message that looks like a signal. */
  predicate Passes(m: Message) {
    !IsSignal(m.content) && !m.kind.Ack?
  }

  /** What a typed message says, its slash command carried out; nothing, if it is answered at once. */
  function Worded(raw: Message): Option<string> {
    if raw.kind.Chat? then SlashCommands.Said(raw.content) else Some(raw.content)
  }

  /** The identity and room that `ReadPump` forces on a message, whatever its JSON claims. */
  function Stamped(raw: Message, c: Client, serial: nat): Message
    requires Worded(raw).Some?
  {
    raw.(serial := serial, sender := c.name, room := c.room, content := Worded(raw).value)
  }

  function LiveOf(sv: Server, c: Client): seq<nat> {
    if c in sv.live then sv.live[c] else []
  }

  function Put(sv: Server, c: Client, at: nat): Server {
    sv.(live := sv.live[c := LiveOf(sv, c) + [at]])
  }

  /** A private message or ack goes to the named client, unless its buffer is full. */
  function PutNamed(sv: Server, name: string, full: set<Client>, at: nat): Server {
    if name !in sv.maps.allClients || sv.maps.allClients[name] in full then sv
    else Put(sv, sv.maps.allClients[name], at)
  }

  predicate InRoom(sv: Server, name: string, room: string) {
    name in sv.maps.allClients && sv.maps.allClients[name].room == room
  }

  /** A private message goes to its target first. */
  function DeliveredToTarget(sv: Server, m: Message, at: nat, full: Full): Server {
    if InRoom(sv, m.target, m.room) then PutNamed(sv, m.target, full.first, at) else sv
  }

  /** The delivery of message `m`, at place `at` on the bus; the channels of `full` have no space. */
  function Delivered(sv: Server, m: Message, at: nat, full: Full): Server {
    match m.kind
    case Private =>
      var first := DeliveredToTarget(sv, m, at, full);
      if InRoom(sv, m.sender, m.room) then PutNamed(first, m.sender, full.second, at) else first
    case Ack => PutNamed(sv, m.target, full.first, at)
    case Kick => sv
    case _ =>
      if m.room !in sv.maps.rooms then sv
      else
        var got := sv.maps.rooms[m.room] - full.first;
        sv.(live := map c | c in sv.live.Keys + got :: if c in got then LiveOf(sv, c) + [at] else LiveOf(sv, c))
  }

  /** Redis appends to the bus and sends to every server subscribed to the room. */
  function Published(c: Cluster, m: Message): Cluster {
    c.(bus := c.bus + [m],
       servers := map s | s in c.servers ::
         if m.room in c.servers[s].subs then c.servers[s].(wire := c.servers[s].wire + [|c.bus|]) else c.servers[s])
  }

  predicate IsPersisted(k: Kind) {
    k.Chat? || k.Private? || k.Ack?
  }

  function TakenBy(sv: Server, c: Client): nat {
    if c in sv.taken then sv.taken[c] else 0
  }

  /** A channel holding as many live messages as it can is full. */
  ghost predicate CountsFull(sv: Server, full: set<Client>) {
    forall c | c in sv.live && |sv.live[c]| >= TakenBy(sv, c) + CAPACITY :: c in full
  }

  /** `full` is possible: at both sends of a private message. */
  ghost predicate CanBeFull(sv: Server, m: Message, at: nat, full: Full) {
    && CountsFull(sv, full.first)
    && (m.kind.Private? ==> CountsFull(DeliveredToTarget(sv, m, at, full), full.second))
  }

  ghost predicate Enabled(c: Cluster, a: Action) {
    match a
    case Start(s) => s !in c.servers
    case Ingest(s, _, raw) => s in c.servers && Worded(raw).Some?
    case Listen(s) => s in c.servers && c.servers[s].wire != [] && c.servers[s].wire[0] < |c.bus|
    case Turn(s, full, _) =>
      && s in c.servers && c.servers[s].broadcast != []
      && (c.servers[s].broadcast[0].FromRedis? ==>
            var at := c.servers[s].broadcast[0].at;
            at < |c.bus| && CanBeFull(c.servers[s], c.bus[at], at, full))
    case Take(s, client) => s in c.servers && TakenBy(c.servers[s], client) < |LiveOf(c.servers[s], client)|
    case Change(s, maps, _) => s in c.servers && Filed(maps)
    case _ => a.s in c.servers
  }

  /** Clients are filed under their own rooms and names, ... */
  ghost predicate Filed(m: Maps) {
    && (forall r, c | r in m.rooms && c in m.rooms[r] :: c.room == r)
    && (forall n | n in m.allClients :: m.allClients[n].name == n)
  }

  /** ... which is what module Sessions shows. */
  lemma AgreeingIsFiled(m: Maps)
    requires Agree(m)
    ensures Filed(m)
  {
  }

  function Queued(c: Cluster, s: ServerId, m: Message, author: Option<Client>): Cluster
    requires s in c.servers
  {
    var sv := c.servers[s];
    c.(servers := c.servers[s := sv.(broadcast := sv.broadcast + [Local(m)])], authors := c.authors + [author])
  }

  /** The loop takes a local message off `Broadcast`. */
  function TurnLocal(c: Cluster, s: ServerId, m: Message, published: bool): Cluster
    requires s in c.servers && c.servers[s].broadcast != []
  {
    var rest := c.servers[s].(broadcast := c.servers[s].broadcast[1..]);
    if !published then c.(servers := c.servers[s := rest])
    else
      var kept := if IsPersisted(m.kind) then rest.(persisted := rest.persisted + [m]) else rest;
      Published(c.(servers := c.servers[s := kept]), m)
  }

  ghost function Next(c: Cluster, a: Action): Cluster
    requires Enabled(c, a)
  {
    match a
    case Start(s) => c.(servers := c.servers[s := NEW_SERVER])
    case Ingest(s, client, raw) => Queued(c, s, Stamped(raw, client, |c.authors|), Some(client))
    case Notice(s, room, content) =>
      Queued(c, s, Message(|c.authors|, UserList, room, "SYSTEM", "", content), None)
    case Greet(s, room, content) =>
      Published(c.(authors := c.authors + [None]), Message(|c.authors|, System, room, "SYSTEM", "", content))
    case Listen(s) =>
      var sv := c.servers[s];
      var m, rest := c.bus[sv.wire[0]], sv.(wire := sv.wire[1..]);
      c.(servers := c.servers[s := if Passes(m) then rest.(broadcast := rest.broadcast + [FromRedis(sv.wire[0])])
                                   else rest])
    case Turn(s, full, published) =>
      var sv := c.servers[s];
      (match sv.broadcast[0]
       case Local(m) => TurnLocal(c, s, m, published)
       case FromRedis(at) =>
         c.(servers := c.servers[s := Delivered(sv.(broadcast := sv.broadcast[1..]), c.bus[at], at, full)]))
    case Take(s, client) =>
      var sv := c.servers[s];
      c.(servers := c.servers[s := sv.(taken := sv.taken[client := TakenBy(sv, client) + 1])])
    case Change(s, maps, subs) => c.(servers := c.servers[s := c.servers[s].(maps := maps, subs := subs)])
  }

  ghost predicate Leads(run: seq<Cluster>, actions: seq<Action>, i: nat)
    requires i < |actions| && |run| == |actions| + 1
  {
    Enabled(run[i], actions[i]) && run[i + 1] == Next(run[i], actions[i])
  }

  ghost predicate IsRun(run: seq<Cluster>, actions: seq<Action>) {
    && |run| == |actions| + 1 && run[0] == NO_SERVERS
    && forall i {:trigger Leads(run, actions, i)} | 0 <= i < |actions| :: Leads(run, actions, i)
  }

  // ---------- order ----------

  ghost predicate Rising(s: seq<nat>) {
    forall i, j | 0 <= i < j < |s| :: s[i] < s[j]
  }

  /** The places on the bus waiting in `Broadcast`. */
  function Waiting(items: seq<Item>): seq<nat> {
    if items == [] then []
    else Waiting(items[..|items| - 1]) + (if items[|items| - 1].FromRedis? then [items[|items| - 1].at] else [])
  }

  /** Still to come at this server, in the order it will come. */
  function ToCome(sv: Server): seq<nat> {
    Waiting(sv.broadcast) + sv.wire
  }

  /** Who may receive a message: clients of its room; a private one, its sender and target only. */
  predicate MayReceive(m: Message, c: Client) {
    && c.room == m.room && !m.kind.Ack? && !m.kind.Kick?
    && (m.kind.Private? ==> c.name == m.sender || c.name == m.target)
  }

  /** A stream goes up the bus; only a private message to oneself comes more than once. */
  ghost predicate StreamOk(bus: seq<Message>, c: Client, stream: seq<nat>) {
    && (forall i | 0 <= i < |stream| :: stream[i] < |bus| && MayReceive(bus[stream[i]], c))
    && (forall i, j | 0 <= i < j < |stream| ::
          stream[i] < stream[j] || (stream[i] == stream[j] && bus[stream[i]].kind.Private?
                                    && bus[stream[i]].sender == bus[stream[i]].target))
  }

  /** All of `stream` is below all of `next`. */
  ghost predicate Below(stream: seq<nat>, next: seq<nat>) {
    forall i, j | 0 <= i < |stream| && 0 <= j < |next| :: stream[i] < next[j]
  }

  ghost predicate ServerOk(bus: seq<Message>, sv: Server) {
    && Filed(sv.maps)
    && Rising(ToCome(sv)) && (forall i | 0 <= i < |ToCome(sv)| :: ToCome(sv)[i] < |bus|)
    && (forall item | item in sv.broadcast && item.FromRedis? :: item.at < |bus| && Passes(bus[item.at]))
    && (forall c | c in sv.live :: StreamOk(bus, c, sv.live[c]) && Below(sv.live[c], ToCome(sv)))
  }

  ghost predicate Ordered(c: Cluster) {
    forall s {:trigger ServerOk(c.bus, c.servers[s])} | s in c.servers :: ServerOk(c.bus, c.servers[s])
  }

  lemma {:induction false} WaitingTail(items: seq<Item>)
    requires items != []
    ensures Waiting(items) == (if items[0].FromRedis? then [items[0].at] else []) + Waiting(items[1..])
  {
    if |items| > 1 {
      var front := items[..|items| - 1];
      WaitingTail(front);
      assert items[1..][..|items| - 2] == front[1..];
      assert items[1..][|items| - 2] == items[|items| - 1];
    }
  }

  lemma WaitingMore(items: seq<Item>, item: Item)
    ensures Waiting(items + [item]) == Waiting(items) + (if item.FromRedis? then [item.at] else [])
  {
    assert (items + [item])[..|items|] == items;
  }

  lemma StreamGrows(bus: seq<Message>, c: Client, stream: seq<nat>, at: nat)
    requires StreamOk(bus, c, stream) && at < |bus| && MayReceive(bus[at], c)
    requires forall i | 0 <= i < |stream| ::
               stream[i] < at || (stream[i] == at && bus[at].kind.Private? && bus[at].sender == bus[at].target)
    ensures StreamOk(bus, c, stream + [at])
  {
  }

  lemma StreamOnLongerBus(bus: seq<Message>, m: Message, c: Client, stream: seq<nat>)
    requires StreamOk(bus, c, stream)
    ensures StreamOk(bus + [m], c, stream)
  {
  }

  /** Every stream is in order and stays below what comes after place `at`; only `first`, if anyone,
      has already got `at`. */
  ghost predicate Receiving(bus: seq<Message>, sv: Server, at: nat, after: seq<nat>, first: Option<string>) {
    && at < |bus| && Filed(sv.maps)
    && (forall c | c in sv.live ::
          && StreamOk(bus, c, sv.live[c]) && Below(sv.live[c], after)
          && forall i | 0 <= i < |sv.live[c]| :: sv.live[c][i] < at || (sv.live[c][i] == at && first == Some(c.name)))
  }

  lemma PutKeepsReceiving(bus: seq<Message>, sv: Server, at: nat, after: seq<nat>, first: Option<string>, c: Client)
    requires Receiving(bus, sv, at, after, first) && MayReceive(bus[at], c) && Below([at], after)
    requires first == Some(c.name) ==> bus[at].kind.Private? && bus[at].sender == bus[at].target
    requires first == None || first == Some(c.name)
    ensures Receiving(bus, Put(sv, c, at), at, after, Some(c.name))
  {
    assert forall j | 0 <= j < |after| :: [at][0] < after[j];
    StreamGrows(bus, c, LiveOf(sv, c), at);
  }

  ghost predicate StreamsOk(bus: seq<Message>, sv: Server, after: seq<nat>) {
    forall c | c in sv.live :: StreamOk(bus, c, sv.live[c]) && Below(sv.live[c], after)
  }

  lemma PutKeepsStreams(bus: seq<Message>, sv: Server, at: nat, after: seq<nat>, first: Option<string>, c: Client)
    requires Receiving(bus, sv, at, after, first) && MayReceive(bus[at], c) && Below([at], after)
    requires first == Some(c.name) ==> bus[at].kind.Private? && bus[at].sender == bus[at].target
    ensures StreamsOk(bus, Put(sv, c, at), after)
  {
    assert forall j | 0 <= j < |after| :: [at][0] < after[j];
    StreamGrows(bus, c, LiveOf(sv, c), at);
  }

  lemma PrivateKeepsStreams(bus: seq<Message>, sv: Server, at: nat, after: seq<nat>, full: Full)
    requires Receiving(bus, sv, at, after, None) && Below([at], after) && bus[at].kind.Private?
    ensures StreamsOk(bus, Delivered(sv, bus[at], at, full), after)
  {
    var m := bus[at];
    var toTarget := InRoom(sv, m.target, m.room) && sv.maps.allClients[m.target] !in full.first;
    var toSender := InRoom(sv, m.sender, m.room) && sv.maps.allClients[m.sender] !in full.second;
    var one := if toTarget then Put(sv, sv.maps.allClients[m.target], at) else sv;
    var first := if toTarget then Some(m.target) else None;
    assert Delivered(sv, m, at, full) == if toSender then Put(one, sv.maps.allClients[m.sender], at) else one;
    assert Receiving(bus, one, at, after, first) by {
      if toTarget {
        PutKeepsReceiving(bus, sv, at, after, None, sv.maps.allClients[m.target]);
      }
    }
    if toSender {
      PutKeepsStreams(bus, one, at, after, first, sv.maps.allClients[m.sender]);
    }
  }

  lemma DeliveredKeepsStreams(bus: seq<Message>, sv: Server, at: nat, after: seq<nat>, full: Full)
    requires Receiving(bus, sv, at, after, None) && Below([at], after) && !bus[at].kind.Ack?
    ensures StreamsOk(bus, Delivered(sv, bus[at], at, full), after)
  {
    var m, sv' := bus[at], Delivered(sv, bus[at], at, full);
    if m.kind.Private? {
      PrivateKeepsStreams(bus, sv, at, after, full);
    } else {
      assert forall j | 0 <= j < |after| :: [at][0] < after[j];
      forall c | c in sv'.live ensures StreamOk(bus, c, sv'.live[c]) && Below(sv'.live[c], after) {
        if c !in sv.live || sv'.live[c] != sv.live[c] {
          assert c in sv.maps.rooms[m.room];
          StreamGrows(bus, c, LiveOf(sv, c), at);
        }
      }
    }
  }

  lemma BelowSuffix(stream: seq<nat>, next: seq<nat>, k: nat)
    requires k <= |next| && Below(stream, next)
    ensures Below(stream, next[k..])
  {
  }

  lemma RisingSuffix(next: seq<nat>, k: nat)
    requires k <= |next| && Rising(next)
    ensures Rising(next[k..]) && (k > 0 ==> Below(next[..1], next[k..]))
  {
  }

  /** Delivery touches the live streams only. */
  lemma DeliveredFrame(sv: Server, m: Message, at: nat, full: Full)
    ensures var sv' := Delivered(sv, m, at, full); sv' == sv.(live := sv'.live)
  {
  }

  lemma PopShape(sv: Server) returns (k: nat)
    requires sv.broadcast != []
    ensures k == (if sv.broadcast[0].FromRedis? then 1 else 0) && k <= |ToCome(sv)|
    ensures ToCome(sv.(broadcast := sv.broadcast[1..])) == ToCome(sv)[k..]
    ensures k == 1 ==> ToCome(sv)[..1] == [sv.broadcast[0].at]
  {
    k := if sv.broadcast[0].FromRedis? then 1 else 0;
    WaitingTail(sv.broadcast);
  }

  lemma PopKeepsOk(bus: seq<Message>, sv: Server)
    requires ServerOk(bus, sv) && sv.broadcast != []
    ensures ServerOk(bus, sv.(broadcast := sv.broadcast[1..]))
  {
    var rest, next := sv.(broadcast := sv.broadcast[1..]), ToCome(sv);
    var k := PopShape(sv);
    RisingSuffix(next, k);
    assert forall i | 0 <= i < |next| - k :: next[k..][i] == next[i + k];
    assert forall item | item in rest.broadcast :: item in sv.broadcast;
    forall c | c in sv.live ensures Below(sv.live[c], ToCome(rest)) {
      BelowSuffix(sv.live[c], next, k);
    }
  }

  lemma PopReceiving(bus: seq<Message>, sv: Server)
    requires ServerOk(bus, sv) && sv.broadcast != [] && sv.broadcast[0].FromRedis?
    ensures var rest, at := sv.(broadcast := sv.broadcast[1..]), sv.broadcast[0].at;
            && Receiving(bus, rest, at, ToCome(rest), None)
            && Below([at], ToCome(rest)) && Passes(bus[at])
  {
    var rest, next, at := sv.(broadcast := sv.broadcast[1..]), ToCome(sv), sv.broadcast[0].at;
    var k := PopShape(sv);
    RisingSuffix(next, 1);
    assert sv.broadcast[0] in sv.broadcast;
    assert next[0] == next[..1][0] == at;
    forall c | c in sv.live ensures Below(sv.live[c], ToCome(rest)) {
      BelowSuffix(sv.live[c], next, 1);
    }
  }

  lemma TurnKeepsOk(bus: seq<Message>, sv: Server, full: Full)
    requires ServerOk(bus, sv) && sv.broadcast != [] && sv.broadcast[0].FromRedis?
    ensures var at := sv.broadcast[0].at;
            at < |bus| && ServerOk(bus, Delivered(sv.(broadcast := sv.broadcast[1..]), bus[at], at, full))
  {
    PopKeepsOk(bus, sv);
    PopReceiving(bus, sv);
    var at, rest := sv.broadcast[0].at, sv.(broadcast := sv.broadcast[1..]);
    DeliveredKeepsStreams(bus, rest, at, ToCome(rest), full);
    var sv' := Delivered(rest, bus[at], at, full);
    DeliveredFrame(rest, bus[at], at, full);
    assert ToCome(sv') == ToCome(rest);
  }

  lemma ListenKeepsOk(bus: seq<Message>, sv: Server)
    requires ServerOk(bus, sv) && sv.wire != [] && sv.wire[0] < |bus|
    ensures ServerOk(bus, sv.(wire := sv.wire[1..]))
    ensures Passes(bus[sv.wire[0]]) ==>
              ServerOk(bus, sv.(wire := sv.wire[1..], broadcast := sv.broadcast + [FromRedis(sv.wire[0])]))
  {
    var w, x := Waiting(sv.broadcast), sv.wire[0];
    var dropped := sv.(wire := sv.wire[1..]);
    var moved := dropped.(broadcast := sv.broadcast + [FromRedis(x)]);
    WaitingMore(sv.broadcast, FromRedis(x));
    assert ToCome(moved) == ToCome(sv);
    assert ToCome(sv) == w + [x] + sv.wire[1..];
    assert forall i | 0 <= i < |ToCome(dropped)| ::
        ToCome(dropped)[i] == ToCome(sv)[if i < |w| then i else i + 1];
  }

  lemma QueueKeepsOk(bus: seq<Message>, sv: Server, m: Message)
    requires ServerOk(bus, sv)
    ensures ServerOk(bus, sv.(broadcast := sv.broadcast + [Local(m)]))
  {
    var sv' := sv.(broadcast := sv.broadcast + [Local(m)]);
    WaitingMore(sv.broadcast, Local(m));
    assert ToCome(sv') == ToCome(sv);
    assert forall item | item in sv'.broadcast :: item == Local(m) || item in sv.broadcast;
  }

  lemma PublishKeepsOk(bus: seq<Message>, sv: Server, m: Message)
    requires ServerOk(bus, sv)
    ensures ServerOk(bus + [m], sv)
    ensures ServerOk(bus + [m], sv.(wire := sv.wire + [|bus|]))
  {
    var sv' := sv.(wire := sv.wire + [|bus|]);
    assert ToCome(sv') == ToCome(sv) + [|bus|];
    forall c | c in sv.live ensures StreamOk(bus + [m], c, sv.live[c]) && Below(sv.live[c], ToCome(sv')) {
      StreamOnLongerBus(bus, m, c, sv.live[c]);
    }
    assert forall item | item in sv.broadcast && item.FromRedis? :: (bus + [m])[item.at] == bus[item.at];
  }

  lemma PublishedOrdered(c: Cluster, m: Message)
    requires Ordered(c)
    ensures Ordered(Published(c, m))
  {
    var c' := Published(c, m);
    forall s | s in c'.servers ensures ServerOk(c'.bus, c'.servers[s]) {
      assert ServerOk(c.bus, c.servers[s]);
      PublishKeepsOk(c.bus, c.servers[s], m);
    }
  }

  lemma StepKeepsOrder(c: Cluster, a: Action)
    requires Ordered(c) && Enabled(c, a)
    ensures Ordered(Next(c, a))
  {
    if !a.Start? {
      assert a.s in c.servers && ServerOk(c.bus, c.servers[a.s]);
    }
    match a {
      case Start(s) =>
      case Ingest(s, client, raw) => QueueKeepsOk(c.bus, c.servers[s], Stamped(raw, client, |c.authors|));
      case Notice(s, room, content) =>
        QueueKeepsOk(c.bus, c.servers[s], Message(|c.authors|, UserList, room, "SYSTEM", "", content));
      case Greet(s, room, content) =>
        var c1 := c.(authors := c.authors + [None]);
        assert Ordered(c1);
        PublishedOrdered(c1, Message(|c.authors|, System, room, "SYSTEM", "", content));
      case Listen(s) => ListenKeepsOk(c.bus, c.servers[s]);
      case Turn(s, full, published) =>
        PopKeepsOk(c.bus, c.servers[s]);
        if c.servers[s].broadcast[0].FromRedis? {
          TurnKeepsOk(c.bus, c.servers[s], full);
        } else {
          TurnLocalOrdered(c, s, published);
        }
      case Take(s, client) =>
        assert ToCome(Next(c, a).servers[s]) == ToCome(c.servers[s]);
      case Change(s, maps, subs) =>
        assert ToCome(c.servers[s].(maps := maps, subs := subs)) == ToCome(c.servers[s]);
    }
  }

  lemma TurnLocalOrdered(c: Cluster, s: ServerId, published: bool)
    requires Ordered(c) && s in c.servers && c.servers[s].broadcast != [] && c.servers[s].broadcast[0].Local?
    ensures Ordered(TurnLocal(c, s, c.servers[s].broadcast[0].m, published))
  {
    var sv, m := c.servers[s], c.servers[s].broadcast[0].m;
    assert ServerOk(c.bus, sv);
    PopKeepsOk(c.bus, sv);
    var rest := sv.(broadcast := sv.broadcast[1..]);
    var kept := rest.(persisted := rest.persisted + [m]);
    assert ToCome(kept) == ToCome(rest);
    assert Ordered(c.(servers := c.servers[s := rest])) && Ordered(c.(servers := c.servers[s := kept]));
    if published {
      PublishedOrdered(c.(servers := c.servers[s := rest]), m);
      PublishedOrdered(c.(servers := c.servers[s := kept]), m);
    }
  }

  lemma {:induction false} RunKeepsOrder(run: seq<Cluster>, actions: seq<Action>, n: nat)
    requires IsRun(run, actions) && n < |run|
    ensures Ordered(run[n])
  {
    if n > 0 {
      RunKeepsOrder(run, actions, n - 1);
      assert Leads(run, actions, n - 1);
      StepKeepsOrder(run[n - 1], actions[n - 1]);
    }
  }

  lemma StreamsAgree(bus: seq<Message>, c: Client, x: seq<nat>, c': Client, y: seq<nat>,
                     i: nat, j: nat, i': nat, j': nat)
    requires StreamOk(bus, c, x) && StreamOk(bus, c', y)
    requires i < |x| && j < |x| && i' < |y| && j' < |y| && x[i] == y[i'] && x[j] == y[j'] && x[i] != x[j]
    ensures i < j <==> i' < j'
  {
  }

  /** Two clients, on one server or on two, see the live messages they have in common in one order. */
  lemma OrderAgreement(run: seq<Cluster>, actions: seq<Action>, n: nat, s: ServerId, c: Client,
                       s': ServerId, c': Client, i: nat, j: nat, i': nat, j': nat)
    requires IsRun(run, actions) && n < |run|
    requires s in run[n].servers && s' in run[n].servers
    requires var x, y := LiveOf(run[n].servers[s], c), LiveOf(run[n].servers[s'], c');
             i < |x| && j < |x| && i' < |y| && j' < |y| && x[i] == y[i'] && x[j] == y[j'] && x[i] != x[j]
    ensures i < j <==> i' < j'
  {
    RunKeepsOrder(run, actions, n);
    assert ServerOk(run[n].bus, run[n].servers[s]) && ServerOk(run[n].bus, run[n].servers[s']);
    StreamsAgree(run[n].bus, c, LiveOf(run[n].servers[s], c), c', LiveOf(run[n].servers[s'], c'), i, j, i', j');
  }
}
