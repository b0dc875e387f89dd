/**
 Nothing is lost on the way from Redis to a client whose channel never fills: what it has received and
 what is still to come to its server always add up to what was published for it.
 */
module Conservation {
  import opened RingSpec
  import Sessions
  import opened Delivery

  /** The copies of the message at place `at` that are due to a client: one if it is for the client's
      room; of a private message, one as its target and one as its sender. */
  function Copies(m: Message, c: Sessions.Client, at: nat): seq<nat> {
    if !Passes(m) || m.kind.Kick? || m.room != c.room then []
    else if m.kind.Private? then (if c.name == m.target then [at] else []) + (if c.name == m.sender then [at] else [])
    else [at]
  }

  /** The copies due of every message on the bus. */
  function Allotted(bus: seq<Message>, c: Sessions.Client): (all: seq<seq<nat>>)
    ensures |all| == |bus|
  {
    if bus == [] then []
    else Allotted(bus[..|bus| - 1], c) + [Copies(bus[|bus| - 1], c, |bus| - 1)]
  }

  /** Those of the messages at `places`, one after the other. */
  function Gathered(all: seq<seq<nat>>, places: seq<nat>): seq<nat> {
    if places == [] then []
    else
      var last := places[|places| - 1];
      Gathered(all, places[..|places| - 1]) + if last < |all| then all[last] else []
  }

  function Due(bus: seq<Message>, c: Sessions.Client, places: seq<nat>): seq<nat> {
    Gathered(Allotted(bus, c), places)
  }

  /** The client is in its room at the server, under its name, and the room is subscribed. */
  predicate Present(sv: Server, c: Sessions.Client) {
    && c.name in sv.maps.allClients && sv.maps.allClients[c.name] == c
    && c.room in sv.maps.rooms && c in sv.maps.rooms[c.room] && c.room in sv.subs
  }

  ghost predicate IsPresent(c: Cluster, s: ServerId, client: Sessions.Client) {
    s in c.servers && Present(c.servers[s], client)
  }

  /** The action does not find the client's channel full. */
  predicate HasRoomFor(a: Action, s: ServerId, client: Sessions.Client) {
    a.Turn? && a.s == s ==> client !in a.full.first + a.full.second
  }

  /** What the client has received, and then what is still on its way to it. */
  ghost function Account(c: Cluster, s: ServerId, client: Sessions.Client): seq<nat>
    requires s in c.servers
  {
    LiveOf(c.servers[s], client) + Due(c.bus, client, ToCome(c.servers[s]))
  }

  /** The places from `from` to `to`. */
  function Places(from: nat, to: nat): (places: seq<nat>)
    requires from <= to
    ensures |places| == to - from && forall i | 0 <= i < |places| :: places[i] == from + i
  {
    if from == to then [] else Places(from, to - 1) + [to - 1]
  }

  // ---------- sums of copies ----------

  lemma {:induction false} AllottedAt(bus: seq<Message>, c: Sessions.Client, i: nat)
    requires i < |bus|
    ensures Allotted(bus, c)[i] == Copies(bus[i], c, i)
  {
    if i < |bus| - 1 {
      AllottedAt(bus[..|bus| - 1], c, i);
    }
  }

  lemma AllottedGrows(bus: seq<Message>, m: Message, c: Sessions.Client)
    ensures Allotted(bus + [m], c) == Allotted(bus, c) + [Copies(m, c, |bus|)]
  {
    assert (bus + [m])[..|bus|] == bus;
  }

  lemma {:induction false} AllottedPrefix(bus: seq<Message>, longer: seq<Message>, c: Sessions.Client)
    requires bus <= longer
    ensures Allotted(bus, c) <= Allotted(longer, c)
    decreases |longer|
  {
    if bus != longer {
      var front := longer[..|longer| - 1];
      AllottedPrefix(bus, front, c);
      AllottedGrows(front, longer[|front|], c);
      assert longer == front + [longer[|front|]];
    } else {
    }
  }

  lemma GatheredMore(all: seq<seq<nat>>, places: seq<nat>, at: nat)
    ensures Gathered(all, places + [at]) == Gathered(all, places) + if at < |all| then all[at] else []
  {
    assert (places + [at])[..|places|] == places;
  }

  lemma GatheredOne(all: seq<seq<nat>>, at: nat)
    requires at < |all|
    ensures Gathered(all, [at]) == all[at]
  {
    GatheredMore(all, [], at);
    assert [] + [at] == [at];
  }

  lemma {:induction false} GatheredConcat(all: seq<seq<nat>>, a: seq<nat>, b: seq<nat>)
    ensures Gathered(all, a + b) == Gathered(all, a) + Gathered(all, b)
    decreases |b|
  {
    if b == [] {
      assert a + b == a;
    } else {
      var front, last := b[..|b| - 1], b[|b| - 1];
      GatheredConcat(all, a, front);
      assert a + b == (a + front) + [last] && b == front + [last];
      GatheredMore(all, a + front, last);
      GatheredMore(all, front, last);
    }
  }

  lemma {:induction false} GatheredFromMore(all: seq<seq<nat>>, more: seq<seq<nat>>, places: seq<nat>)
    requires all <= more && forall i | 0 <= i < |places| :: places[i] < |all|
    ensures Gathered(more, places) == Gathered(all, places)
    decreases |places|
  {
    if places != [] {
      GatheredFromMore(all, more, places[..|places| - 1]);
    }
  }

  lemma DueOnLongerBus(bus: seq<Message>, longer: seq<Message>, c: Sessions.Client, places: seq<nat>)
    requires bus <= longer && forall i | 0 <= i < |places| :: places[i] < |bus|
    ensures Due(longer, c, places) == Due(bus, c, places)
  {
    AllottedPrefix(bus, longer, c);
    GatheredFromMore(Allotted(bus, c), Allotted(longer, c), places);
  }

  lemma DueOne(bus: seq<Message>, c: Sessions.Client, at: nat)
    requires at < |bus|
    ensures Due(bus, c, [at]) == Copies(bus[at], c, at)
  {
    AllottedAt(bus, c, at);
    GatheredOne(Allotted(bus, c), at);
  }

  lemma DueConcat(bus: seq<Message>, c: Sessions.Client, a: seq<nat>, b: seq<nat>)
    ensures Due(bus, c, a + b) == Due(bus, c, a) + Due(bus, c, b)
  {
    GatheredConcat(Allotted(bus, c), a, b);
  }

  // ---------- one server's step ----------

  lemma NamedCopy(sv: Server, name: string, room: string, at: nat, full: set<Sessions.Client>, c: Sessions.Client)
    requires Filed(sv.maps) && Present(sv, c) && c !in full
    ensures var sv' := if InRoom(sv, name, room) then PutNamed(sv, name, full, at) else sv;
            && sv'.maps == sv.maps && sv'.subs == sv.subs
            && LiveOf(sv', c) == LiveOf(sv, c) + if name == c.name && room == c.room then [at] else []
  {
  }

  lemma DeliveredCopies(sv: Server, m: Message, at: nat, full: Full, c: Sessions.Client)
    requires Filed(sv.maps) && Present(sv, c) && Passes(m)
    requires c !in full.first && (m.kind.Private? ==> c !in full.second)
    ensures LiveOf(Delivered(sv, m, at, full), c) == LiveOf(sv, c) + Copies(m, c, at)
  {
    if m.kind.Private? {
      NamedCopy(sv, m.target, m.room, at, full.first, c);
      NamedCopy(DeliveredToTarget(sv, m, at, full), m.sender, m.room, at, full.second, c);
    } else {
      assert m.room != c.room ==> m.room !in sv.maps.rooms || c !in sv.maps.rooms[m.room];
    }
  }

  /** An acknowledgement goes to the client it names, in whatever room (but none comes back from Redis). */
  lemma DeliveredAck(sv: Server, m: Message, at: nat, full: Full, c: Sessions.Client)
    requires Filed(sv.maps) && Present(sv, c) && c !in full.first && m.kind.Ack?
    ensures LiveOf(Delivered(sv, m, at, full), c) == LiveOf(sv, c) + if m.target == c.name then [at] else []
  {
  }

  lemma Regroup(a: seq<nat>, b: seq<nat>, c: seq<nat>)
    ensures a + b + c == a + (b + c)
  {
  }

  /** The next message due from `Broadcast`. */
  lemma PopDue(bus: seq<Message>, sv: Server, c: Sessions.Client)
    requires ServerOk(bus, sv) && sv.broadcast != [] && sv.broadcast[0].FromRedis?
    ensures var at, rest := sv.broadcast[0].at, sv.(broadcast := sv.broadcast[1..]);
            && at < |bus| && Passes(bus[at]) && Filed(sv.maps)
            && Due(bus, c, ToCome(sv)) == Copies(bus[at], c, at) + Due(bus, c, ToCome(rest))
  {
    var at, rest := sv.broadcast[0].at, sv.(broadcast := sv.broadcast[1..]);
    var k := PopShape(sv);
    assert sv.broadcast[0] in sv.broadcast;
    assert ToCome(sv) == ToCome(sv)[..1] + ToCome(sv)[1..] == [at] + ToCome(rest);
    DueOne(bus, c, at);
    DueConcat(bus, c, [at], ToCome(rest));
  }

  /** A message taken off `Broadcast` and delivered moves from the one part of the account to the other. */
  lemma TurnConserves(bus: seq<Message>, sv: Server, full: Full, c: Sessions.Client)
    requires ServerOk(bus, sv) && Present(sv, c) && c !in full.first + full.second
    requires sv.broadcast != [] && sv.broadcast[0].FromRedis?
    ensures var at, rest := sv.broadcast[0].at, sv.(broadcast := sv.broadcast[1..]);
            && at < |bus|
            && LiveOf(Delivered(rest, bus[at], at, full), c) + Due(bus, c, ToCome(rest)) ==
               LiveOf(sv, c) + Due(bus, c, ToCome(sv))
  {
    var at, rest := sv.broadcast[0].at, sv.(broadcast := sv.broadcast[1..]);
    PopDue(bus, sv, c);
    assert LiveOf(Delivered(rest, bus[at], at, full), c) == LiveOf(sv, c) + Copies(bus[at], c, at) by {
      DeliveredCopies(rest, bus[at], at, full, c);
    }
    Regroup(LiveOf(sv, c), Copies(bus[at], c, at), Due(bus, c, ToCome(rest)));
  }

  /** What `ListenToRedis` drops was not due to anybody. */
  lemma DroppedNotDue(bus: seq<Message>, c: Sessions.Client, w: seq<nat>, x: nat, rest: seq<nat>)
    requires x < |bus| && !Passes(bus[x])
    ensures Due(bus, c, w + rest) == Due(bus, c, w + [x] + rest)
  {
    DueOne(bus, c, x);
    DueConcat(bus, c, w, rest);
    DueConcat(bus, c, w, [x]);
    DueConcat(bus, c, w + [x], rest);
  }

  lemma ListenConserves(bus: seq<Message>, sv: Server, c: Sessions.Client)
    requires sv.wire != [] && sv.wire[0] < |bus|
    ensures var x := sv.wire[0];
            var dropped := sv.(wire := sv.wire[1..]);
            var moved := dropped.(broadcast := sv.broadcast + [FromRedis(x)]);
            && ToCome(moved) == ToCome(sv)
            && (!Passes(bus[x]) ==> Due(bus, c, ToCome(dropped)) == Due(bus, c, ToCome(sv)))
  {
    var w, x, rest := Waiting(sv.broadcast), sv.wire[0], sv.wire[1..];
    WaitingMore(sv.broadcast, FromRedis(x));
    assert ToCome(sv) == w + [x] + rest;
    if !Passes(bus[x]) {
      DroppedNotDue(bus, c, w, x, rest);
    }
  }

  // ---------- the cluster's step ----------

  lemma PublishedConserves(c: Cluster, m: Message, s: ServerId, client: Sessions.Client)
    requires s in c.servers && ServerOk(c.bus, c.servers[s]) && client.room in c.servers[s].subs
    ensures var c' := Published(c, m);
            && s in c'.servers && Account(c', s, client) == Account(c, s, client) + Copies(m, client, |c.bus|)
  {
    var c', next := Published(c, m), ToCome(c.servers[s]);
    DueOnLongerBus(c.bus, c'.bus, client, next);
    if m.room in c.servers[s].subs {
      assert ToCome(c'.servers[s]) == next + [|c.bus|];
      DueConcat(c'.bus, client, next, [|c.bus|]);
      DueOne(c'.bus, client, |c.bus|);
      Regroup(LiveOf(c.servers[s], client), Due(c.bus, client, next), Copies(m, client, |c.bus|));
    }
  }

  /** The step leaves the bus and this server's account alone. */
  ghost predicate Quiet(c: Cluster, c': Cluster, s: ServerId, client: Sessions.Client) {
    && s in c.servers && s in c'.servers && c'.bus == c.bus
    && Account(c', s, client) == Account(c, s, client)
  }

  lemma QueueIsQuiet(bus: seq<Message>, sv: Server, m: Message)
    requires ServerOk(bus, sv)
    ensures ToCome(sv.(broadcast := sv.broadcast + [Local(m)])) == ToCome(sv)
  {
    WaitingMore(sv.broadcast, Local(m));
  }

  lemma QueuedIsQuiet(c: Cluster, a: Action, s: ServerId, client: Sessions.Client)
    requires Ordered(c) && Enabled(c, a) && (a.Ingest? || a.Notice?) && s in c.servers
    ensures Quiet(c, Next(c, a), s, client)
  {
    assert ServerOk(c.bus, c.servers[a.s]);
    if a.Ingest? {
      QueueIsQuiet(c.bus, c.servers[a.s], Stamped(a.raw, a.c, |c.authors|));
    } else {
      QueueIsQuiet(c.bus, c.servers[a.s], Message(|c.authors|, UserList, a.room, "SYSTEM", "", a.content));
    }
  }

  lemma ListenIsQuiet(c: Cluster, at: ServerId, s: ServerId, client: Sessions.Client)
    requires Enabled(c, Listen(at)) && s in c.servers
    ensures Quiet(c, Next(c, Listen(at)), s, client)
  {
    if at == s {
      ListenConserves(c.bus, c.servers[s], client);
    }
  }

  lemma DeliveryIsQuiet(c: Cluster, a: Action, s: ServerId, client: Sessions.Client)
    requires Ordered(c) && Enabled(c, a) && a.Turn? && c.servers[a.s].broadcast[0].FromRedis?
    requires IsPresent(c, s, client) && HasRoomFor(a, s, client)
    ensures Quiet(c, Next(c, a), s, client)
  {
    assert ServerOk(c.bus, c.servers[s]);
    var c', sv := Next(c, a), c.servers[s];
    if a.s == s {
      var at, rest := sv.broadcast[0].at, sv.(broadcast := sv.broadcast[1..]);
      TurnConserves(c.bus, sv, a.full, client);
      DeliveredFrame(rest, c.bus[at], at, a.full);
      assert ToCome(Delivered(rest, c.bus[at], at, a.full)) == ToCome(rest);
    }
  }

  lemma OtherIsQuiet(c: Cluster, a: Action, s: ServerId, client: Sessions.Client)
    requires Ordered(c) && Enabled(c, a) && (a.Start? || a.Take? || a.Change?) && s in c.servers
    ensures Quiet(c, Next(c, a), s, client)
  {
    var c' := Next(c, a);
    if a.s == s {
      assert ToCome(c'.servers[s]) == ToCome(c.servers[s]);
    }
  }

  /** The bus is longer by at most one message, and the account by what of it is due. */
  ghost predicate Conserves(c: Cluster, c': Cluster, s: ServerId, client: Sessions.Client) {
    && s in c.servers && s in c'.servers && c.bus <= c'.bus
    && Account(c', s, client) == Account(c, s, client) + Due(c'.bus, client, Places(|c.bus|, |c'.bus|))
  }

  lemma QuietConserves(c: Cluster, c': Cluster, s: ServerId, client: Sessions.Client)
    requires Quiet(c, c', s, client)
    ensures Conserves(c, c', s, client)
  {
    assert Places(|c.bus|, |c.bus|) == [];
  }

  lemma PublishConserves(c: Cluster, m: Message, s: ServerId, client: Sessions.Client)
    requires s in c.servers && ServerOk(c.bus, c.servers[s]) && client.room in c.servers[s].subs
    ensures Conserves(c, Published(c, m), s, client)
  {
    var c' := Published(c, m);
    PublishedConserves(c, m, s, client);
    assert Places(|c.bus|, |c'.bus|) == [|c.bus|];
    DueOne(c'.bus, client, |c.bus|);
  }

  lemma LocalTurnConserves(c: Cluster, a: Action, s: ServerId, client: Sessions.Client)
    requires Ordered(c) && Enabled(c, a) && a.Turn? && c.servers[a.s].broadcast[0].Local?
    requires IsPresent(c, s, client)
    ensures Conserves(c, Next(c, a), s, client)
  {
    var sv, m := c.servers[a.s], c.servers[a.s].broadcast[0].m;
    assert ServerOk(c.bus, sv) && ServerOk(c.bus, c.servers[s]);
    var rest := sv.(broadcast := sv.broadcast[1..]);
    var kept := if a.published && IsPersisted(m.kind) then rest.(persisted := rest.persisted + [m]) else rest;
    var c1 := c.(servers := c.servers[a.s := kept]);
    PopKeepsOk(c.bus, sv);
    var k := PopShape(sv);
    assert ToCome(kept) == ToCome(rest) == ToCome(sv);
    assert Account(c1, s, client) == Account(c, s, client);
    if a.published {
      PublishConserves(c1, m, s, client);
    } else {
      QuietConserves(c, c1, s, client);
    }
  }

  lemma SameAccount(c: Cluster, c1: Cluster, c2: Cluster, s: ServerId, client: Sessions.Client)
    requires Conserves(c, c1, s, client) && c2.bus == c1.bus && c2.servers == c1.servers
    ensures Conserves(c, c2, s, client)
  {
  }

  lemma GreetPublishes(c: Cluster, a: Action)
    requires Enabled(c, a) && a.Greet?
    ensures var p := Published(c, Message(|c.authors|, System, a.room, "SYSTEM", "", a.content));
            Next(c, a).bus == p.bus && Next(c, a).servers == p.servers
  {
  }

  lemma GreetConserves(c: Cluster, a: Action, s: ServerId, client: Sessions.Client)
    requires Ordered(c) && Enabled(c, a) && a.Greet? && IsPresent(c, s, client)
    ensures Conserves(c, Next(c, a), s, client)
  {
    var m := Message(|c.authors|, System, a.room, "SYSTEM", "", a.content);
    assert ServerOk(c.bus, c.servers[s]);
    PublishConserves(c, m, s, client);
    GreetPublishes(c, a);
    SameAccount(c, Published(c, m), Next(c, a), s, client);
  }

  lemma StepConserves(c: Cluster, a: Action, s: ServerId, client: Sessions.Client)
    requires Ordered(c) && Enabled(c, a) && IsPresent(c, s, client) && HasRoomFor(a, s, client)
    ensures Conserves(c, Next(c, a), s, client)
  {
    match a
    case Ingest(_, _, _) =>
      QueuedIsQuiet(c, a, s, client);
      QuietConserves(c, Next(c, a), s, client);
    case Notice(_, _, _) =>
      QueuedIsQuiet(c, a, s, client);
      QuietConserves(c, Next(c, a), s, client);
    case Greet(_, _, _) => GreetConserves(c, a, s, client);
    case Listen(at) =>
      ListenIsQuiet(c, at, s, client);
      QuietConserves(c, Next(c, a), s, client);
    case Turn(at, _, _) =>
      if c.servers[at].broadcast[0].Local? {
        LocalTurnConserves(c, a, s, client);
      } else {
        DeliveryIsQuiet(c, a, s, client);
        QuietConserves(c, Next(c, a), s, client);
      }
    case _ =>
      OtherIsQuiet(c, a, s, client);
      QuietConserves(c, Next(c, a), s, client);
  }

  lemma DueBetween(bus1: seq<Message>, bus2: seq<Message>, c: Sessions.Client, from: nat)
    requires from <= |bus1| && bus1 <= bus2
    ensures Due(bus2, c, Places(from, |bus2|)) ==
            Due(bus1, c, Places(from, |bus1|)) + Due(bus2, c, Places(|bus1|, |bus2|))
  {
    var one, two := Places(from, |bus1|), Places(|bus1|, |bus2|);
    assert Places(from, |bus2|) == one + two;
    DueOnLongerBus(bus1, bus2, c, one);
    DueConcat(bus2, c, one, two);
  }

  lemma ConservesTwice(c: Cluster, c1: Cluster, c2: Cluster, s: ServerId, client: Sessions.Client)
    requires Conserves(c, c1, s, client) && Conserves(c1, c2, s, client)
    ensures Conserves(c, c2, s, client)
  {
    DueBetween(c1.bus, c2.bus, client, |c.bus|);
    Regroup(Account(c, s, client), Due(c1.bus, client, Places(|c.bus|, |c1.bus|)),
            Due(c2.bus, client, Places(|c1.bus|, |c2.bus|)));
  }

  /** From state `i` to state `j` the client stays in its room, and its channel never fills. */
  ghost predicate Stays(run: seq<Cluster>, actions: seq<Action>, i: nat, j: nat, s: ServerId, client: Sessions.Client)
    requires i <= j < |run| == |actions| + 1
  {
    && (forall n {:trigger IsPresent(run[n], s, client)} | i <= n <= j :: IsPresent(run[n], s, client))
    && (forall n {:trigger HasRoomFor(actions[n], s, client)} | i <= n < j :: HasRoomFor(actions[n], s, client))
  }

  ghost predicate StepConservesAt(run: seq<Cluster>, n: nat, s: ServerId, client: Sessions.Client) {
    n + 1 < |run| && Conserves(run[n], run[n + 1], s, client)
  }

  lemma RunStepConserves(run: seq<Cluster>, actions: seq<Action>, n: nat, s: ServerId, client: Sessions.Client)
    requires IsRun(run, actions) && n < |actions|
    requires IsPresent(run[n], s, client) && HasRoomFor(actions[n], s, client)
    ensures StepConservesAt(run, n, s, client)
  {
    RunKeepsOrder(run, actions, n);
    assert Leads(run, actions, n);
    StepConserves(run[n], actions[n], s, client);
  }

  lemma {:induction false} ConservesAlong(run: seq<Cluster>, i: nat, j: nat, s: ServerId, client: Sessions.Client)
    requires i <= j < |run| && s in run[i].servers
    requires forall n | i <= n < j :: StepConservesAt(run, n, s, client)
    ensures Conserves(run[i], run[j], s, client)
    decreases j
  {
    if i == j {
      QuietConserves(run[i], run[i], s, client);
    } else {
      ConservesAlong(run, i, j - 1, s, client);
      assert StepConservesAt(run, j - 1, s, client);
      ConservesTwice(run[i], run[j - 1], run[j], s, client);
    }
  }

  /** Whatever the cluster does meanwhile: what such a client has received, followed by what is on its way
      to it, grows by exactly the copies due to it of what is published, in the order of publication. */
  lemma NothingIsLost(run: seq<Cluster>, actions: seq<Action>, i: nat, j: nat, s: ServerId, client: Sessions.Client)
    requires IsRun(run, actions) && i <= j < |run| && Stays(run, actions, i, j, s, client)
    ensures Conserves(run[i], run[j], s, client)
  {
    assert IsPresent(run[i], s, client);
    forall n | i <= n < j
      ensures StepConservesAt(run, n, s, client)
    {
      assert IsPresent(run[n], s, client) && HasRoomFor(actions[n], s, client);
      RunStepConserves(run, actions, n, s, client);
    }
    ConservesAlong(run, i, j, s, client);
  }

  /** So between two moments at which nothing is on its way, the client has received exactly what was
      published for it. */
  lemma AllReceivedAtRest(run: seq<Cluster>, actions: seq<Action>, i: nat, j: nat, s: ServerId, client: Sessions.Client)
    requires IsRun(run, actions) && i <= j < |run| && Stays(run, actions, i, j, s, client)
    requires s in run[i].servers && ToCome(run[i].servers[s]) == []
    requires s in run[j].servers && ToCome(run[j].servers[s]) == []
    ensures |run[i].bus| <= |run[j].bus|
    ensures LiveOf(run[j].servers[s], client) ==
            LiveOf(run[i].servers[s], client) + Due(run[j].bus, client, Places(|run[i].bus|, |run[j].bus|))
  {
    NothingIsLost(run, actions, i, j, s, client);
    var before, after := LiveOf(run[i].servers[s], client), LiveOf(run[j].servers[s], client);
    assert Account(run[i], s, client) == before + [] == before;
    assert Account(run[j], s, client) == after + [] == after;
  }

  // ---------- what is due, in plain words ----------

  /** The copies due to a client: one of what is said in its room, one each as target and as sender of a private
      message there, and none of anything else. */
  lemma CopiesAre(m: Message, c: Sessions.Client, at: nat)
    ensures var heard := m.room == c.room && !("JOIN:" <= m.content) && !("LEAVE:" <= m.content);
            && (heard && m.kind in {Chat, System, UserList, Typing} ==> Copies(m, c, at) == [at])
            && (heard && m.kind == Private ==>
                  Copies(m, c, at)
                  == (if m.target == c.name then [at] else []) + (if m.sender == c.name then [at] else []))
            && (!heard || m.kind in {Ack, Kick} ==> Copies(m, c, at) == [])
  {
  }

  lemma {:induction false} DueContains(bus: seq<Message>, c: Sessions.Client, places: seq<nat>, at: nat)
    requires at < |bus| && at in places && at in Copies(bus[at], c, at)
    ensures at in Due(bus, c, places)
    decreases |places|
  {
    var front, last := places[..|places| - 1], places[|places| - 1];
    assert places == front + [last];
    DueConcat(bus, c, front, [last]);
    if last == at {
      DueOne(bus, c, at);
    } else {
      DueContains(bus, c, front, at);
    }
  }

  /** A message for the client: of its room, or a private one to or from it, and not looking like a signal. */
  predicate IsFor(m: Message, c: Sessions.Client) {
    && m.room == c.room && !("JOIN:" <= m.content) && !("LEAVE:" <= m.content)
    && (m.kind in {Chat, System, UserList, Typing} || (m.kind == Private && c.name in {m.target, m.sender}))
  }

  /** Such a message, published while the client stays and its channel does not fill, has been received when
      nothing is on its way any more. */
  lemma PublishedArrives(run: seq<Cluster>, actions: seq<Action>, i: nat, j: nat, s: ServerId,
                         client: Sessions.Client, at: nat)
    requires IsRun(run, actions) && i <= j < |run| && Stays(run, actions, i, j, s, client)
    requires s in run[i].servers && ToCome(run[i].servers[s]) == []
    requires s in run[j].servers && ToCome(run[j].servers[s]) == []
    requires |run[i].bus| <= at < |run[j].bus| && IsFor(run[j].bus[at], client)
    ensures at in LiveOf(run[j].servers[s], client)
  {
    AllReceivedAtRest(run, actions, i, j, s, client);
    CopiesAre(run[j].bus[at], client, at);
    var places := Places(|run[i].bus|, |run[j].bus|);
    assert places[at - |run[i].bus|] == at;
    DueContains(run[j].bus, client, places, at);
  }
}
