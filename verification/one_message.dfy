/**
 The whole path of one chat message, from its author's keyboard to another client's WebSocket: what the
 theorems about all runs say something about does happen.
 */
module OneMessage {
  import opened Options
  import opened RingSpec
  import opened Sessions
  import opened Delivery
  import opened Channels
  import opened SlashCommands

  lemma Extended(run: seq<Cluster>, actions: seq<Delivery.Action>, a: Delivery.Action, c: Cluster)
      returns (run': seq<Cluster>, actions': seq<Delivery.Action>)
    requires Delivery.IsRun(run, actions) && Delivery.Enabled(run[|actions|], a)
    requires c == Delivery.Next(run[|actions|], a)
    ensures Delivery.IsRun(run', actions') && run' == run + [c] && actions' == actions + [a]
  {
    run', actions' := run + [c], actions + [a];
    forall i | 0 <= i < |actions'| ensures Delivery.Leads(run', actions', i) {
      if i < |actions| {
        assert Delivery.Leads(run, actions, i);
      }
    }
  }

  function Room(a: Client, b: Client): Maps {
    Maps(map[a.name := a, b.name := b], map[a.room := {a, b}], {a.room})
  }

  /** A server with two clients in one room. */
  function Host(a: Client, b: Client): Server {
    NEW_SERVER.(maps := Room(a, b), subs := {a.room})
  }

  lemma IngestAlone(s: ServerId, sv: Server, a: Client, raw: Delivery.Message)
    requires sv.broadcast == [] && Worded(raw).Some?
    ensures var c := Cluster(map[s := sv], [], []);
            Delivery.Next(c, Ingest(s, a, raw))
            == Cluster(map[s := sv.(broadcast := [Local(Stamped(raw, a, 0))])], [], [Some(a)])
  {
    assert sv.broadcast + [Local(Stamped(raw, a, 0))] == [Local(Stamped(raw, a, 0))];
    assert Delivery.Next(Cluster(map[s := sv], [], []), Ingest(s, a, raw)).authors == [Some(a)];
  }

  lemma TurnAlone(s: ServerId, sv: Server, m: Delivery.Message, authors: seq<Option<Client>>)
    requires sv.broadcast == [Local(m)] && sv.persisted == [] && sv.wire == [] && m.room in sv.subs && m.kind.Chat?
    ensures var c, turn := Cluster(map[s := sv], [], authors), Turn(s, Full({}, {}), true);
            Delivery.Next(c, turn)
            == Cluster(map[s := sv.(broadcast := [], persisted := [m], wire := [0])], [m], authors)
  {
    var c, turn := Cluster(map[s := sv], [], authors), Turn(s, Full({}, {}), true);
    assert [] + [m] == [m] && sv.wire + [0] == [0] && sv.persisted + [m] == [m] && sv.broadcast[1..] == [];
    assert Delivery.Next(c, turn).servers == map[s := sv.(broadcast := [], persisted := [m], wire := [0])];
  }

  /** One of them types a message, and the server publishes it. */
  lemma IsPublished(s: ServerId, a: Client, b: Client, raw: Delivery.Message, m: Delivery.Message)
      returns (run: seq<Cluster>, actions: seq<Delivery.Action>)
    requires a.room == b.room && a.name != b.name && raw.kind.Chat? && Worded(raw) == Some(m.content)
    requires m == Delivery.Message(0, raw.kind, a.room, a.name, raw.target, m.content)
    ensures Delivery.IsRun(run, actions) && |actions| == 4 && actions[2] == Ingest(s, a, raw)
    ensures run[4] == Cluster(map[s := Host(a, b).(persisted := [m], wire := [0])], [m], [Some(a)])
  {
    var sv, none := Host(a, b), Full({}, {});
    run, actions := [NO_SERVERS], [];
    run, actions := Extended(run, actions, Start(s), Cluster(map[s := NEW_SERVER], [], []));
    run, actions := Extended(run, actions, Change(s, Room(a, b), {a.room}), Cluster(map[s := sv], [], []));
    IngestAlone(s, sv, a, raw);
    var queued := sv.(broadcast := [Local(m)]);
    run, actions := Extended(run, actions, Ingest(s, a, raw), Cluster(map[s := queued], [], [Some(a)]));
    TurnAlone(s, queued, m, [Some(a)]);
    run, actions := Extended(run, actions, Turn(s, none, true),
                             Cluster(map[s := sv.(persisted := [m], wire := [0])], [m], [Some(a)]));
  }

  lemma ListenAlone(s: ServerId, sv: Server, m: Delivery.Message, authors: seq<Option<Client>>)
    requires sv.broadcast == [] && sv.wire == [0] && Passes(m)
    ensures var c := Cluster(map[s := sv], [m], authors);
            Delivery.Next(c, Listen(s)) == Cluster(map[s := sv.(broadcast := [FromRedis(0)], wire := [])], [m], authors)
  {
    assert sv.broadcast + [FromRedis(0)] == [FromRedis(0)] && sv.wire[1..] == [];
  }

  /** Redis hands it back, and both clients get it. */
  lemma IsDelivered(sv: Server, a: Client, b: Client, m: Delivery.Message)
    requires a.room == b.room && a.name != b.name && m.kind.Chat? && m.room == a.room
    requires sv.maps == Room(a, b) && sv.live == map[]
    ensures Delivered(sv, m, 0, Full({}, {})) == sv.(live := map[a := [0], b := [0]])
  {
    assert {a, b} - {} == {a, b} && [] + [0] == [0];
    var live := Delivered(sv, m, 0, Full({}, {})).live;
    assert live.Keys == {a, b};
    assert live == map[a := [0], b := [0]];
  }

  lemma DeliverAlone(s: ServerId, sv: Server, a: Client, b: Client, m: Delivery.Message,
                     authors: seq<Option<Client>>)
    requires a.room == b.room && a.name != b.name && m.kind.Chat? && m.room == a.room
    requires sv.maps == Room(a, b) && sv.live == map[] && sv.broadcast == [FromRedis(0)]
    ensures var c, turn := Cluster(map[s := sv], [m], authors), Turn(s, Full({}, {}), true);
            && Delivery.Enabled(c, turn)
            && Delivery.Next(c, turn)
               == Cluster(map[s := sv.(broadcast := [], live := map[a := [0], b := [0]])], [m], authors)
  {
    assert sv.broadcast[1..] == [];
    IsDelivered(sv.(broadcast := []), a, b, m);
  }

  /** A message published comes back and goes into both channels. */
  lemma IsHeard(s: ServerId, a: Client, b: Client, m: Delivery.Message, run0: seq<Cluster>,
                actions0: seq<Delivery.Action>)
      returns (run: seq<Cluster>, actions: seq<Delivery.Action>)
    requires a.room == b.room && a.name != b.name && m.kind.Chat? && m.room == a.room && Passes(m)
    requires Delivery.IsRun(run0, actions0)
    requires run0[|actions0|] == Cluster(map[s := Host(a, b).(persisted := [m], wire := [0])], [m], [Some(a)])
    ensures Delivery.IsRun(run, actions) && |actions| == |actions0| + 2 && actions0 <= actions
    ensures run[|actions|]
            == Cluster(map[s := Host(a, b).(persisted := [m], live := map[a := [0], b := [0]])], [m], [Some(a)])
  {
    var sv := Host(a, b).(persisted := [m], wire := [0]);
    var queued := sv.(broadcast := [FromRedis(0)], wire := []);
    ListenAlone(s, sv, m, [Some(a)]);
    run, actions := Extended(run0, actions0, Listen(s), Cluster(map[s := queued], [m], [Some(a)]));
    DeliverAlone(s, queued, a, b, m, [Some(a)]);
    var heard := queued.(broadcast := [], live := map[a := [0], b := [0]]);
    run, actions := Extended(run, actions, Turn(s, Full({}, {}), true), Cluster(map[s := heard], [m], [Some(a)]));
  }

  /** In any room of any server, whatever chat message one client types, a signal's look-alike excepted, there is
      a run in which it is persisted and written to the other's WebSocket. */
  lemma MessageArrives(s: ServerId, a: Client, b: Client, raw: Delivery.Message, text: string)
      returns (run: seq<Cluster>, actions: seq<Delivery.Action>)
    requires a.room == b.room && a.name != b.name
    requires raw.kind.Chat? && Said(raw.content) == Some(text) && !("JOIN:" <= text) && !("LEAVE:" <= text)
    ensures Delivery.IsRun(run, actions) && |actions| == 7 && actions[2] == Ingest(s, a, raw)
    ensures s in run[7].servers
    ensures var m, sv := Delivery.Message(0, Delivery.Chat, a.room, a.name, raw.target, text), run[7].servers[s];
            && run[7].bus == sv.persisted == [m] && ToCome(sv) == []
            && LiveOf(sv, b) == [0] && TakenBy(sv, b) == 1 && Written(sv, b) == [0]
  {
    var m := Delivery.Message(0, raw.kind, a.room, a.name, raw.target, text);
    var sv := Host(a, b).(persisted := [m], live := map[a := [0], b := [0]]);
    run, actions := IsPublished(s, a, b, raw, m);
    run, actions := IsHeard(s, a, b, m, run, actions);
    run, actions := Extended(run, actions, Take(s, b),
                             Cluster(map[s := sv.(taken := map[b := 1])], [m], [Some(a)]));
  }
}
