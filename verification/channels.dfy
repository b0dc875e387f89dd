/**
 From the `Send` channel to the WebSocket: a channel never holds more than it can, and what the write pump
 has written is the beginning of what was delivered. (How it is cut into frames is the subject of module
 Framing.)
 */
module Channels {
  import opened RingSpec
  import Sessions
  import opened Delivery
  import opened Conservation

  /** What the pump has written, and what it has not, of the live messages. */
  function Written(sv: Server, c: Sessions.Client): seq<nat>
    requires TakenBy(sv, c) <= |LiveOf(sv, c)|
  {
    LiveOf(sv, c)[..TakenBy(sv, c)]
  }

  function Waiting(sv: Server, c: Sessions.Client): seq<nat>
    requires TakenBy(sv, c) <= |LiveOf(sv, c)|
  {
    LiveOf(sv, c)[TakenBy(sv, c)..]
  }

  ghost predicate ChannelOk(sv: Server, c: Sessions.Client) {
    TakenBy(sv, c) <= |LiveOf(sv, c)| <= TakenBy(sv, c) + 256
  }

  ghost predicate AllChannelsOk(sv: Server) {
    forall c {:trigger ChannelOk(sv, c)} :: ChannelOk(sv, c)
  }

  ghost predicate Bounded(c: Cluster) {
    forall s {:trigger c.servers[s]} | s in c.servers :: AllChannelsOk(c.servers[s])
  }

  lemma PutChannel(sv: Server, c: Sessions.Client, at: nat, full: set<Sessions.Client>)
    requires AllChannelsOk(sv) && CountsFull(sv, full) && c !in full
    ensures AllChannelsOk(Put(sv, c, at))
  {
    forall d ensures ChannelOk(Put(sv, c, at), d) {
      assert ChannelOk(sv, d);
    }
  }

  lemma DeliveredChannels(sv: Server, m: Message, at: nat, full: Full)
    requires AllChannelsOk(sv) && CanBeFull(sv, m, at, full)
    ensures AllChannelsOk(Delivered(sv, m, at, full))
  {
    if m.kind.Private? {
      var first := DeliveredToTarget(sv, m, at, full);
      if first != sv {
        PutChannel(sv, sv.maps.allClients[m.target], at, full.first);
      }
      if InRoom(first, m.sender, m.room) && first.maps.allClients[m.sender] !in full.second {
        PutChannel(first, first.maps.allClients[m.sender], at, full.second);
      }
    } else if m.kind.Ack? {
      if m.target in sv.maps.allClients && sv.maps.allClients[m.target] !in full.first {
        PutChannel(sv, sv.maps.allClients[m.target], at, full.first);
      }
    } else {
      forall c ensures ChannelOk(Delivered(sv, m, at, full), c) {
        assert ChannelOk(sv, c);
      }
    }
  }

  /** The pump takes the message that has waited longest. */
  lemma TakeWrites(c: Cluster, s: ServerId, client: Sessions.Client)
    requires Bounded(c) && Enabled(c, Take(s, client))
    ensures var sv, sv' := c.servers[s], Next(c, Take(s, client)).servers[s];
            && ChannelOk(sv, client) && ChannelOk(sv', client) && Waiting(sv, client) != []
            && Written(sv', client) == Written(sv, client) + [Waiting(sv, client)[0]]
            && Waiting(sv', client) == Waiting(sv, client)[1..]
  {
    assert ChannelOk(c.servers[s], client);
  }

  /** A server whose channels have not changed. */
  lemma SameChannels(sv: Server, sv': Server)
    requires AllChannelsOk(sv) && sv'.live == sv.live && sv'.taken == sv.taken
    ensures AllChannelsOk(sv')
  {
    forall c ensures ChannelOk(sv', c) {
      assert ChannelOk(sv, c);
    }
  }

  lemma TakeChannels(sv: Server, c: Sessions.Client)
    requires AllChannelsOk(sv) && TakenBy(sv, c) < |LiveOf(sv, c)|
    ensures AllChannelsOk(sv.(taken := sv.taken[c := TakenBy(sv, c) + 1]))
  {
    var sv' := sv.(taken := sv.taken[c := TakenBy(sv, c) + 1]);
    forall d ensures ChannelOk(sv', d) {
      assert ChannelOk(sv, d);
    }
  }

  /** The step, but for a delivery or the pump's, leaves all channels alone. */
  lemma OtherStepChannels(c: Cluster, a: Action, s: ServerId)
    requires Enabled(c, a) && s in Next(c, a).servers && !a.Take?
    requires a.Turn? ==> c.servers[a.s].broadcast[0].Local?
    ensures s in c.servers ==> Next(c, a).servers[s].live == c.servers[s].live
                               && Next(c, a).servers[s].taken == c.servers[s].taken
    ensures s !in c.servers ==> Next(c, a).servers[s] == NEW_SERVER
  {
  }

  lemma StepKeepsBounded(c: Cluster, a: Action)
    requires Bounded(c) && Enabled(c, a)
    ensures Bounded(Next(c, a))
  {
    var c' := Next(c, a);
    if a.Take? {
      TakeChannels(c.servers[a.s], a.c);
    } else if a.Turn? && c.servers[a.s].broadcast[0].FromRedis? {
      var sv, at := c.servers[a.s], c.servers[a.s].broadcast[0].at;
      var rest := sv.(broadcast := sv.broadcast[1..]);
      SameChannels(sv, rest);
      assert CanBeFull(rest, c.bus[at], at, a.full) by {
        PopCanBeFull(sv, rest, c.bus[at], at, a.full);
      }
      DeliveredChannels(rest, c.bus[at], at, a.full);
    } else {
      forall s | s in c'.servers ensures AllChannelsOk(c'.servers[s]) {
        OtherStepChannels(c, a, s);
        if s in c.servers {
          SameChannels(c.servers[s], c'.servers[s]);
        }
      }
    }
  }

  lemma PopCanBeFull(sv: Server, rest: Server, m: Message, at: nat, full: Full)
    requires rest == sv.(broadcast := rest.broadcast) && CanBeFull(sv, m, at, full)
    ensures CanBeFull(rest, m, at, full)
  {
    assert DeliveredToTarget(rest, m, at, full) == DeliveredToTarget(sv, m, at, full).(broadcast := rest.broadcast);
  }

  /** In every run, every channel holds what was delivered and not written, and never more than 256. */
  lemma {:induction false} ChannelsAreBounded(run: seq<Cluster>, actions: seq<Action>, n: nat)
    requires IsRun(run, actions) && n < |run|
    ensures Bounded(run[n])
  {
    if n > 0 {
      ChannelsAreBounded(run, actions, n - 1);
      assert Leads(run, actions, n - 1);
      StepKeepsBounded(run[n - 1], actions[n - 1]);
    }
  }

  /** The account of module Conservation, from Redis to the WebSocket: written, waiting in the channel, and
      still on the way to the server. */
  lemma NothingIsLostOnTheWay(run: seq<Cluster>, actions: seq<Action>, i: nat, j: nat, s: ServerId,
                              client: Sessions.Client)
    requires IsRun(run, actions) && i <= j < |run| && Stays(run, actions, i, j, s, client)
    ensures s in run[i].servers && s in run[j].servers && run[i].bus <= run[j].bus
    ensures ChannelOk(run[i].servers[s], client) && ChannelOk(run[j].servers[s], client)
    ensures var sv, sv' := run[i].servers[s], run[j].servers[s];
            && Written(sv, client) <= Written(sv', client) + Waiting(sv', client)
            && Written(sv', client) + Waiting(sv', client) + Due(run[j].bus, client, ToCome(sv')) ==
               Written(sv, client) + Waiting(sv, client) + Due(run[i].bus, client, ToCome(sv))
               + Due(run[j].bus, client, Places(|run[i].bus|, |run[j].bus|))
  {
    NothingIsLost(run, actions, i, j, s, client);
    ChannelsAreBounded(run, actions, i);
    ChannelsAreBounded(run, actions, j);
    LiveGrows(run, actions, i, j, s, client);
    LiveIsWrittenAndWaiting(run[i], s, client);
    LiveIsWrittenAndWaiting(run[j], s, client);
  }

  lemma LiveIsWrittenAndWaiting(c: Cluster, s: ServerId, client: Sessions.Client)
    requires Bounded(c) && s in c.servers
    ensures var sv := c.servers[s];
            ChannelOk(sv, client) && LiveOf(sv, client) == Written(sv, client) + Waiting(sv, client)
  {
    assert AllChannelsOk(c.servers[s]);
    assert ChannelOk(c.servers[s], client);
  }

  lemma LiveStep(c: Cluster, a: Action, s: ServerId, client: Sessions.Client)
    requires Enabled(c, a) && s in c.servers
    ensures s in Next(c, a).servers && LiveOf(c.servers[s], client) <= LiveOf(Next(c, a).servers[s], client)
  {
    if a.Turn? && a.s == s && c.servers[s].broadcast[0].FromRedis? {
      var sv, at := c.servers[s], c.servers[s].broadcast[0].at;
      DeliveredGrows(sv.(broadcast := sv.broadcast[1..]), c.bus[at], at, a.full, client);
    } else if a.s != s || !(a.Take? || a.Turn?) {
      OtherServerLive(c, a, s);
    }
  }

  lemma OtherServerLive(c: Cluster, a: Action, s: ServerId)
    requires Enabled(c, a) && s in c.servers && (a.s != s || !(a.Take? || a.Turn?))
    ensures Next(c, a).servers[s].live == c.servers[s].live
  {
  }

  lemma DeliveredGrows(sv: Server, m: Message, at: nat, full: Full, c: Sessions.Client)
    ensures LiveOf(sv, c) <= LiveOf(Delivered(sv, m, at, full), c)
  {
    if m.kind.Private? {
      assert LiveOf(sv, c) <= LiveOf(DeliveredToTarget(sv, m, at, full), c);
    }
  }

  /** Streams only grow. */
  lemma {:induction false} LiveGrows(run: seq<Cluster>, actions: seq<Action>, i: nat, j: nat, s: ServerId,
                                     client: Sessions.Client)
    requires IsRun(run, actions) && i <= j < |run| && s in run[i].servers
    ensures s in run[j].servers && LiveOf(run[i].servers[s], client) <= LiveOf(run[j].servers[s], client)
    decreases j
  {
    if i < j {
      LiveGrows(run, actions, i, j - 1, s, client);
      assert Leads(run, actions, j - 1);
      LiveStep(run[j - 1], actions[j - 1], s, client);
    }
  }

  /** Between two moments at which nothing is on its way, nor waiting in the channel, exactly what was published
      for the client has been written to its WebSocket, in the order of publication. */
  lemma AllWrittenAtRest(run: seq<Cluster>, actions: seq<Action>, i: nat, j: nat, s: ServerId, client: Sessions.Client)
    requires IsRun(run, actions) && i <= j < |run| && Stays(run, actions, i, j, s, client)
    requires forall n | n in {i, j} :: s in run[n].servers && ToCome(run[n].servers[s]) == []
                                       && TakenBy(run[n].servers[s], client) == |LiveOf(run[n].servers[s], client)|
    ensures |run[i].bus| <= |run[j].bus|
    ensures Written(run[j].servers[s], client) ==
            Written(run[i].servers[s], client) + Due(run[j].bus, client, Places(|run[i].bus|, |run[j].bus|))
  {
    AllReceivedAtRest(run, actions, i, j, s, client);
    assert Written(run[i].servers[s], client) == LiveOf(run[i].servers[s], client);
    assert Written(run[j].servers[s], client) == LiveOf(run[j].servers[s], client);
  }
}
