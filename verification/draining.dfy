/**
 A server can always come to rest: whatever is queued at it and on its way to it, it can take care of by
 itself. So what the theorems say of moments at rest is never beyond reach.
 */
module Draining {
  import opened RingSpec
  import Sessions
  import opened Delivery
  import OneMessage

  /** A queued local message is still to be published, to come back and to be delivered. */
  function Load(items: seq<Item>): nat {
    if items == [] then 0 else Load(items[..|items| - 1]) + if items[|items| - 1].Local? then 3 else 1
  }

  function Work(sv: Server): nat {
    Load(sv.broadcast) + 2 * |sv.wire|
  }

  lemma {:induction false} LoadFirst(items: seq<Item>)
    requires items != []
    ensures Load(items) == (if items[0].Local? then 3 else 1) + Load(items[1..])
  {
    if |items| > 1 {
      LoadFirst(items[..|items| - 1]);
      assert items[..|items| - 1][1..] == items[1..][..|items| - 2];
    }
  }

  lemma LoadMore(items: seq<Item>, item: Item)
    ensures Load(items + [item]) == Load(items) + if item.Local? then 3 else 1
  {
    assert (items + [item])[..|items|] == items;
  }

  /** The clients whose channels are full of live messages. */
  function Crowded(sv: Server): set<Sessions.Client> {
    set c | c in sv.live && |sv.live[c]| >= TakenBy(sv, c) + Sessions.CAPACITY
  }

  function Crowds(sv: Server, m: Message, at: nat): Full {
    Full(Crowded(sv), Crowded(DeliveredToTarget(sv, m, at, Full(Crowded(sv), {}))))
  }

  lemma CrowdsAreFull(sv: Server, m: Message, at: nat)
    ensures CanBeFull(sv, m, at, Crowds(sv, m, at))
  {
  }

  lemma TurnsOfLocals(c: Cluster, s: ServerId)
    requires s in c.servers && c.servers[s].broadcast != [] && c.servers[s].broadcast[0].Local?
    ensures var turn := Turn(s, Full({}, {}), true);
            && Enabled(c, turn) && s in Next(c, turn).servers
            && Work(Next(c, turn).servers[s]) < Work(c.servers[s])
  {
    LoadFirst(c.servers[s].broadcast);
  }

  lemma TurnsOfOthers(c: Cluster, s: ServerId)
    requires s in c.servers && ServerOk(c.bus, c.servers[s])
    requires c.servers[s].broadcast != [] && c.servers[s].broadcast[0].FromRedis?
    ensures c.servers[s].broadcast[0].at < |c.bus|
    ensures var at := c.servers[s].broadcast[0].at;
            var turn := Turn(s, Crowds(c.servers[s], c.bus[at], at), true);
            && Enabled(c, turn) && s in Next(c, turn).servers
            && Work(Next(c, turn).servers[s]) < Work(c.servers[s])
  {
    var sv := c.servers[s];
    assert sv.broadcast[0] in sv.broadcast;
    var at := sv.broadcast[0].at;
    CrowdsAreFull(sv, c.bus[at], at);
    LoadFirst(sv.broadcast);
    DeliveredQueues(sv.(broadcast := sv.broadcast[1..]), c.bus[at], at, Crowds(sv, c.bus[at], at));
  }

  lemma DeliveredQueues(sv: Server, m: Message, at: nat, full: Full)
    ensures Delivered(sv, m, at, full).broadcast == sv.broadcast && Delivered(sv, m, at, full).wire == sv.wire
  {
  }

  lemma Listens(c: Cluster, s: ServerId)
    requires s in c.servers && ServerOk(c.bus, c.servers[s])
    requires c.servers[s].broadcast == [] && c.servers[s].wire != []
    ensures Enabled(c, Listen(s)) && s in Next(c, Listen(s)).servers
    ensures Work(Next(c, Listen(s)).servers[s]) < Work(c.servers[s])
  {
    var sv := c.servers[s];
    assert ToCome(sv)[0] == sv.wire[0];
    LoadMore(sv.broadcast, FromRedis(sv.wire[0]));
  }

  /** A step of the server itself that leaves it less to do. */
  lemma WorkCanBeDone(c: Cluster, s: ServerId) returns (a: Action)
    requires s in c.servers && ServerOk(c.bus, c.servers[s])
    requires c.servers[s].broadcast != [] || c.servers[s].wire != []
    ensures (a.Turn? || a.Listen?) && a.s == s && Enabled(c, a) && s in Next(c, a).servers
    ensures Work(Next(c, a).servers[s]) < Work(c.servers[s])
  {
    var sv := c.servers[s];
    if sv.broadcast == [] {
      Listens(c, s);
      a := Listen(s);
    } else if sv.broadcast[0].Local? {
      TurnsOfLocals(c, s);
      a := Turn(s, Full({}, {}), true);
    } else {
      TurnsOfOthers(c, s);
      a := Turn(s, Crowds(sv, c.bus[sv.broadcast[0].at], sv.broadcast[0].at), true);
    }
  }

  /** From every state of every run, by steps of its listener and its loop alone, a server can get to where
      nothing is queued and nothing on its way. */
  lemma {:induction false} ServerCanRest(run: seq<Cluster>, actions: seq<Action>, s: ServerId)
      returns (run': seq<Cluster>, actions': seq<Action>)
    requires IsRun(run, actions) && s in run[|actions|].servers
    ensures IsRun(run', actions') && run <= run' && actions <= actions'
    ensures forall i | |actions| <= i < |actions'| :: (actions'[i].Turn? || actions'[i].Listen?) && actions'[i].s == s
    ensures s in run'[|actions'|].servers
    ensures var sv := run'[|actions'|].servers[s]; sv.broadcast == [] && sv.wire == [] && ToCome(sv) == []
    decreases Work(run[|actions|].servers[s])
  {
    run', actions' := run, actions;
    var c := run[|actions|];
    if c.servers[s].broadcast != [] || c.servers[s].wire != [] {
      RunKeepsOrder(run, actions, |actions|);
      assert ServerOk(c.bus, c.servers[s]);
      var a := WorkCanBeDone(c, s);
      run', actions' := OneMessage.Extended(run, actions, a, Next(c, a));
      run', actions' := ServerCanRest(run', actions', s);
    }
  }
}
