/**
 What the watcher in `IsOnline` (internal/chat/hub.go) leaves behind, and what the heartbeat does for a
 peer. The watcher's pass interleaves with the listener, which changes the ring without the hub's mutex.
 */
module Watcher {
  import opened RingSpec
  import opened Options
  import opened Gossip

  /** Until it rests, or its server crashes, the watcher goes by the time at which its pass began. */
  lemma {:induction false} PassGoesOn(l: Layout, run: seq<Cluster>, actions: seq<Action>, i: nat, n: nat, s: ServerId)
    requires IsRun(l, run, actions) && i < n <= |actions| && actions[i] == Sweep(s)
    requires forall k | i < k < n :: actions[k] != Rest(s) && actions[k] != Crash(s)
    ensures s in run[n].nodes && run[n].nodes[s].pass.Some? && run[n].nodes[s].pass.value.at == run[i].now
    decreases n
  {
    assert Leads(l, run, actions, n - 1);
    if i < n - 1 {
      PassGoesOn(l, run, actions, i, n - 1, s);
    }
  }

  /** When a pass is over, every remote member has a stamp that was at most 20 seconds old when the pass began,
      but for the one whose JOIN is still being handled; and the server itself is a member. */
  lemma WatcherBound(l: Layout, ids: set<ServerId>, run: seq<Cluster>, actions: seq<Action>, i: nat, n: nat,
                     s: ServerId)
    requires Distinct(l, ids) && l.replicas > 0 && IsRun(l, run, actions) && run[0] == NOBODY
    requires forall a | a in actions :: Concerns(a, ids)
    requires i < n < |actions| && actions[i] == Sweep(s) && actions[n] == Rest(s)
    requires forall k | i < k < n :: actions[k] != Rest(s) && actions[k] != Crash(s)
    ensures s in run[n + 1].nodes
    ensures var k, joining := run[n + 1].nodes[s].keeper, run[n + 1].nodes[s].joining;
            && s in Members(k.ring)
            && forall m | m in Members(k.ring) && m != s && joining != Some(m) ::
                 m in k.lastSeen && run[i].now - k.lastSeen[m] <= 20_000_000_000
  {
    PassGoesOn(l, run, actions, i, n, s);
    assert Leads(l, run, actions, n);
    RunIsSafe(l, ids, run, actions, n);
    assert NodeOk(l, ids, s, run[n].nodes[s], run[n].now);
  }

  /** The watcher removes the server it looks at exactly if its entry is stale, and no other. */
  lemma VisitEvictsIff(l: Layout, ids: set<ServerId>, c: Cluster, s: ServerId, id: ServerId)
    requires Distinct(l, ids) && l.replicas > 0 && Safe(l, ids, c) && Enabled(c, Visit(s, id))
    ensures var n, n' := c.nodes[s], Next(l, c, Visit(s, id)).nodes[s];
            && (forall m | m != id :: m in Members(n'.keeper.ring) <==> m in Members(n.keeper.ring))
            && (id in Members(n'.keeper.ring) <==>
                  id in Members(n.keeper.ring) && n.pass.value.at - n.keeper.lastSeen[id] <= 20_000_000_000)
  {
    assert NodeOk(l, ids, s, c.nodes[s], c.now);
    VisitedOk(l, ids, s, c.nodes[s].keeper, c.now, c.nodes[s].pass.value.at, id);
  }

  /** Visits with nothing in between are the pass that module Keeper's loop makes. */
  lemma {:induction false} VisitsAreAPass(l: Layout, run: seq<Cluster>, actions: seq<Action>, i: nat, s: ServerId,
                                          order: seq<ServerId>)
    requires IsRun(l, run, actions) && i + |order| <= |actions|
    requires s in run[i].nodes && run[i].nodes[s].pass.Some?
    requires forall k | 0 <= k < |order| :: actions[i + k] == Visit(s, order[k])
    ensures var c, n := run[i + |order|], run[i].nodes[s];
            && s in c.nodes && c.nodes[s].pass.Some? && c.nodes[s].pass.value.at == n.pass.value.at
            && c.nodes[s].keeper == VisitAll(l, n.keeper, n.pass.value.at, order)
    decreases |order|
  {
    if order != [] {
      var k := |order| - 1;
      VisitsAreAPass(l, run, actions, i, s, order[..k]);
      assert Leads(l, run, actions, i + k) && actions[i + k] == Visit(s, order[k]);
    }
  }

  /** Go ranges over a map in any order; the outcome of a pass does not depend on it. */
  lemma PassOrderIrrelevant(l: Layout, ids: set<ServerId>, self: ServerId, k: Keeper, now: int,
                            order: seq<ServerId>, order': seq<ServerId>)
    requires Distinct(l, ids) && l.replicas > 0 && KeeperOk(l, ids, self, k, now)
    requires ListsEntries(k, order) && ListsEntries(k, order')
    ensures VisitAll(l, k, now, order) == VisitAll(l, k, now, order')
  {
    assert StaleOf(k, now, order) == StaleOf(k, now, order');
    VisitAllOk(l, ids, self, k, now, now, order);
    VisitAllOk(l, ids, self, k, now, now, order');
    var r, r' := VisitAll(l, k, now, order).ring, VisitAll(l, k, now, order').ring;
    Canonical(l, Members(r), r, r');
  }

  // ---------- heartbeats ----------

  /** `x` is a stamped member of the ring of `s`. */
  ghost predicate IsPeer(c: Cluster, s: ServerId, x: ServerId) {
    && s in c.nodes
    && x in Members(c.nodes[s].keeper.ring) && x in c.nodes[s].keeper.lastSeen
    && c.nodes[s].joining != Some(x)
  }

  function StampOf(c: Cluster, s: ServerId, x: ServerId): int
    requires s in c.nodes && x in c.nodes[s].keeper.lastSeen
  {
    c.nodes[s].keeper.lastSeen[x]
  }

  /** The steps of `s` itself that write to its ledger. */
  lemma LedgerWrites(l: Layout, ids: set<ServerId>, s: ServerId, n: Node, now: int, x: ServerId)
    requires NodeOk(l, ids, s, n, now) && x in Members(n.keeper.ring) && x in n.keeper.lastSeen && n.joining != Some(x)
    ensures n.joining.Some? ==> x in Marked(n, now).keeper.lastSeen &&
                                Marked(n, now).keeper.lastSeen[x] == n.keeper.lastSeen[x]
    ensures forall id | n.pass.Some? && x in Inspected(l, n, id).keeper.lastSeen ::
              Inspected(l, n, id).keeper.lastSeen[x] == n.keeper.lastSeen[x]
    ensures n.inbox != [] ==> Received(l, s, n).keeper.lastSeen == n.keeper.lastSeen
  {
  }

  lemma OthersKeepLedger(l: Layout, c: Cluster, a: Action, s: ServerId)
    requires Enabled(c, a) && s in c.nodes && s in Next(l, c, a).nodes
    requires !((a.Receive? || a.Stamp? || a.Visit?) && a.s == s)
    ensures Next(l, c, a).nodes[s].keeper.lastSeen == c.nodes[s].keeper.lastSeen
  {
  }

  lemma StampUnchanged(l: Layout, ids: set<ServerId>, c: Cluster, a: Action, s: ServerId, x: ServerId)
    requires Safe(l, ids, c) && Enabled(c, a)
    requires IsPeer(c, s, x) && IsPeer(Next(l, c, a), s, x)
    ensures StampOf(Next(l, c, a), s, x) == StampOf(c, s, x)
  {
    if (a.Receive? || a.Stamp? || a.Visit?) && a.s == s {
      LedgerWrites(l, ids, s, c.nodes[s], c.now, x);
    } else {
      OthersKeepLedger(l, c, a, s);
    }
  }

  /** While `x` stays a member, nothing the cluster does refreshes its stamp, however many JOINs of `x`
      arrive. */
  lemma {:induction false} StampIsFirstJoin(l: Layout, ids: set<ServerId>, run: seq<Cluster>, actions: seq<Action>,
                                            i: nat, j: nat, s: ServerId, x: ServerId)
    requires Distinct(l, ids) && l.replicas > 0
    requires IsRun(l, run, actions) && run[0] == NOBODY && i <= j < |run|
    requires forall a | a in actions :: Concerns(a, ids)
    requires forall n | i <= n <= j :: IsPeer(run[n], s, x)
    ensures IsPeer(run[i], s, x) && IsPeer(run[j], s, x)
    ensures StampOf(run[j], s, x) == StampOf(run[i], s, x)
    decreases j
  {
    assert IsPeer(run[i], s, x) && IsPeer(run[j], s, x);
    if i < j {
      assert IsPeer(run[j - 1], s, x);
      StampIsFirstJoin(l, ids, run, actions, i, j - 1, s, x);
      assert Leads(l, run, actions, j - 1) && actions[j - 1] in actions;
      RunIsSafe(l, ids, run, actions, j - 1);
      StampUnchanged(l, ids, run[j - 1], actions[j - 1], s, x);
    }
  }

  /** The `LastSeen` write stamps the server whose JOIN has just been added, with the time of that moment. */
  lemma StampIsJoinTime(l: Layout, run: seq<Cluster>, actions: seq<Action>, i: nat, s: ServerId, x: ServerId)
    requires IsRun(l, run, actions) && i < |actions| && actions[i] == Stamp(s)
    requires s in run[i].nodes && run[i].nodes[s].joining == Some(x)
    ensures s in run[i + 1].nodes && x in run[i + 1].nodes[s].keeper.lastSeen
    ensures StampOf(run[i + 1], s, x) == run[i].now
  {
    assert Leads(l, run, actions, i);
  }

  /** So heartbeats do not keep a peer alive: the watcher evicts a peer exactly if its pass began more than
      20 seconds after the JOIN that made it a member was stamped, whatever it has sent since. */
  lemma HeartbeatsDoNotKeepAPeer(l: Layout, ids: set<ServerId>, run: seq<Cluster>, actions: seq<Action>,
                                 i: nat, j: nat, s: ServerId, x: ServerId)
    requires Distinct(l, ids) && l.replicas > 0
    requires IsRun(l, run, actions) && run[0] == NOBODY && i < j < |actions|
    requires forall a | a in actions :: Concerns(a, ids)
    requires actions[i] == Stamp(s) && s in run[i].nodes && run[i].nodes[s].joining == Some(x)
    requires forall n | i < n <= j :: IsPeer(run[n], s, x)
    requires actions[j] == Visit(s, x)
    ensures s in run[j].nodes && run[j].nodes[s].pass.Some? && s in run[j + 1].nodes
    ensures x in Members(run[j + 1].nodes[s].keeper.ring)
       <==> run[j].nodes[s].pass.value.at - run[i].now <= 20_000_000_000
  {
    StampIsJoinTime(l, run, actions, i, s, x);
    StampIsFirstJoin(l, ids, run, actions, i + 1, j, s, x);
    assert Leads(l, run, actions, j);
    RunIsSafe(l, ids, run, actions, j);
    VisitEvictsIff(l, ids, run[j], s, x);
  }

  // ---------- a healthy peer, evicted ----------

  /** A run made one action longer. */
  lemma Extended(l: Layout, run: seq<Cluster>, actions: seq<Action>, a: Action, c: Cluster)
      returns (run': seq<Cluster>, actions': seq<Action>)
    requires IsRun(l, run, actions) && Enabled(run[|actions|], a) && c == Next(l, run[|actions|], a)
    ensures IsRun(l, run', actions') && run' == run + [c] && actions' == actions + [a]
  {
    run', actions' := run + [c], actions + [a];
    forall i | 0 <= i < |actions'| ensures Leads(l, run', actions', i) {
      if i < |actions| {
        assert Leads(l, run, actions, i);
      }
    }
  }

  /** A server with nothing going on. */
  function Idle(k: Keeper, inbox: seq<Signal>, announced: bool): Node {
    Node(k, inbox, true, None, false, announced, None)
  }

  function Two(s: ServerId, n: Node, x: ServerId, m: Node, now: int): Cluster {
    Cluster(map[s := n, x := m], now)
  }

  function Told(n: Node, sig: Signal): Node {
    n.(inbox := n.inbox + [sig])
  }

  lemma PublishToTwo(s: ServerId, n: Node, x: ServerId, m: Node, sig: Signal)
    requires s != x && n.subscribed && m.subscribed
    ensures Publish(map[s := n, x := m], sig) == map[s := Told(n, sig), x := Told(m, sig)]
  {
  }

  lemma AnnounceToTwo(l: Layout, s: ServerId, n: Node, x: ServerId, m: Node, now: int)
    requires s != x && n.subscribed && m.subscribed
    ensures Next(l, Two(s, n, x, m, now), Announce(x)) ==
            Two(s, Told(n, JoinOf(x)), x, Told(m.(announced := true), JoinOf(x)), now)
  {
    var later := m.(announced := true);
    PublishToTwo(s, n, x, later, JoinOf(x));
    assert map[s := n, x := m][x := later] == map[s := n, x := later];
  }

  lemma AnswerToTwo(l: Layout, s: ServerId, n: Node, x: ServerId, m: Node, now: int)
    requires s != x && n.subscribed && m.subscribed && n.answering
    ensures Next(l, Two(s, n, x, m, now), Answer(s)) ==
            Two(s, Told(n.(answering := false, announced := true), JoinOf(s)), x, Told(m, JoinOf(s)), now)
  {
    var later := n.(answering := false, announced := true);
    PublishToTwo(s, later, x, m, JoinOf(s));
    assert map[s := n, x := m][s := later] == map[s := later, x := m];
  }

  /** The other steps of `s` concern itself only. */
  lemma OwnStepOfTwo(l: Layout, s: ServerId, n: Node, x: ServerId, m: Node, now: int, a: Action, n': Node)
    requires s != x && (a.Receive? || a.Stamp? || a.Sweep? || a.Visit?) && a.s == s
    requires Enabled(Two(s, n, x, m, now), a) && Next(l, Two(s, n, x, m, now), a).nodes[s] == n'
    ensures Next(l, Two(s, n, x, m, now), a) == Two(s, n', x, m, now)
  {
    assert map[s := n, x := m][s := n'] == map[s := n', x := m];
  }

  /** The ring of `s` with `x`. */
  function Joined(l: Layout, s: ServerId, x: ServerId): RingState {
    Add(l, Booted(l, s).ring, x).0
  }

  function Peered(l: Layout, s: ServerId, x: ServerId): Keeper {
    Keeper(Joined(l, s, x), map[x := 0])
  }

  lemma JoinedRing(l: Layout, ids: set<ServerId>, s: ServerId, x: ServerId)
    requires Distinct(l, ids) && l.replicas > 0 && s in ids && x in ids && s != x
    ensures Add(l, Booted(l, s).ring, x).1 && IsOwnRing(l, ids, Joined(l, s, x)) && Members(Joined(l, s, x)) == {s, x}
  {
    BootedOk(l, ids, s, 0);
    MembersStep(l, ids, Booted(l, s).ring, x);
    assert {s} + {x} == {s, x};
  }

  lemma JoinedMembers(l: Layout, ids: set<ServerId>, s: ServerId, x: ServerId)
    requires Distinct(l, ids) && l.replicas > 0 && s in ids && x in ids && s != x
    ensures Add(l, Booted(l, s).ring, x).1 && x in Members(Joined(l, s, x))
    ensures Add(l, Joined(l, s, x), x) == (Joined(l, s, x), false)
    ensures x !in Members(Remove(l, Joined(l, s, x), x).0)
  {
    JoinedRing(l, ids, s, x);
    MembersStep(l, ids, Joined(l, s, x), x);
    RepeatsChangeNothing(l, {s, x}, Joined(l, s, x), x);
  }

  /** Two servers start. */
  lemma BothStart(l: Layout, s: ServerId, x: ServerId) returns (run: seq<Cluster>, actions: seq<Action>)
    requires s != x
    ensures IsRun(l, run, actions) && run[0] == NOBODY
    ensures actions == [Boot(s), Subscribe(s), Boot(x), Subscribe(x)]
    ensures run[4] == Two(s, Idle(Booted(l, s), [], false), x, Idle(Booted(l, x), [], false), 0)
  {
    var n, m := Idle(Booted(l, s), [], false), Idle(Booted(l, x), [], false);
    run, actions := [NOBODY], [];
    run, actions := Extended(l, run, actions, Boot(s), Cluster(map[s := Newborn(l, s)], 0));
    run, actions := Extended(l, run, actions, Subscribe(s), Cluster(map[s := n], 0));
    run, actions := Extended(l, run, actions, Boot(x), Two(s, n, x, Newborn(l, x), 0));
    run, actions := Extended(l, run, actions, Subscribe(x), Two(s, n, x, m, 0));
  }

  /** `x` announces itself; `s` adds it, stamps it at time 0 and answers. */
  lemma PeerJoins(l: Layout, ids: set<ServerId>, s: ServerId, x: ServerId)
      returns (run: seq<Cluster>, actions: seq<Action>)
    requires Distinct(l, ids) && l.replicas > 0 && s in ids && x in ids && s != x
    ensures IsRun(l, run, actions) && run[0] == NOBODY
    ensures actions == [Boot(s), Subscribe(s), Boot(x), Subscribe(x), Announce(x), Receive(s), Stamp(s), Answer(s)]
    ensures s in run[6].nodes && run[6].nodes[s].joining == Some(x) && run[6].now == 0
    ensures run[8] == Two(s, Idle(Peered(l, s, x), [JoinOf(s)], true),
                          x, Idle(Booted(l, x), [JoinOf(x), JoinOf(s)], true), 0)
  {
    var n, m := Idle(Booted(l, s), [], false), Idle(Booted(l, x), [], false);
    JoinedMembers(l, ids, s, x);
    run, actions := BothStart(l, s, x);
    AnnounceToTwo(l, s, n, x, m, 0);
    var told := Idle(Booted(l, x), [JoinOf(x)], true);
    assert Told(m.(announced := true), JoinOf(x)) == told;
    run, actions := Extended(l, run, actions, Announce(x), Two(s, Told(n, JoinOf(x)), x, told, 0));
    var added := Idle(Keeper(Joined(l, s, x), map[]), [], false).(joining := Some(x));
    assert Received(l, s, Told(n, JoinOf(x))) == added;
    OwnStepOfTwo(l, s, Told(n, JoinOf(x)), x, told, 0, Receive(s), added);
    run, actions := Extended(l, run, actions, Receive(s), Two(s, added, x, told, 0));
    var marked := Idle(Peered(l, s, x), [], false).(answering := true);
    OwnStepOfTwo(l, s, added, x, told, 0, Stamp(s), marked);
    run, actions := Extended(l, run, actions, Stamp(s), Two(s, marked, x, told, 0));
    AnswerToTwo(l, s, marked, x, told, 0);
    assert Told(told, JoinOf(s)) == Idle(Booted(l, x), [JoinOf(x), JoinOf(s)], true);
    assert Told(marked.(answering := false, announced := true), JoinOf(s)) == Idle(Peered(l, s, x), [JoinOf(s)], true);
    run, actions := Extended(l, run, actions, Answer(s), Next(l, run[7], Answer(s)));
  }

  /** Whatever has led to it: `s` hears a heartbeat of `x` 20 seconds after its JOIN, ... */
  lemma PeerBeats(l: Layout, ids: set<ServerId>, s: ServerId, x: ServerId, m: Node,
                  run0: seq<Cluster>, actions0: seq<Action>)
      returns (run: seq<Cluster>, actions: seq<Action>, m': Node)
    requires Distinct(l, ids) && l.replicas > 0 && s in ids && x in ids && s != x
    requires IsRun(l, run0, actions0) && m.subscribed
    requires run0[|actions0|] == Two(s, Idle(Peered(l, s, x), [JoinOf(s)], true), x, m, 0)
    ensures IsRun(l, run, actions) && run0 <= run
    ensures actions == actions0 + [Tick(TTL), Announce(x), Receive(s), Receive(s)]
    ensures run[|actions|] == Two(s, Idle(Peered(l, s, x), [], true), x, m', TTL)
    ensures run[|actions0| + 1].now == TTL
  {
    var k := Peered(l, s, x);
    JoinedMembers(l, ids, s, x);
    var n := Idle(k, [JoinOf(s)], true);
    run, actions := Extended(l, run0, actions0, Tick(TTL), Two(s, n, x, m, TTL));
    AnnounceToTwo(l, s, n, x, m, TTL);
    m' := Told(m.(announced := true), JoinOf(x));
    run, actions := Extended(l, run, actions, Announce(x), Two(s, Told(n, JoinOf(x)), x, m', TTL));
    var one := Idle(k, [JoinOf(x)], true);
    assert Received(l, s, Told(n, JoinOf(x))) == one;
    OwnStepOfTwo(l, s, Told(n, JoinOf(x)), x, m', TTL, Receive(s), one);
    run, actions := Extended(l, run, actions, Receive(s), Two(s, one, x, m', TTL));
    assert Received(l, s, one) == Idle(k, [], true);
    OwnStepOfTwo(l, s, one, x, m', TTL, Receive(s), Idle(k, [], true));
    run, actions := Extended(l, run, actions, Receive(s), Two(s, Idle(k, [], true), x, m', TTL));
  }

  /** ... and evicts it a nanosecond later. */
  lemma PeerIsSwept(l: Layout, ids: set<ServerId>, s: ServerId, x: ServerId, m: Node,
                    run0: seq<Cluster>, actions0: seq<Action>)
      returns (run: seq<Cluster>, actions: seq<Action>)
    requires Distinct(l, ids) && l.replicas > 0 && s in ids && x in ids && s != x
    requires IsRun(l, run0, actions0) && run0[|actions0|] == Two(s, Idle(Peered(l, s, x), [], true), x, m, TTL)
    ensures IsRun(l, run, actions) && run0 <= run && actions == actions0 + [Tick(TTL + 1), Sweep(s), Visit(s, x)]
    ensures run[|actions|].now == TTL + 1 && x in run[|actions|].nodes && s in run[|actions|].nodes
    ensures x !in Members(run[|actions|].nodes[s].keeper.ring)
  {
    var k, n, later := Peered(l, s, x), Idle(Peered(l, s, x), [], true), TTL + 1;
    JoinedMembers(l, ids, s, x);
    run, actions := Extended(l, run0, actions0, Tick(later), Two(s, n, x, m, later));
    var sweeping := n.(pass := Some(Pass(later, {x})));
    assert k.lastSeen.Keys == {x} && {x} - {x} == {};
    OwnStepOfTwo(l, s, n, x, m, later, Sweep(s), sweeping);
    run, actions := Extended(l, run, actions, Sweep(s), Two(s, sweeping, x, m, later));
    var swept := sweeping.(keeper := Evict(l, k, x), pass := Some(Pass(later, {})));
    OwnStepOfTwo(l, s, sweeping, x, m, later, Visit(s, x), swept);
    run, actions := Extended(l, run, actions, Visit(s, x), Two(s, swept, x, m, later));
  }

  /** Any two servers have a run in which one evicts the other a nanosecond after having heard its
      heartbeat. */
  lemma HealthyPeerIsEvicted(l: Layout, ids: set<ServerId>, s: ServerId, x: ServerId)
      returns (run: seq<Cluster>, actions: seq<Action>)
    requires Distinct(l, ids) && l.replicas > 0 && s in ids && x in ids && s != x
    ensures IsRun(l, run, actions) && run[0] == NOBODY
    ensures actions == [Boot(s), Subscribe(s), Boot(x), Subscribe(x), Announce(x), Receive(s), Stamp(s), Answer(s)]
                       + [Tick(TTL), Announce(x), Receive(s), Receive(s)] + [Tick(TTL + 1), Sweep(s), Visit(s, x)]
    ensures s in run[6].nodes && run[6].nodes[s].joining == Some(x) && run[6].now == 0
    ensures run[9].now == 20_000_000_000 && run[15].now == 20_000_000_001
    ensures IsPeer(run[12], s, x) && x in run[15].nodes && s in run[15].nodes
    ensures x !in Members(run[15].nodes[s].keeper.ring)
  {
    var run1, actions1 := PeerJoins(l, ids, s, x);
    var run2, actions2, m := PeerBeats(l, ids, s, x, Idle(Booted(l, x), [JoinOf(x), JoinOf(s)], true), run1, actions1);
    JoinedMembers(l, ids, s, x);
    assert IsPeer(run2[12], s, x);
    run, actions := PeerIsSwept(l, ids, s, x, m, run2, actions2);
    assert run[6] == run2[6] == run1[6] && run[9] == run2[9] && run[12] == run2[12] && run[0] == run1[0];
  }
}
