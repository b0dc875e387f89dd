/**
 `NewHub` starts the Redis listener in a goroutine and announces the server at once, so that the first
 announcement may come before the subscription. And a user may enter a room that has the name of the signals'
 channel, and leaving it take the subscription away. What the servers then know of each other when gossip rests.
 */
module LateSubscription {
  import opened RingSpec
  import opened Options
  import opened Gossip
  import opened Convergence
  import Watcher

  ghost predicate IsComing(l: Layout, ids: set<ServerId>, run: seq<Cluster>, actions: seq<Action>) {
    && IsRun(l, run, actions) && run[0] == NOBODY
    && (forall a | a in actions :: Concerns(a, ids))
    && forall i {:trigger Comes(run[i], actions[i])} | 0 <= i < |actions| :: Comes(run[i], actions[i])
  }

  predicate PublishesJoin(act: Action, a: ServerId) {
    act == Announce(a) || act == Answer(a)
  }

  /** The action publishes a JOIN of `a` when `b` is subscribed. */
  predicate Reaches(c: Cluster, act: Action, a: ServerId, b: ServerId) {
    PublishesJoin(act, a) && b in c.nodes && c.nodes[b].subscribed
  }

  /** One of the first `n` actions did. */
  ghost predicate HeardOf(run: seq<Cluster>, actions: seq<Action>, n: nat, b: ServerId, a: ServerId)
    requires n <= |actions| <= |run|
  {
    exists i {:trigger Reaches(run[i], actions[i], a, b)} | 0 <= i < n :: Reaches(run[i], actions[i], a, b)
  }

  /** `a` is in the server's ring, or will be. */
  predicate IsAware(n: Node, a: ServerId) {
    a in Members(n.keeper.ring) || JoinOf(a) in n.inbox
  }

  predicate Knows(c: Cluster, b: ServerId, a: ServerId) {
    b in c.nodes && IsAware(c.nodes[b], a)
  }

  ghost predicate OnlyJoins(n: Node) {
    forall sig | sig in n.inbox :: sig.JoinOf?
  }

  ghost predicate AllJoins(c: Cluster) {
    forall s {:trigger OnlyJoins(c.nodes[s])} | s in c.nodes :: OnlyJoins(c.nodes[s])
  }

  lemma PublicationStep(c: Cluster, p: ServerId, c': Cluster, b: ServerId, a: ServerId)
    requires p in c.nodes && Heralded(c, p, c') && AllJoins(c)
    ensures AllJoins(c')
    ensures Knows(c', b, a) <==> Knows(c, b, a) || (a == p && b in c.nodes && c.nodes[b].subscribed)
  {
    forall s | s in c'.nodes ensures OnlyJoins(c'.nodes[s]) {
      assert OnlyJoins(c.nodes[s]);
    }
  }

  lemma ReceivedAware(l: Layout, ids: set<ServerId>, s: ServerId, n: Node, now: int, a: ServerId)
    requires Distinct(l, ids) && l.replicas > 0 && NodeOk(l, ids, s, n, now) && n.inbox != [] && OnlyJoins(n) && a != s
    ensures OnlyJoins(Received(l, s, n)) && (IsAware(Received(l, s, n), a) <==> IsAware(n, a))
  {
    var first, rest := n.inbox[0], n.inbox[1..];
    assert n.inbox == [first] + rest && first in n.inbox;
    MembersStep(l, ids, n.keeper.ring, first.id);
  }

  /** A server's own steps do not change what it is aware of. */
  lemma OwnStepAware(l: Layout, ids: set<ServerId>, c: Cluster, act: Action, a: ServerId)
    requires Distinct(l, ids) && l.replicas > 0 && Safe(l, ids, c) && AllJoins(c)
    requires Enabled(c, act) && Comes(c, act)
    requires act.Subscribe? || act.Unsubscribe? || act.Receive? || act.Stamp? || act.Sweep? || act.Visit? || act.Rest?
    ensures Next(l, c, act) == c.(nodes := c.nodes[act.s := Next(l, c, act).nodes[act.s]])
    ensures var n := Next(l, c, act).nodes[act.s];
            OnlyJoins(n) && (a != act.s ==> (IsAware(n, a) <==> IsAware(c.nodes[act.s], a)))
  {
    assert NodeOk(l, ids, act.s, c.nodes[act.s], c.now) && OnlyJoins(c.nodes[act.s]);
    if act.Receive? {
      assert forall sig | sig in c.nodes[act.s].inbox[1..] :: sig in c.nodes[act.s].inbox;
      if a != act.s {
        ReceivedAware(l, ids, act.s, c.nodes[act.s], c.now, a);
      }
    }
  }

  lemma OneNodeAware(c: Cluster, s: ServerId, n: Node, b: ServerId, a: ServerId)
    requires AllJoins(c) && OnlyJoins(n) && s in c.nodes && a != b
    requires a != s ==> (IsAware(n, a) <==> IsAware(c.nodes[s], a))
    ensures AllJoins(c.(nodes := c.nodes[s := n]))
    ensures Knows(c.(nodes := c.nodes[s := n]), b, a) <==> Knows(c, b, a)
  {
    var after := c.nodes[s := n];
    forall t | t in after ensures OnlyJoins(after[t]) {
      assert t != s ==> OnlyJoins(c.nodes[t]);
    }
  }

  lemma BootAware(l: Layout, ids: set<ServerId>, c: Cluster, s: ServerId, b: ServerId, a: ServerId)
    requires Distinct(l, ids) && l.replicas > 0 && AllJoins(c) && a != b && s in ids && Enabled(c, Boot(s))
    ensures AllJoins(Next(l, c, Boot(s)))
    ensures Knows(Next(l, c, Boot(s)), b, a) <==> Knows(c, b, a)
  {
    BootedOk(l, ids, s, c.now);
    var after := Next(l, c, Boot(s)).nodes;
    forall t | t in after ensures OnlyJoins(after[t]) {
      assert t != s ==> OnlyJoins(c.nodes[t]);
    }
  }

  lemma TickAware(c: Cluster, later: int)
    requires AllJoins(c)
    ensures AllJoins(c.(now := later))
  {
    forall s | s in c.nodes ensures OnlyJoins(c.(now := later).nodes[s]) {
      assert OnlyJoins(c.nodes[s]);
    }
  }

  lemma PublicationAware(l: Layout, c: Cluster, act: Action, b: ServerId, a: ServerId)
    requires AllJoins(c) && Enabled(c, act) && (act.Announce? || act.Answer?)
    ensures AllJoins(Next(l, c, act))
    ensures Knows(Next(l, c, act), b, a) <==> Knows(c, b, a) || Reaches(c, act, a, b)
  {
    var c' := Next(l, c, act);
    assert Heralded(c, act.s, c') by {
      var n := c.nodes[act.s].(answering := act.Announce? && c.nodes[act.s].answering, announced := true);
      assert c.nodes[act.s].(announced := true) == n || act.Answer?;
      PublishHeralds(c, act.s, n, c.(nodes := Publish(c.nodes[act.s := n], JoinOf(act.s))));
    }
    PublicationStep(c, act.s, c', b, a);
  }

  lemma OwnAware(l: Layout, ids: set<ServerId>, c: Cluster, act: Action, b: ServerId, a: ServerId)
    requires Distinct(l, ids) && l.replicas > 0 && Safe(l, ids, c) && AllJoins(c) && a != b
    requires Enabled(c, act) && Comes(c, act)
    requires act.Subscribe? || act.Unsubscribe? || act.Receive? || act.Stamp? || act.Sweep? || act.Visit? || act.Rest?
    ensures AllJoins(Next(l, c, act)) && (Knows(Next(l, c, act), b, a) <==> Knows(c, b, a))
  {
    OwnStepAware(l, ids, c, act, a);
    OneNodeAware(c, act.s, Next(l, c, act).nodes[act.s], b, a);
  }

  /** What is known changes only by publications. */
  lemma KnowledgeStep(l: Layout, ids: set<ServerId>, c: Cluster, act: Action, b: ServerId, a: ServerId)
    requires Distinct(l, ids) && l.replicas > 0 && Safe(l, ids, c) && AllJoins(c) && a != b
    requires Enabled(c, act) && Concerns(act, ids) && Comes(c, act)
    ensures AllJoins(Next(l, c, act))
    ensures Knows(Next(l, c, act), b, a) <==> Knows(c, b, a) || Reaches(c, act, a, b)
  {
    if act.Announce? || act.Answer? {
      PublicationAware(l, c, act, b, a);
    } else if act.Boot? {
      BootAware(l, ids, c, act.s, b, a);
    } else if act.Tick? {
      TickAware(c, act.later);
    } else {
      OwnAware(l, ids, c, act, b, a);
    }
  }

  lemma {:induction false} KnowsIffHeard(l: Layout, ids: set<ServerId>, run: seq<Cluster>, actions: seq<Action>, n: nat,
                                         b: ServerId, a: ServerId)
    requires Distinct(l, ids) && l.replicas > 0 && IsComing(l, ids, run, actions) && n <= |actions| && a != b
    ensures Safe(l, ids, run[n]) && AllJoins(run[n])
    ensures Knows(run[n], b, a) <==> HeardOf(run, actions, n, b, a)
  {
    RunIsSafe(l, ids, run, actions, n);
    if n > 0 {
      KnowsIffHeard(l, ids, run, actions, n - 1, b, a);
      var c, act := run[n - 1], actions[n - 1];
      assert Leads(l, run, actions, n - 1) && Comes(c, act) && act in actions;
      KnowledgeStep(l, ids, c, act, b, a);
      assert HeardOf(run, actions, n, b, a) <==> HeardOf(run, actions, n - 1, b, a) || Reaches(c, act, a, b);
    }
  }

  /** When gossip rests, a server has another in its ring if and only if a JOIN of the other was published
      when it was subscribed. */
  lemma RestIffHeard(l: Layout, ids: set<ServerId>, run: seq<Cluster>, actions: seq<Action>, b: ServerId, a: ServerId)
    requires Distinct(l, ids) && l.replicas > 0 && IsComing(l, ids, run, actions) && a != b
    requires AtRest(run[|actions|]) && b in run[|actions|].nodes
    ensures a in MembersAt(run[|actions|], b) <==> HeardOf(run, actions, |actions|, b, a)
  {
    KnowsIffHeard(l, ids, run, actions, |actions|, b, a);
  }

  // ---------- a server that stays ignorant ----------

  /** Two servers are up, the second not yet subscribed. */
  lemma BothUp(l: Layout, s: ServerId, x: ServerId) returns (run: seq<Cluster>, actions: seq<Action>)
    requires s != x
    ensures IsRun(l, run, actions) && run[0] == NOBODY
    ensures actions == [Boot(s), Subscribe(s), Boot(x)]
    ensures run[3] == Watcher.Two(s, Watcher.Idle(Booted(l, s), [], false), x, Newborn(l, x), 0)
  {
    var n := Watcher.Idle(Booted(l, s), [], false);
    run, actions := [NOBODY], [];
    run, actions := Watcher.Extended(l, run, actions, Boot(s), Cluster(map[s := Newborn(l, s)], 0));
    run, actions := Watcher.Extended(l, run, actions, Subscribe(s), Cluster(map[s := n], 0));
    run, actions := Watcher.Extended(l, run, actions, Boot(x), Watcher.Two(s, n, x, Newborn(l, x), 0));
  }

  /** `x` announces itself while not subscribed, ... */
  lemma AnnouncedDeaf(l: Layout, s: ServerId, x: ServerId, run0: seq<Cluster>, actions0: seq<Action>)
      returns (run: seq<Cluster>, actions: seq<Action>)
    requires s != x && IsRun(l, run0, actions0)
    requires run0[|actions0|] == Watcher.Two(s, Watcher.Idle(Booted(l, s), [], false), x, Newborn(l, x), 0)
    ensures IsRun(l, run, actions) && run0 <= run && actions == actions0 + [Announce(x)]
    ensures run[|actions|] == Watcher.Two(s, Watcher.Idle(Booted(l, s), [JoinOf(x)], false),
                                          x, Newborn(l, x).(announced := true), 0)
  {
    var n := Watcher.Idle(Booted(l, s), [], false);
    var told, early := Watcher.Told(n, JoinOf(x)), Newborn(l, x).(announced := true);
    assert map[s := n, x := Newborn(l, x)][x := early] == map[s := n, x := early];
    PublishToOne(s, n, x, early, JoinOf(x));
    assert told == Watcher.Idle(Booted(l, s), [JoinOf(x)], false);
    run, actions := Watcher.Extended(l, run0, actions0, Announce(x), Watcher.Two(s, told, x, early, 0));
  }

  lemma PublishToOne(s: ServerId, n: Node, x: ServerId, m: Node, sig: Signal)
    requires s != x && n.subscribed && !m.subscribed
    ensures Publish(map[s := n, x := m], sig) == map[s := Watcher.Told(n, sig), x := m]
  {
  }

  /** ... `s` adds and stamps `x`, ... */
  lemma AddedByOne(l: Layout, ids: set<ServerId>, s: ServerId, x: ServerId, run0: seq<Cluster>,
                   actions0: seq<Action>)
      returns (run: seq<Cluster>, actions: seq<Action>)
    requires Distinct(l, ids) && l.replicas > 0 && s in ids && x in ids && s != x && IsRun(l, run0, actions0)
    requires run0[|actions0|] == Watcher.Two(s, Watcher.Idle(Booted(l, s), [JoinOf(x)], false),
                                             x, Newborn(l, x).(announced := true), 0)
    ensures IsRun(l, run, actions) && run0 <= run && actions == actions0 + [Receive(s), Stamp(s)]
    ensures run[|actions|] == Watcher.Two(s, Watcher.Idle(Watcher.Peered(l, s, x), [], false).(answering := true),
                                          x, Newborn(l, x).(announced := true), 0)
  {
    Watcher.JoinedMembers(l, ids, s, x);
    var told, early := Watcher.Idle(Booted(l, s), [JoinOf(x)], false), Newborn(l, x).(announced := true);
    var added := Watcher.Idle(Keeper(Watcher.Joined(l, s, x), map[]), [], false).(joining := Some(x));
    assert Received(l, s, told) == added;
    Watcher.OwnStepOfTwo(l, s, told, x, early, 0, Receive(s), added);
    run, actions := Watcher.Extended(l, run0, actions0, Receive(s), Watcher.Two(s, added, x, early, 0));
    var marked := Watcher.Idle(Watcher.Peered(l, s, x), [], false).(answering := true);
    Watcher.OwnStepOfTwo(l, s, added, x, early, 0, Stamp(s), marked);
    run, actions := Watcher.Extended(l, run, actions, Stamp(s), Watcher.Two(s, marked, x, early, 0));
  }

  /** What comes of announcing oneself while not subscribed. */
  function Unheard(s: ServerId, x: ServerId): seq<Action> {
    [Announce(x)] + [Receive(s), Stamp(s)] + [Answer(s), Receive(s), Subscribe(x)]
  }

  /** ... gossip rests, everybody is announced and subscribed, and `x` does not know `s`. */
  ghost predicate RestsApart(c: Cluster, s: ServerId, x: ServerId) {
    && AtRest(c) && c.nodes.Keys == {s, x} && Announced(c, s) && Announced(c, x)
    && c.nodes[s].subscribed && c.nodes[x].subscribed && s !in MembersAt(c, x)
  }

  lemma DeafAnnouncement(l: Layout, ids: set<ServerId>, s: ServerId, x: ServerId, run0: seq<Cluster>,
                         actions0: seq<Action>)
      returns (run: seq<Cluster>, actions: seq<Action>)
    requires Distinct(l, ids) && l.replicas > 0 && s in ids && x in ids && s != x && IsRun(l, run0, actions0)
    requires run0[|actions0|] == Watcher.Two(s, Watcher.Idle(Booted(l, s), [], false), x, Newborn(l, x), 0)
    ensures IsRun(l, run, actions) && run0 <= run && actions == actions0 + Unheard(s, x)
    ensures RestsApart(run[|actions|], s, x)
  {
    BootedOk(l, ids, x, 0);
    run, actions := AnnouncedDeaf(l, s, x, run0, actions0);
    run, actions := AddedByOne(l, ids, s, x, run, actions);
    var marked := Watcher.Idle(Watcher.Peered(l, s, x), [], false).(answering := true);
    run, actions := AnsweredInVain(l, s, x, marked, Newborn(l, x).(announced := true), run, actions);
    assert actions0 + [Announce(x)] + [Receive(s), Stamp(s)] + [Answer(s), Receive(s), Subscribe(x)]
        == actions0 + Unheard(s, x);
  }

  /** A server that announces itself before its subscription may miss another for good. */
  lemma EarlyAnnouncementBreaksAgreement(l: Layout, ids: set<ServerId>, s: ServerId, x: ServerId)
      returns (run: seq<Cluster>, actions: seq<Action>)
    requires Distinct(l, ids) && l.replicas > 0 && s in ids && x in ids && s != x
    ensures IsRun(l, run, actions) && run[0] == NOBODY
    ensures actions == [Boot(s), Subscribe(s), Boot(x)] + Unheard(s, x)
    ensures RestsApart(run[|actions|], s, x)
  {
    run, actions := BothUp(l, s, x);
    run, actions := DeafAnnouncement(l, ids, s, x, run, actions);
  }

  /** And so may one whose subscription the last client of a room called global_signals has taken away. */
  lemma LostSubscriptionBreaksAgreement(l: Layout, ids: set<ServerId>, s: ServerId, x: ServerId)
      returns (run: seq<Cluster>, actions: seq<Action>)
    requires Distinct(l, ids) && l.replicas > 0 && s in ids && x in ids && s != x
    ensures IsRun(l, run, actions) && run[0] == NOBODY
    ensures actions == [Boot(s), Subscribe(s), Boot(x)] + [Subscribe(x), Unsubscribe(x)] + Unheard(s, x)
    ensures RestsApart(run[|actions|], s, x)
  {
    run, actions := BothUp(l, s, x);
    var n, up := Watcher.Idle(Booted(l, s), [], false), Watcher.Idle(Booted(l, x), [], false);
    assert map[s := n, x := Newborn(l, x)][x := up] == map[s := n, x := up];
    run, actions := Watcher.Extended(l, run, actions, Subscribe(x), Watcher.Two(s, n, x, up, 0));
    assert map[s := n, x := up][x := Newborn(l, x)] == map[s := n, x := Newborn(l, x)];
    run, actions := Watcher.Extended(l, run, actions, Unsubscribe(x), Watcher.Two(s, n, x, Newborn(l, x), 0));
    run, actions := DeafAnnouncement(l, ids, s, x, run, actions);
  }

  lemma AnswerToOne(l: Layout, s: ServerId, n: Node, x: ServerId, m: Node)
    requires s != x && n.subscribed && n.answering && !m.subscribed
    ensures Next(l, Watcher.Two(s, n, x, m, 0), Answer(s)) ==
            Watcher.Two(s, Watcher.Told(n.(answering := false, announced := true), JoinOf(s)), x, m, 0)
  {
    var later := n.(answering := false, announced := true);
    assert map[s := n, x := m][s := later] == map[s := later, x := m];
    PublishToOne(s, later, x, m, JoinOf(s));
  }

  lemma AnsweredInVain(l: Layout, s: ServerId, x: ServerId, n: Node, m: Node, run0: seq<Cluster>, actions0: seq<Action>)
      returns (run: seq<Cluster>, actions: seq<Action>)
    requires s != x && IsRun(l, run0, actions0) && run0[|actions0|] == Watcher.Two(s, n, x, m, 0)
    requires n == Watcher.Idle(n.keeper, [], false).(answering := true) && m == Newborn(l, x).(announced := true)
    ensures IsRun(l, run, actions) && run0 <= run && actions == actions0 + [Answer(s), Receive(s), Subscribe(x)]
    ensures run[|actions|] == Watcher.Two(s, Watcher.Idle(n.keeper, [], true),
                                          x, Watcher.Idle(Booted(l, x), [], true), 0)
  {
    var one := Watcher.Idle(n.keeper, [JoinOf(s)], true);
    AnswerToOne(l, s, n, x, m);
    assert Watcher.Told(n.(answering := false, announced := true), JoinOf(s)) == one;
    run, actions := Watcher.Extended(l, run0, actions0, Answer(s), Watcher.Two(s, one, x, m, 0));
    var quiet, late := Watcher.Idle(n.keeper, [], true), Watcher.Idle(Booted(l, x), [], true);
    assert Received(l, s, one) == quiet;
    Watcher.OwnStepOfTwo(l, s, one, x, m, 0, Receive(s), quiet);
    run, actions := Watcher.Extended(l, run, actions, Receive(s), Watcher.Two(s, quiet, x, m, 0));
    assert map[s := quiet, x := m][x := late] == map[s := quiet, x := late];
    run, actions := Watcher.Extended(l, run, actions, Subscribe(x), Watcher.Two(s, quiet, x, late, 0));
  }
}
