/**
 JOIN gossip while servers only come, each announced once it is subscribed and subscribed for good, and none
 goes: when it rests, every server holds the same ring. That it comes to rest is the subject of module
 Deliveries. The source does not make sure that a server is subscribed in time, nor for good; what happens if it
 is not is the subject of module LateSubscription.
 */
module Convergence {
  import opened RingSpec
  import opened Options
  import opened Gossip

  /** No server leaves, crashes or is evicted, and no chat message reads like a signal. */
  predicate Comes(c: Cluster, a: Action) {
    match a
    case Visit(s, id) =>
      s in c.nodes && c.nodes[s].pass.Some? && !IsStale(c.nodes[s].keeper, c.nodes[s].pass.value.at, id)
    case Depart(_) => false
    case Crash(_) => false
    case Typed(_, _) => false
    case _ => true
  }

  /** ... and no server announces itself before it is subscribed, or loses its subscription. */
  predicate Grows(c: Cluster, a: Action) {
    Comes(c, a) && !a.Unsubscribe? && (a.Announce? ==> a.s in c.nodes && c.nodes[a.s].subscribed)
  }

  /** A run of the cluster from its first server on. */
  ghost predicate IsGrowth(l: Layout, ids: set<ServerId>, run: seq<Cluster>, actions: seq<Action>) {
    && IsRun(l, run, actions) && run[0] == NOBODY
    && (forall a | a in actions :: Concerns(a, ids))
    && forall i {:trigger Grows(run[i], actions[i])} | 0 <= i < |actions| :: Grows(run[i], actions[i])
  }

  function MembersAt(c: Cluster, s: ServerId): set<ServerId>
    requires s in c.nodes
  {
    Members(c.nodes[s].keeper.ring)
  }

  /** The server has added a newcomer that it has not answered yet. */
  predicate Owes(n: Node) {
    n.joining.Some? || n.answering
  }

  /** `b` knows of `a`, or is bound to hear of it: a JOIN of `a` is on its way to `b`, or `a` is to answer a
      newcomer, or will be, for it has yet to hear of `b`. */
  ghost predicate WillKnow(c: Cluster, b: ServerId, a: ServerId)
    requires a in c.nodes && b in c.nodes
  {
    || a in MembersAt(c, b)
    || JoinOf(a) in c.nodes[b].inbox
    || (JoinOf(b) in c.nodes[a].inbox && b !in MembersAt(c, a))
    || Owes(c.nodes[a])
  }

  ghost predicate Announced(c: Cluster, s: ServerId) {
    s in c.nodes && c.nodes[s].announced
  }

  /** Only servers that have announced themselves are ever heard of. */
  ghost predicate OnlyAnnounced(c: Cluster, s: ServerId)
    requires s in c.nodes
  {
    && (forall m | m in MembersAt(c, s) :: m == s || Announced(c, m))
    && (forall sig | sig in c.nodes[s].inbox :: sig.JoinOf? && Announced(c, sig.id))
    && (c.nodes[s].announced || Owes(c.nodes[s]) || c.nodes[s].inbox != [] ==> c.nodes[s].subscribed)
  }

  ghost predicate Spreading(c: Cluster) {
    && (forall s {:trigger OnlyAnnounced(c, s)} | s in c.nodes :: OnlyAnnounced(c, s))
    && (forall a, b {:trigger WillKnow(c, b, a)} | Announced(c, a) && Announced(c, b) && a != b :: WillKnow(c, b, a))
  }

  /** `n'` is the node `s` after it has taken a JOIN off its inbox. */
  ghost predicate TookJoin(c: Cluster, s: ServerId, n': Node)
    requires s in c.nodes
  {
    var n := c.nodes[s];
    && !Owes(n) && n.inbox != [] && n.inbox[0].JoinOf? && Announced(c, n.inbox[0].id)
    && n'.inbox == n.inbox[1..] && n'.announced == n.announced && n'.subscribed == n.subscribed
    && Members(n'.keeper.ring) == MembersAt(c, s) + {n.inbox[0].id}
    && !n'.answering && n'.joining == if n.inbox[0].id in MembersAt(c, s) then None else Some(n.inbox[0].id)
  }

  lemma ReceiveTakesJoin(l: Layout, ids: set<ServerId>, c: Cluster, s: ServerId)
    requires Distinct(l, ids) && l.replicas > 0 && Safe(l, ids, c) && Spreading(c) && Enabled(c, Receive(s))
    ensures TookJoin(c, s, Received(l, s, c.nodes[s]))
  {
    assert OnlyAnnounced(c, s) && NodeOk(l, ids, s, c.nodes[s], c.now);
    var sig := c.nodes[s].inbox[0];
    assert sig in c.nodes[s].inbox;
    MembersStep(l, ids, c.nodes[s].keeper.ring, sig.id);
  }

  lemma ReceiveSpreads(c: Cluster, s: ServerId, n': Node, c': Cluster)
    requires Spreading(c) && s in c.nodes && TookJoin(c, s, n')
    requires c' == c.(nodes := c.nodes[s := n'])
    ensures Spreading(c')
  {
    var inbox := c.nodes[s].inbox;
    assert forall sig | sig in inbox :: sig == inbox[0] || sig in inbox[1..];
    assert forall t :: Announced(c', t) <==> Announced(c, t);
    forall t | t in c'.nodes ensures OnlyAnnounced(c', t) {
      assert OnlyAnnounced(c, t);
    }
    forall a, b | Announced(c', a) && Announced(c', b) && a != b ensures WillKnow(c', b, a) {
      assert WillKnow(c, b, a);
    }
  }

  /** After the JOIN of `s`: every subscriber has it, and nobody's ring has changed. */
  ghost predicate Heralded(c: Cluster, s: ServerId, c': Cluster)
    requires s in c.nodes
  {
    && c'.nodes.Keys == c.nodes.Keys
    && (forall t | t in c.nodes ::
          && MembersAt(c', t) == MembersAt(c, t) && c'.nodes[t].subscribed == c.nodes[t].subscribed
          && c'.nodes[t].inbox == c.nodes[t].inbox + if c.nodes[t].subscribed then [JoinOf(s)] else [])
    && (forall t | t in c.nodes && t != s ::
          Owes(c'.nodes[t]) == Owes(c.nodes[t]) && c'.nodes[t].announced == c.nodes[t].announced)
    && c'.nodes[s].announced
  }

  lemma PublishHeralds(c: Cluster, s: ServerId, n: Node, c': Cluster)
    requires s in c.nodes && n == c.nodes[s].(answering := n.answering, announced := true)
    requires c' == c.(nodes := Publish(c.nodes[s := n], JoinOf(s)))
    ensures Heralded(c, s, c')
  {
  }

  /** A server's announcement reaches every subscriber, and everyone who did not know it will answer. */
  lemma HeraldSpreads(c: Cluster, s: ServerId, c': Cluster)
    requires Spreading(c) && s in c.nodes && c.nodes[s].subscribed && Heralded(c, s, c')
    ensures Spreading(c')
  {
    assert forall t :: Announced(c', t) <==> Announced(c, t) || t == s;
    forall t | t in c'.nodes ensures OnlyAnnounced(c', t) {
      assert OnlyAnnounced(c, t);
    }
    forall a, b | Announced(c', a) && Announced(c', b) && a != b ensures WillKnow(c', b, a) {
      assert OnlyAnnounced(c, a) && OnlyAnnounced(c, b);
      if Announced(c, a) && Announced(c, b) {
        assert WillKnow(c, b, a);
      }
    }
  }

  lemma PublishSpreads(c: Cluster, s: ServerId, n: Node, c': Cluster)
    requires Spreading(c) && s in c.nodes && c.nodes[s].subscribed
    requires n == c.nodes[s].(answering := n.answering, announced := true)
    requires c' == c.(nodes := Publish(c.nodes[s := n], JoinOf(s)))
    ensures Spreading(c')
  {
    PublishHeralds(c, s, n, c');
    HeraldSpreads(c, s, c');
  }

  /** The node of `s` changes in nothing that matters here. */
  lemma OwnStepSpreads(c: Cluster, s: ServerId, n: Node, c': Cluster)
    requires Spreading(c) && s in c.nodes && c' == c.(nodes := c.nodes[s := n])
    requires Members(n.keeper.ring) == MembersAt(c, s) && n.inbox == c.nodes[s].inbox && Owes(n) == Owes(c.nodes[s])
    requires n.announced == c.nodes[s].announced && (c.nodes[s].subscribed ==> n.subscribed)
    ensures Spreading(c')
  {
    assert forall t :: Announced(c', t) <==> Announced(c, t);
    forall t | t in c'.nodes ensures OnlyAnnounced(c', t) {
      assert OnlyAnnounced(c, t);
    }
    forall a, b | Announced(c', a) && Announced(c', b) && a != b ensures WillKnow(c', b, a) {
      assert WillKnow(c, b, a);
    }
  }

  lemma BootSpreads(c: Cluster, s: ServerId, n: Node, c': Cluster)
    requires Spreading(c) && s !in c.nodes
    requires Members(n.keeper.ring) == {s} && n.inbox == [] && !Owes(n) && !n.announced
    requires c' == c.(nodes := c.nodes[s := n])
    ensures Spreading(c')
  {
    assert forall t :: Announced(c', t) <==> Announced(c, t);
    forall t | t in c'.nodes ensures OnlyAnnounced(c', t) {
      if t != s { assert OnlyAnnounced(c, t); }
    }
    forall a, b | Announced(c', a) && Announced(c', b) && a != b ensures WillKnow(c', b, a) {
      assert WillKnow(c, b, a);
    }
  }

  lemma TickSpreads(c: Cluster, later: int)
    requires Spreading(c)
    ensures Spreading(c.(now := later))
  {
    var c' := c.(now := later);
    assert forall t :: Announced(c', t) <==> Announced(c, t);
    forall t | t in c'.nodes ensures OnlyAnnounced(c', t) {
      assert OnlyAnnounced(c, t);
    }
    forall a, b | Announced(c', a) && Announced(c', b) && a != b ensures WillKnow(c', b, a) {
      assert WillKnow(c, b, a);
    }
  }

  lemma StepSpreads(l: Layout, ids: set<ServerId>, c: Cluster, a: Action)
    requires Distinct(l, ids) && l.replicas > 0 && Safe(l, ids, c) && Spreading(c)
    requires Enabled(c, a) && Concerns(a, ids) && Grows(c, a)
    ensures Spreading(Next(l, c, a))
  {
    var c' := Next(l, c, a);
    if a.Boot? {
      BootedOk(l, ids, a.s, c.now);
      BootSpreads(c, a.s, Newborn(l, a.s), c');
    } else if a.Announce? {
      PublishSpreads(c, a.s, c.nodes[a.s].(announced := true), c');
    } else if a.Answer? {
      assert OnlyAnnounced(c, a.s);
      PublishSpreads(c, a.s, c.nodes[a.s].(answering := false, announced := true), c');
    } else if a.Receive? {
      ReceiveTakesJoin(l, ids, c, a.s);
      ReceiveSpreads(c, a.s, Received(l, a.s, c.nodes[a.s]), c');
    } else if a.Subscribe? || a.Stamp? || a.Sweep? || a.Visit? || a.Rest? {
      OwnStepSpreads(c, a.s, c'.nodes[a.s], c');
    } else {
      TickSpreads(c, c'.now);
    }
  }

  lemma {:induction false} RunSpreads(l: Layout, ids: set<ServerId>, run: seq<Cluster>, actions: seq<Action>, n: nat)
    requires Distinct(l, ids) && l.replicas > 0 && IsGrowth(l, ids, run, actions) && n < |run|
    ensures Safe(l, ids, run[n]) && Spreading(run[n])
  {
    RunIsSafe(l, ids, run, actions, n);
    if n > 0 {
      RunSpreads(l, ids, run, actions, n - 1);
      assert Leads(l, run, actions, n - 1) && Grows(run[n - 1], actions[n - 1]) && actions[n - 1] in actions;
      StepSpreads(l, ids, run[n - 1], actions[n - 1]);
    }
  }

  /** No signal is pending and none is being handled. */
  ghost predicate AtRest(c: Cluster) {
    forall s | s in c.nodes :: c.nodes[s].inbox == [] && !Owes(c.nodes[s])
  }

  /** When gossip rests, every server's ring is the one ring of all the servers. */
  lemma RestIsAgreement(l: Layout, ids: set<ServerId>, run: seq<Cluster>, actions: seq<Action>, n: nat)
    requires Distinct(l, ids) && l.replicas > 0 && IsGrowth(l, ids, run, actions) && n < |run|
    requires AtRest(run[n]) && forall s | s in run[n].nodes :: Announced(run[n], s)
    ensures forall s | s in run[n].nodes :: MembersAt(run[n], s) == run[n].nodes.Keys
    ensures forall s, t | s in run[n].nodes && t in run[n].nodes ::
              run[n].nodes[s].keeper.ring == run[n].nodes[t].keeper.ring
  {
    var c := run[n];
    RunSpreads(l, ids, run, actions, n);
    forall s | s in c.nodes ensures MembersAt(c, s) == c.nodes.Keys {
      assert OnlyAnnounced(c, s) && NodeOk(l, ids, s, c.nodes[s], c.now);
      forall m | m in c.nodes && m != s ensures m in MembersAt(c, s) {
        assert WillKnow(c, s, m);
      }
    }
    forall s, t | s in c.nodes && t in c.nodes ensures c.nodes[s].keeper.ring == c.nodes[t].keeper.ring {
      assert NodeOk(l, ids, s, c.nodes[s], c.now) && NodeOk(l, ids, t, c.nodes[t], c.now);
      Canonical(l, c.nodes.Keys, c.nodes[s].keeper.ring, c.nodes[t].keeper.ring);
    }
  }
}
