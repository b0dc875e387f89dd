/**
 JOIN gossip comes to rest after a bounded number of deliveries, although each may cause new signals.
 */
module Deliveries {
  import opened RingSpec
  import opened Options
  import opened Gossip
  import opened Convergence

  /** What is still to happen at one server: the members it misses, the JOIN it is handling, the signals
      waiting for it, each weighed against the answers it may cause. */
  function Weight(n: Node, all: set<ServerId>): nat {
    Times(|all - Members(n.keeper.ring)|, |all| + 3) + Debt(n, all) + |n.inbox|
  }

  function Debt(n: Node, all: set<ServerId>): nat {
    if n.joining.Some? then |all| + 2 else if n.answering then |all| + 1 else 0
  }

  function Times(a: nat, b: nat): nat {
    if a == 0 then 0 else b + Times(a - 1, b)
  }

  function Weights(c: Cluster): map<ServerId, nat> {
    map s | s in c.nodes :: Weight(c.nodes[s], c.nodes.Keys)
  }

  function Sum(w: map<ServerId, nat>, order: seq<ServerId>): nat
    requires forall s | s in order :: s in w
  {
    if order == [] then 0
    else
      assert forall s | s in order[..|order| - 1] :: s in order;
      Sum(w, order[..|order| - 1]) + w[order[|order| - 1]]
  }

  function Total(c: Cluster, order: seq<ServerId>): nat
    requires forall s | s in order :: s in c.nodes
  {
    Sum(Weights(c), order)
  }

  /** `order` lists the servers, each once. */
  ghost predicate Lists(order: seq<ServerId>, c: Cluster) {
    && (forall s :: s in order <==> s in c.nodes) && |order| == |c.nodes.Keys|
    && forall i, j | 0 <= i < j < |order| :: order[i] != order[j]
  }

  /** If the weight of `s` falls by `drop` and each other weight rises by one at most, or not at all
      when there is no `flood`, the sum falls as follows. */
  lemma {:induction false} SumFalls(w: map<ServerId, nat>, w': map<ServerId, nat>, order: seq<ServerId>,
                                    s: ServerId, drop: nat, flood: bool)
    requires w.Keys == w'.Keys && s in w && forall t | t in order :: t in w
    requires forall i, j | 0 <= i < j < |order| :: order[i] != order[j]
    requires w'[s] + drop <= w[s]
    requires forall t | t in w && t != s :: w'[t] <= w[t] + if flood then 1 else 0
    ensures s !in order ==> Sum(w', order) <= Sum(w, order) + if flood then |order| else 0
    ensures s in order ==> Sum(w', order) + drop <= Sum(w, order) + if flood then |order| - 1 else 0
  {
    if order != [] {
      var front, last := order[..|order| - 1], order[|order| - 1];
      assert order == front + [last];
      SumFalls(w, w', front, s, drop, flood);
    }
  }

  lemma OneMissingLess(all: set<ServerId>, was: set<ServerId>, id: ServerId)
    requires id in all && id !in was
    ensures |all - was| == |all - (was + {id})| + 1
  {
    assert all - was == (all - (was + {id})) + {id};
  }

  lemma ReceiveLightens(c: Cluster, s: ServerId, n': Node)
    requires s in c.nodes && TookJoin(c, s, n')
    ensures Weight(n', c.nodes.Keys) + 1 <= Weight(c.nodes[s], c.nodes.Keys)
  {
    var all, was, id := c.nodes.Keys, MembersAt(c, s), c.nodes[s].inbox[0].id;
    if id in was {
      assert was + {id} == was;
    } else {
      OneMissingLess(all, was, id);
      assert Times(|all - was|, |all| + 3) == |all| + 3 + Times(|all - (was + {id})|, |all| + 3);
    }
  }

  lemma PendingWeighsOne(n: Node, sig: Signal, all: set<ServerId>)
    ensures Weight(n.(inbox := n.inbox + [sig]), all) == Weight(n, all) + 1
  {
  }

  lemma AnsweredWeighs(n: Node, all: set<ServerId>)
    requires n.answering && n.joining.None?
    ensures Weight(n.(answering := false, announced := true), all) + |all| + 1 == Weight(n, all)
  {
  }

  lemma AnswerLightens(l: Layout, c: Cluster, s: ServerId, c': Cluster)
    requires Enabled(c, Answer(s)) && c.nodes[s].joining.None? && c' == Next(l, c, Answer(s))
    ensures c'.nodes.Keys == c.nodes.Keys
    ensures Weight(c'.nodes[s], c.nodes.Keys) + |c.nodes.Keys| <= Weight(c.nodes[s], c.nodes.Keys)
    ensures forall t | t in c.nodes && t != s ::
              Weight(c'.nodes[t], c.nodes.Keys) <= Weight(c.nodes[t], c.nodes.Keys) + 1
  {
    var all, n := c.nodes.Keys, c.nodes[s].(answering := false, announced := true);
    assert c'.nodes.Keys == all;
    AnsweredWeighs(c.nodes[s], all);
    PendingWeighsOne(n, JoinOf(s), all);
    forall t | t in c.nodes && t != s ensures Weight(c'.nodes[t], all) <= Weight(c.nodes[t], all) + 1 {
      PendingWeighsOne(c.nodes[t], JoinOf(s), all);
    }
  }

  lemma TotalFalls(c: Cluster, c': Cluster, order: seq<ServerId>, s: ServerId, drop: nat, flood: bool)
    requires Lists(order, c) && c'.nodes.Keys == c.nodes.Keys && s in c.nodes
    requires Weight(c'.nodes[s], c.nodes.Keys) + drop <= Weight(c.nodes[s], c.nodes.Keys)
    requires forall t | t in c.nodes && t != s ::
               Weight(c'.nodes[t], c.nodes.Keys) <= Weight(c.nodes[t], c.nodes.Keys) + if flood then 1 else 0
    requires drop > if flood then |order| - 1 else 0
    ensures Lists(order, c') && Total(c', order) < Total(c, order)
  {
    var w, w' := Weights(c), Weights(c');
    forall t | t in w && t != s ensures w'[t] <= w[t] + if flood then 1 else 0 {
      assert t in c.nodes && t in c'.nodes;
    }
    SumFalls(w, w', order, s, drop, flood);
  }

  lemma ReceiveTotalFalls(c: Cluster, s: ServerId, n': Node, order: seq<ServerId>)
    requires s in c.nodes && TookJoin(c, s, n') && Lists(order, c)
    ensures var c' := c.(nodes := c.nodes[s := n']);
            Lists(order, c') && Total(c', order) < Total(c, order)
  {
    var c' := c.(nodes := c.nodes[s := n']);
    ReceiveLightens(c, s, n');
    assert c'.nodes.Keys == c.nodes.Keys;
    TotalFalls(c, c', order, s, 1, false);
  }

  lemma StampTotalFalls(l: Layout, c: Cluster, s: ServerId, order: seq<ServerId>)
    requires Enabled(c, Stamp(s)) && Lists(order, c)
    ensures Lists(order, Next(l, c, Stamp(s))) && Total(Next(l, c, Stamp(s)), order) < Total(c, order)
  {
    var c' := Next(l, c, Stamp(s));
    assert c'.nodes.Keys == c.nodes.Keys;
    TotalFalls(c, c', order, s, 1, false);
  }

  lemma AnswerTotalFalls(l: Layout, c: Cluster, s: ServerId, order: seq<ServerId>)
    requires Enabled(c, Answer(s)) && c.nodes[s].joining.None? && Lists(order, c)
    ensures Lists(order, Next(l, c, Answer(s))) && Total(Next(l, c, Answer(s)), order) < Total(c, order)
  {
    AnswerLightens(l, c, s, Next(l, c, Answer(s)));
    TotalFalls(c, Next(l, c, Answer(s)), order, s, |order|, true);
  }

  predicate IsDelivery(a: Action) {
    a.Receive? || a.Stamp? || a.Answer?
  }

  /** Every delivery makes the total smaller. */
  lemma DeliveryLightens(l: Layout, ids: set<ServerId>, c: Cluster, a: Action, order: seq<ServerId>)
    requires Distinct(l, ids) && l.replicas > 0 && Safe(l, ids, c) && Spreading(c)
    requires Enabled(c, a) && IsDelivery(a) && Lists(order, c)
    ensures Lists(order, Next(l, c, a)) && Total(Next(l, c, a), order) < Total(c, order)
  {
    match a {
      case Receive(s) =>
        ReceiveTakesJoin(l, ids, c, s);
        ReceiveTotalFalls(c, s, Received(l, s, c.nodes[s]), order);
      case Stamp(s) => StampTotalFalls(l, c, s, order);
      case Answer(s) =>
        assert NodeOk(l, ids, s, c.nodes[s], c.now);
        AnswerTotalFalls(l, c, s, order);
    }
  }

  lemma DeliveryStep(l: Layout, ids: set<ServerId>, c: Cluster, a: Action, order: seq<ServerId>)
    requires Distinct(l, ids) && l.replicas > 0 && Safe(l, ids, c) && Spreading(c)
    requires Enabled(c, a) && IsDelivery(a) && Lists(order, c)
    ensures Safe(l, ids, Next(l, c, a)) && Spreading(Next(l, c, a))
    ensures Lists(order, Next(l, c, a)) && Total(Next(l, c, a), order) < Total(c, order)
  {
    StepKeepsSafe(l, ids, c, a);
    StepSpreads(l, ids, c, a);
    DeliveryLightens(l, ids, c, a, order);
  }

  /** A state from which deliveries lead to rest. */
  ghost predicate Settles(l: Layout, ids: set<ServerId>, c: Cluster, order: seq<ServerId>) {
    Safe(l, ids, c) && Spreading(c) && Lists(order, c)
  }

  lemma DeliveryAt(l: Layout, ids: set<ServerId>, run: seq<Cluster>, actions: seq<Action>, order: seq<ServerId>,
                   i: nat)
    requires Distinct(l, ids) && l.replicas > 0 && IsRun(l, run, actions) && i < |actions|
    requires Settles(l, ids, run[i], order) && IsDelivery(actions[i])
    ensures Settles(l, ids, run[i + 1], order) && Total(run[i + 1], order) < Total(run[i], order)
  {
    assert Leads(l, run, actions, i);
    DeliveryStep(l, ids, run[i], actions[i], order);
  }

  /** However the deliveries interleave, gossip comes to rest after at most `Total` of them... */
  lemma {:induction false} DeliveriesAreBounded(l: Layout, ids: set<ServerId>, run: seq<Cluster>, actions: seq<Action>,
                                                order: seq<ServerId>, n: nat)
    requires Distinct(l, ids) && l.replicas > 0 && IsRun(l, run, actions) && n < |run|
    requires Settles(l, ids, run[0], order)
    requires forall a | a in actions :: IsDelivery(a)
    ensures Settles(l, ids, run[n], order)
    ensures n + Total(run[n], order) <= Total(run[0], order)
  {
    if n > 0 {
      DeliveriesAreBounded(l, ids, run, actions, order, n - 1);
      assert actions[n - 1] in actions;
      DeliveryAt(l, ids, run, actions, order, n - 1);
    }
  }

  /** ... and it cannot stop before: while it is not at rest, some delivery is enabled, or will be when a
      watcher lets go of the mutex. */
  lemma RestIffNoDelivery(c: Cluster)
    ensures AtRest(c) ==> forall a | IsDelivery(a) :: !Enabled(c, a)
    ensures (forall s | s in c.nodes :: c.nodes[s].pass.None?) ==>
              (AtRest(c) <==> forall a | IsDelivery(a) :: !Enabled(c, a))
  {
    if !AtRest(c) {
      var s :| s in c.nodes && !(c.nodes[s].inbox == [] && !Owes(c.nodes[s]));
      assert c.nodes[s].pass.None? ==> Enabled(c, Receive(s)) || Enabled(c, Stamp(s)) || Enabled(c, Answer(s));
    }
  }
}
