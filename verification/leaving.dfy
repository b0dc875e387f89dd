/**
 What a signal does: whom it reaches, what it changes there, and that a server that has left stays out until
 it is heard of again.
 */
module Leaving {
  import opened RingSpec
  import opened Options
  import opened Gossip

  lemma JoinChangesRing(l: Layout, ids: set<ServerId>, s: ServerId, n: Node, id: ServerId)
    requires Distinct(l, ids) && l.replicas > 0 && IsOwnRing(l, ids, n.keeper.ring) && id in ids
    requires n.inbox != [] && n.inbox[0] == JoinOf(id) && s in Members(n.keeper.ring)
    ensures var n', before := Received(l, s, n), Members(n.keeper.ring);
            && Members(n'.keeper.ring) == before + {id}
            && (n'.joining == Some(id) <==> id !in before)
            && n'.keeper.lastSeen == n.keeper.lastSeen && n'.inbox == n.inbox[1..]
  {
    MembersStep(l, ids, n.keeper.ring, id);
  }

  lemma LeaveChangesRing(l: Layout, ids: set<ServerId>, s: ServerId, n: Node, id: ServerId)
    requires Distinct(l, ids) && l.replicas > 0 && IsOwnRing(l, ids, n.keeper.ring) && id in ids
    requires n.inbox != [] && n.inbox[0] == LeaveOf(id)
    ensures var n' := Received(l, s, n);
            && Members(n'.keeper.ring) == Members(n.keeper.ring) - ({id} - {s})
            && n'.joining == n.joining
            && n'.keeper.lastSeen == n.keeper.lastSeen && n'.inbox == n.inbox[1..]
  {
    MembersStep(l, ids, n.keeper.ring, id);
  }

  /** Taking a JOIN or LEAVE off the subscription adds or removes exactly the server it names, and the
      server's own name is ignored. The ledger is left alone. */
  lemma SignalChangesRing(l: Layout, ids: set<ServerId>, s: ServerId, n: Node, now: int)
    requires Distinct(l, ids) && l.replicas > 0 && NodeOk(l, ids, s, n, now) && n.inbox != []
    ensures var n', sig := Received(l, s, n), n.inbox[0];
            && Members(n'.keeper.ring) == (if sig.JoinOf? then Members(n.keeper.ring) + {sig.id}
                                           else Members(n.keeper.ring) - ({sig.id} - {s}))
            && n'.keeper.lastSeen == n.keeper.lastSeen && n'.inbox == n.inbox[1..]
            && (sig.JoinOf? ==> (n'.joining == Some(sig.id) <==> sig.id !in Members(n.keeper.ring)))
            && (sig.LeaveOf? ==> n'.joining == n.joining)
  {
    assert n.inbox[0] in n.inbox;
    match n.inbox[0]
    case JoinOf(id) => JoinChangesRing(l, ids, s, n, id);
    case LeaveOf(id) => LeaveChangesRing(l, ids, s, n, id);
  }

  /** Which servers are up after a step. */
  lemma ServersStep(l: Layout, c: Cluster, a: Action)
    requires Enabled(c, a)
    ensures Next(l, c, a).nodes.Keys ==
            match a
            case Boot(s) => c.nodes.Keys + {s}
            case Crash(s) => c.nodes.Keys - {s}
            case _ => c.nodes.Keys
  {
  }

  /** Which servers a server has in its ring after a step: a booted one itself only; one that takes a signal
      off its subscription, or whose watcher looks at an entry more than 20 s old, one more or one less; and
      any other the same. */
  lemma RingsStep(l: Layout, ids: set<ServerId>, c: Cluster, a: Action, t: ServerId)
    requires Distinct(l, ids) && l.replicas > 0 && Safe(l, ids, c) && Enabled(c, a) && Concerns(a, ids)
    requires t in Next(l, c, a).nodes
    ensures var after := Members(Next(l, c, a).nodes[t].keeper.ring);
            if a == Boot(t) then after == {t}
            else
              && t in c.nodes
              && var n, before := c.nodes[t], Members(c.nodes[t].keeper.ring);
                 if a == Receive(t) then
                   after == match n.inbox[0]
                            case JoinOf(id) => before + {id}
                            case LeaveOf(id) => before - ({id} - {t})
                 else if a.Visit? && a.s == t then
                   var seen, at := n.keeper.lastSeen, n.pass.value.at;
                   after == before - if a.id in seen && at - seen[a.id] > 20_000_000_000 then {a.id} else {}
                 else after == before
  {
    if a == Boot(t) {
      BootedOk(l, ids, t, c.now);
    } else {
      OtherRing(l, c, a, t);
      assert NodeOk(l, ids, t, c.nodes[t], c.now);
      if a == Receive(t) {
        SignalChangesRing(l, ids, t, c.nodes[t], c.now);
      } else if a.Visit? && a.s == t {
        VisitedOk(l, ids, t, c.nodes[t].keeper, c.now, c.nodes[t].pass.value.at, a.id);
      }
    }
  }

  lemma OtherRing(l: Layout, c: Cluster, a: Action, t: ServerId)
    requires Enabled(c, a) && t in Next(l, c, a).nodes && a != Boot(t)
    ensures t in c.nodes
    ensures a != Receive(t) && !(a.Visit? && a.s == t) ==>
              Next(l, c, a).nodes[t].keeper.ring == c.nodes[t].keeper.ring
  {
  }

  /** An announcement, an answer and a departure reach every subscriber, behind what waits there already; a
      message that reads like a signal reaches whom it is published to. */
  lemma SignalsReach(l: Layout, c: Cluster, a: Action, t: ServerId)
    requires Enabled(c, a) && t in c.nodes && (a.Announce? || a.Answer? || a.Depart? || a.Typed?)
    ensures t in Next(l, c, a).nodes
    ensures var inbox, inbox' := c.nodes[t].inbox, Next(l, c, a).nodes[t].inbox;
            inbox' == inbox + match a
                              case Depart(s) => (if c.nodes[t].subscribed then [LeaveOf(s)] else [])
                              case Typed(sig, to) => (if t in to then [sig] else [])
                              case _ => (if c.nodes[t].subscribed then [JoinOf(a.s)] else [])
  {
  }

  /** `s` takes a JOIN of `x` off its subscription. */
  predicate HearsJoin(c: Cluster, a: Action, s: ServerId, x: ServerId) {
    a == Receive(s) && s in c.nodes && c.nodes[s].inbox != [] && c.nodes[s].inbox[0] == JoinOf(x)
  }

  predicate IsOut(c: Cluster, s: ServerId, x: ServerId) {
    s in c.nodes ==> x !in Members(c.nodes[s].keeper.ring)
  }

  lemma StepKeepsOut(l: Layout, ids: set<ServerId>, c: Cluster, a: Action, s: ServerId, x: ServerId)
    requires Distinct(l, ids) && l.replicas > 0 && Safe(l, ids, c) && Enabled(c, a) && Concerns(a, ids)
    requires x != s && IsOut(c, s, x) && !HearsJoin(c, a, s, x)
    ensures IsOut(Next(l, c, a), s, x)
  {
    if s in Next(l, c, a).nodes {
      RingsStep(l, ids, c, a, s);
    }
  }

  lemma {:induction false} StaysOut(l: Layout, ids: set<ServerId>, run: seq<Cluster>, actions: seq<Action>,
                                    i: nat, n: nat, s: ServerId, x: ServerId)
    requires Distinct(l, ids) && l.replicas > 0
    requires IsRun(l, run, actions) && run[0] == NOBODY && i <= n < |run|
    requires forall a | a in actions :: Concerns(a, ids)
    requires x != s && IsOut(run[i], s, x)
    requires forall k | i <= k < n :: !HearsJoin(run[k], actions[k], s, x)
    ensures IsOut(run[n], s, x)
    decreases n
  {
    if i < n {
      StaysOut(l, ids, run, actions, i, n - 1, s, x);
      RunIsSafe(l, ids, run, actions, n - 1);
      assert Leads(l, run, actions, n - 1) && actions[n - 1] in actions;
      StepKeepsOut(l, ids, run[n - 1], actions[n - 1], s, x);
    }
  }

  /** Once a LEAVE of `x` has been received, and until a JOIN of `x` is, `x` is not in the ring. */
  lemma LeftStaysOut(l: Layout, ids: set<ServerId>, run: seq<Cluster>, actions: seq<Action>,
                     i: nat, n: nat, s: ServerId, x: ServerId)
    requires Distinct(l, ids) && l.replicas > 0
    requires IsRun(l, run, actions) && run[0] == NOBODY && i < n < |run|
    requires forall a | a in actions :: Concerns(a, ids)
    requires x != s && actions[i] == Receive(s) && s in run[i].nodes
    requires run[i].nodes[s].inbox != [] && run[i].nodes[s].inbox[0] == LeaveOf(x)
    requires forall k | i < k < n :: !HearsJoin(run[k], actions[k], s, x)
    ensures s in run[n].nodes ==> x !in Members(run[n].nodes[s].keeper.ring)
  {
    RunIsSafe(l, ids, run, actions, i);
    assert Leads(l, run, actions, i) && NodeOk(l, ids, s, run[i].nodes[s], run[i].now);
    SignalChangesRing(l, ids, s, run[i].nodes[s], run[i].now);
    StaysOut(l, ids, run, actions, i + 1, n, s, x);
  }
}
