/**
 How the servers of a cluster learn of each other (internal/chat/hub.go): JOIN and LEAVE signals on
 one Redis channel, the heartbeat, and the watcher that drops silent peers. The steps of all servers
 interleave freely; each step is one critical section of the source, of the ring's mutex or of the hub's.
 */
module Gossip {
  import opened RingSpec
  import opened Options

  /** 20 * time.Second, in nanoseconds. */
  const TTL: int := 20_000_000_000

  datatype Signal = JoinOf(id: ServerId) | LeaveOf(id: ServerId)

  /** The part of a hub that signals change. */
  datatype Keeper = Keeper(ring: RingState, lastSeen: map<ServerId, int>)

  /** A pass of the watcher: when it began, and the entries of `LastSeen` it has still to look at. The hub's
      mutex is held throughout. */
  datatype Pass = Pass(at: int, todo: set<ServerId>)

  /** `joining` is the server whose JOIN the listener has added to the ring without having stamped it
      yet; `answering`, that it has stamped one and is about to answer. `announced` is history: whether the
      server has published a JOIN of its own. */
  datatype Node = Node(keeper: Keeper, inbox: seq<Signal>, subscribed: bool, joining: Option<ServerId>,
                       answering: bool, announced: bool, pass: Option<Pass>)

  datatype Cluster = Cluster(nodes: map<ServerId, Node>, now: int)

  const NOBODY := Cluster(map[], 0)

  datatype Action =
    | Boot(s: ServerId)                             // NewHub: own ring of one
    | Subscribe(s: ServerId)                        // ListenToRedis, in its own goroutine
    | Unsubscribe(s: ServerId)                      // the last client leaves a room named global_signals
    | Announce(s: ServerId)                         // announceServerAdd
    | Receive(s: ServerId)                          // ListenToRedis up to the Ring.Add or Ring.Remove
    | Stamp(s: ServerId)                            // ... its LastSeen write
    | Answer(s: ServerId)                           // ... its answering JOIN
    | Sweep(s: ServerId)                            // the watcher takes the mutex and the time
    | Visit(s: ServerId, id: ServerId)              // ... looks at one entry, in whatever order
    | Rest(s: ServerId)                             // ... and lets go
    | Depart(s: ServerId)                           // AnnounceServerLeave
    | Crash(s: ServerId)
    | Typed(sig: Signal, to: set<ServerId>)         // a chat message that reads like a signal, in some room
    | Tick(later: int)

  // ---------- one server ----------

  function Booted(l: Layout, self: ServerId): Keeper {
    Keeper(Add(l, EMPTY, self).0, map[])
  }

  function HearJoin(l: Layout, self: ServerId, k: Keeper, id: ServerId): (Keeper, bool) {
    if id == self then (k, false) else (k.(ring := Add(l, k.ring, id).0), Add(l, k.ring, id).1)
  }

  function HearLeave(l: Layout, self: ServerId, k: Keeper, id: ServerId): Keeper {
    if id == self then k else k.(ring := Remove(l, k.ring, id).0)
  }

  function Stamped(k: Keeper, id: ServerId, now: int): Keeper {
    k.(lastSeen := k.lastSeen[id := now])
  }

  predicate IsStale(k: Keeper, at: int, id: ServerId) {
    id in k.lastSeen && at - k.lastSeen[id] > TTL
  }

  function Evict(l: Layout, k: Keeper, id: ServerId): Keeper {
    Keeper(Remove(l, k.ring, id).0, k.lastSeen - {id})
  }

  /** The watcher looks at the entry of `id`. */
  function Visited(l: Layout, k: Keeper, at: int, id: ServerId): Keeper {
    if IsStale(k, at, id) then Evict(l, k, id) else k
  }

  /** A pass that nothing interleaves with. */
  function VisitAll(l: Layout, k: Keeper, at: int, order: seq<ServerId>): Keeper {
    if order == [] then k else Visited(l, VisitAll(l, k, at, order[..|order| - 1]), at, order[|order| - 1])
  }

  /** `order` lists the entries, each once. */
  ghost predicate ListsEntries(k: Keeper, order: seq<ServerId>) {
    && (forall id :: id in order <==> id in k.lastSeen)
    && (forall i, j | 0 <= i < j < |order| :: order[i] != order[j])
  }

  // ---------- the cluster ----------

  /** A signal reaches the servers `to`. */
  function PublishTo(nodes: map<ServerId, Node>, sig: Signal, to: set<ServerId>): map<ServerId, Node> {
    map s | s in nodes :: if s in to then nodes[s].(inbox := nodes[s].inbox + [sig]) else nodes[s]
  }

  /** Redis hands a published signal to every subscriber, the publisher included. */
  function Publish(nodes: map<ServerId, Node>, sig: Signal): map<ServerId, Node> {
    PublishTo(nodes, sig, set s | s in nodes && nodes[s].subscribed)
  }

  ghost predicate Enabled(c: Cluster, a: Action) {
    match a
    case Boot(s) => s !in c.nodes
    case Subscribe(s) => s in c.nodes && !c.nodes[s].subscribed
    case Unsubscribe(s) => s in c.nodes && c.nodes[s].subscribed
    case Receive(s) => s in c.nodes && c.nodes[s].joining.None? && !c.nodes[s].answering && c.nodes[s].inbox != []
    case Stamp(s) => s in c.nodes && c.nodes[s].joining.Some? && c.nodes[s].pass.None?
    case Answer(s) => s in c.nodes && c.nodes[s].answering
    case Sweep(s) => s in c.nodes && c.nodes[s].pass.None?
    case Visit(s, id) => s in c.nodes && c.nodes[s].pass.Some? && id in c.nodes[s].pass.value.todo
    case Rest(s) => s in c.nodes && c.nodes[s].pass.Some? && c.nodes[s].pass.value.todo == {}
    case Tick(later) => c.now <= later
    case Typed(_, _) => true
    case _ => a.s in c.nodes
  }

  function Newborn(l: Layout, s: ServerId): Node {
    Node(Booted(l, s), [], false, None, false, false, None)
  }

  /** The listener takes the next signal off its subscription. */
  function Received(l: Layout, s: ServerId, n: Node): Node
    requires n.inbox != []
  {
    var rest := n.(inbox := n.inbox[1..]);
    match n.inbox[0]
    case JoinOf(id) =>
      var (k, added) := HearJoin(l, s, n.keeper, id);
      rest.(keeper := k, joining := if added then Some(id) else None)
    case LeaveOf(id) =>
      rest.(keeper := HearLeave(l, s, n.keeper, id))
  }

  /** ... stamps the newcomer, */
  function Marked(n: Node, now: int): Node
    requires n.joining.Some?
  {
    n.(keeper := Stamped(n.keeper, n.joining.value, now), joining := None, answering := true)
  }

  /** The watcher looks at one entry. */
  function Inspected(l: Layout, n: Node, id: ServerId): Node
    requires n.pass.Some?
  {
    var p := n.pass.value;
    n.(keeper := Visited(l, n.keeper, p.at, id), pass := Some(p.(todo := p.todo - {id})))
  }

  ghost function Next(l: Layout, c: Cluster, a: Action): Cluster
    requires Enabled(c, a)
  {
    match a
    case Boot(s) =>
      c.(nodes := c.nodes[s := Newborn(l, s)])
    case Subscribe(s) =>
      c.(nodes := c.nodes[s := c.nodes[s].(subscribed := true)])
    case Unsubscribe(s) =>
      c.(nodes := c.nodes[s := c.nodes[s].(subscribed := false)])
    case Announce(s) =>
      c.(nodes := Publish(c.nodes[s := c.nodes[s].(announced := true)], JoinOf(s)))
    case Receive(s) =>
      c.(nodes := c.nodes[s := Received(l, s, c.nodes[s])])
    case Stamp(s) =>
      c.(nodes := c.nodes[s := Marked(c.nodes[s], c.now)])
    case Answer(s) =>
      c.(nodes := Publish(c.nodes[s := c.nodes[s].(answering := false, announced := true)], JoinOf(s)))
    case Sweep(s) =>
      c.(nodes := c.nodes[s := c.nodes[s].(pass := Some(Pass(c.now, c.nodes[s].keeper.lastSeen.Keys)))])
    case Visit(s, id) =>
      c.(nodes := c.nodes[s := Inspected(l, c.nodes[s], id)])
    case Rest(s) =>
      c.(nodes := c.nodes[s := c.nodes[s].(pass := None)])
    case Depart(s) =>
      c.(nodes := Publish(c.nodes, LeaveOf(s)))
    case Crash(s) =>
      c.(nodes := c.nodes - {s})
    case Typed(sig, to) =>
      c.(nodes := PublishTo(c.nodes, sig, to))
    case Tick(later) =>
      c.(now := later)
  }

  /** `run` is a sequence of cluster states, each reached from the one before by the matching action. */
  ghost predicate IsRun(l: Layout, run: seq<Cluster>, actions: seq<Action>) {
    && |run| == |actions| + 1
    && forall i {:trigger Leads(l, run, actions, i)} | 0 <= i < |actions| :: Leads(l, run, actions, i)
  }

  ghost predicate Leads(l: Layout, run: seq<Cluster>, actions: seq<Action>, i: nat)
    requires i < |actions| && |run| == |actions| + 1
  {
    Enabled(run[i], actions[i]) && run[i + 1] == Next(l, run[i], actions[i])
  }

  // ---------- safety: what every step keeps ----------

  /** `r` is the ring of its own members, which are servers of `ids`. */
  ghost predicate IsOwnRing(l: Layout, ids: set<ServerId>, r: RingState) {
    IsRing(l, Members(r), r) && Members(r) <= ids
  }

  ghost predicate KeeperOk(l: Layout, ids: set<ServerId>, self: ServerId, k: Keeper, now: int) {
    && IsOwnRing(l, ids, k.ring)
    && self in Members(k.ring)
    && self !in k.lastSeen && k.lastSeen.Keys <= ids
    && forall id | id in k.lastSeen :: k.lastSeen[id] <= now
  }

  /** Every remote member of the ring has a time stamp, but for the one whose JOIN is being handled. */
  ghost predicate Covered(self: ServerId, k: Keeper, joining: Option<ServerId>) {
    forall m | m in Members(k.ring) :: m == self || m in k.lastSeen || joining == Some(m)
  }

  /** What the watcher has looked at, and left, is fresh. */
  ghost predicate PassOk(n: Node, now: int) {
    n.pass.Some? ==>
      && n.pass.value.at <= now && n.pass.value.todo <= n.keeper.lastSeen.Keys
      && forall id | id in n.keeper.lastSeen :: id in n.pass.value.todo || !IsStale(n.keeper, n.pass.value.at, id)
  }

  ghost predicate NodeOk(l: Layout, ids: set<ServerId>, s: ServerId, n: Node, now: int) {
    && KeeperOk(l, ids, s, n.keeper, now)
    && Covered(s, n.keeper, n.joining)
    && PassOk(n, now)
    && (n.joining.Some? ==> n.joining.value in ids && n.joining.value != s && !n.answering)
    && (forall sig | sig in n.inbox :: sig.id in ids)
  }

  ghost predicate Safe(l: Layout, ids: set<ServerId>, c: Cluster) {
    c.nodes.Keys <= ids && AllOk(l, ids, c.nodes, c.now)
  }

  ghost predicate Concerns(a: Action, ids: set<ServerId>) {
    (a.Boot? ==> a.s in ids) && (a.Typed? ==> a.sig.id in ids)
  }

  /** How `Add` and `Remove` act on a server's own ring. */
  lemma MembersStep(l: Layout, ids: set<ServerId>, r: RingState, x: ServerId)
    requires Distinct(l, ids) && l.replicas > 0 && IsOwnRing(l, ids, r) && x in ids
    ensures IsOwnRing(l, ids, Add(l, r, x).0) && Members(Add(l, r, x).0) == Members(r) + {x}
    ensures Add(l, r, x).1 <==> x !in Members(r)
    ensures IsOwnRing(l, ids, Remove(l, r, x).0) && Members(Remove(l, r, x).0) == Members(r) - {x}
  {
    RingStep(l, ids, Members(r), r, x);
    MembersOfRing(l, Members(r) + {x}, Add(l, r, x).0);
    MembersOfRing(l, Members(r) - {x}, Remove(l, r, x).0);
  }

  lemma BootedOk(l: Layout, ids: set<ServerId>, s: ServerId, now: int)
    requires Distinct(l, ids) && l.replicas > 0 && s in ids
    ensures KeeperOk(l, ids, s, Booted(l, s), now) && Members(Booted(l, s).ring) == {s}
  {
    EmptyIsRing(l);
    MembersStep(l, ids, EMPTY, s);
  }

  lemma VisitedOk(l: Layout, ids: set<ServerId>, self: ServerId, k: Keeper, now: int, at: int, id: ServerId)
    requires Distinct(l, ids) && l.replicas > 0 && KeeperOk(l, ids, self, k, now)
    ensures KeeperOk(l, ids, self, Visited(l, k, at, id), now)
    ensures Members(Visited(l, k, at, id).ring) == Members(k.ring) - if IsStale(k, at, id) then {id} else {}
  {
    if id in ids {
      MembersStep(l, ids, k.ring, id);
    }
  }

  ghost function StaleOf(k: Keeper, at: int, order: seq<ServerId>): set<ServerId> {
    set id | id in order && IsStale(k, at, id)
  }

  lemma {:induction false} VisitAllOk(l: Layout, ids: set<ServerId>, self: ServerId, k: Keeper, now: int, at: int,
                                      order: seq<ServerId>)
    requires Distinct(l, ids) && l.replicas > 0 && KeeperOk(l, ids, self, k, now)
    requires forall i, j | 0 <= i < j < |order| :: order[i] != order[j]
    ensures KeeperOk(l, ids, self, VisitAll(l, k, at, order), now)
    ensures Members(VisitAll(l, k, at, order).ring) == Members(k.ring) - StaleOf(k, at, order)
    ensures VisitAll(l, k, at, order).lastSeen == k.lastSeen - StaleOf(k, at, order)
  {
    if order != [] {
      var front, last := order[..|order| - 1], order[|order| - 1];
      assert order == front + [last] && last !in front;
      VisitAllOk(l, ids, self, k, now, at, front);
      VisitedOk(l, ids, self, VisitAll(l, k, at, front), now, at, last);
      assert StaleOf(k, at, order) == StaleOf(k, at, front) + if IsStale(k, at, last) then {last} else {};
    }
  }

  lemma ReceivedOk(l: Layout, ids: set<ServerId>, s: ServerId, n: Node, now: int)
    requires Distinct(l, ids) && l.replicas > 0 && NodeOk(l, ids, s, n, now)
    requires n.inbox != [] && n.joining.None? && !n.answering
    ensures NodeOk(l, ids, s, Received(l, s, n), now)
  {
    assert n.inbox[0] in n.inbox;
    MembersStep(l, ids, n.keeper.ring, n.inbox[0].id);
    assert forall sig | sig in n.inbox[1..] :: sig in n.inbox;
  }

  lemma MarkedOk(l: Layout, ids: set<ServerId>, s: ServerId, n: Node, now: int)
    requires NodeOk(l, ids, s, n, now) && n.joining.Some? && n.pass.None?
    ensures NodeOk(l, ids, s, Marked(n, now), now)
  {
  }

  /** Nothing but the listener's one unstamped server escapes the watcher's notice. */
  lemma InspectedOk(l: Layout, ids: set<ServerId>, s: ServerId, n: Node, now: int, id: ServerId)
    requires Distinct(l, ids) && l.replicas > 0 && NodeOk(l, ids, s, n, now)
    requires n.pass.Some? && id in n.pass.value.todo
    ensures NodeOk(l, ids, s, Inspected(l, n, id), now)
  {
    VisitedOk(l, ids, s, n.keeper, now, n.pass.value.at, id);
  }

  ghost predicate AllOk(l: Layout, ids: set<ServerId>, nodes: map<ServerId, Node>, now: int) {
    forall s {:trigger nodes[s]} {:trigger NodeOk(l, ids, s, nodes[s], now)} | s in nodes ::
      NodeOk(l, ids, s, nodes[s], now)
  }

  lemma PublishToOk(l: Layout, ids: set<ServerId>, nodes: map<ServerId, Node>, now: int, sig: Signal, to: set<ServerId>)
    requires AllOk(l, ids, nodes, now) && sig.id in ids
    ensures AllOk(l, ids, PublishTo(nodes, sig, to), now)
  {
    forall s | s in nodes ensures NodeOk(l, ids, s, PublishTo(nodes, sig, to)[s], now) {
      assert NodeOk(l, ids, s, nodes[s], now);
    }
  }

  lemma PublishOk(l: Layout, ids: set<ServerId>, nodes: map<ServerId, Node>, now: int, sig: Signal)
    requires AllOk(l, ids, nodes, now) && sig.id in ids
    ensures AllOk(l, ids, Publish(nodes, sig), now)
  {
    PublishToOk(l, ids, nodes, now, sig, set s | s in nodes && nodes[s].subscribed);
  }

  lemma OneNodeOk(l: Layout, ids: set<ServerId>, nodes: map<ServerId, Node>, now: int, s: ServerId, n: Node)
    requires AllOk(l, ids, nodes, now) && NodeOk(l, ids, s, n, now)
    ensures AllOk(l, ids, nodes[s := n], now)
  {
    var after := nodes[s := n];
    forall t | t in after ensures NodeOk(l, ids, t, after[t], now) {
      assert t != s ==> NodeOk(l, ids, t, nodes[t], now);
    }
  }

  /** A server's own steps. */
  lemma OwnStepOk(l: Layout, ids: set<ServerId>, c: Cluster, a: Action)
    requires Distinct(l, ids) && l.replicas > 0 && Safe(l, ids, c) && Enabled(c, a) && Concerns(a, ids)
    requires a.Boot? || a.Subscribe? || a.Unsubscribe? || a.Receive? || a.Stamp? || a.Sweep? || a.Visit? || a.Rest?
    ensures a.s in ids && a.s in Next(l, c, a).nodes
    ensures NodeOk(l, ids, a.s, Next(l, c, a).nodes[a.s], c.now)
  {
    if a.Boot? {
      BootedOk(l, ids, a.s, c.now);
    } else {
      assert NodeOk(l, ids, a.s, c.nodes[a.s], c.now);
      match a {
        case Receive(s) => ReceivedOk(l, ids, s, c.nodes[s], c.now);
        case Stamp(s) => MarkedOk(l, ids, s, c.nodes[s], c.now);
        case Visit(s, id) => InspectedOk(l, ids, s, c.nodes[s], c.now, id);
        case _ =>
      }
    }
  }

  lemma PublicationOk(l: Layout, ids: set<ServerId>, c: Cluster, s: ServerId, n: Node, sig: Signal)
    requires Safe(l, ids, c) && s in c.nodes && sig.id == s
    requires n == c.nodes[s].(answering := n.answering, announced := n.announced)
    requires n.answering ==> c.nodes[s].answering
    ensures Safe(l, ids, c.(nodes := Publish(c.nodes[s := n], sig)))
  {
    assert NodeOk(l, ids, s, c.nodes[s], c.now);
    OneNodeOk(l, ids, c.nodes, c.now, s, n);
    PublishOk(l, ids, c.nodes[s := n], c.now, sig);
  }

  /** Every step, of any server, keeps every server's ring sound, the server itself in its own ring,
      and every remote member stamped. */
  lemma StepKeepsSafe(l: Layout, ids: set<ServerId>, c: Cluster, a: Action)
    requires Distinct(l, ids) && l.replicas > 0
    requires Safe(l, ids, c) && Enabled(c, a) && Concerns(a, ids)
    ensures Safe(l, ids, Next(l, c, a))
  {
    match a {
      case Announce(s) => PublicationOk(l, ids, c, s, c.nodes[s].(announced := true), JoinOf(s));
      case Answer(s) => PublicationOk(l, ids, c, s, c.nodes[s].(answering := false, announced := true), JoinOf(s));
      case Depart(s) =>
        assert c.nodes[s := c.nodes[s]] == c.nodes;
        PublicationOk(l, ids, c, s, c.nodes[s], LeaveOf(s));
      case Crash(s) =>
      case Typed(sig, to) => PublishToOk(l, ids, c.nodes, c.now, sig, to);
      case Tick(later) => LaterIsOk(l, ids, c, later);
      case _ =>
        OwnStepOk(l, ids, c, a);
        OneNodeOk(l, ids, c.nodes, c.now, a.s, Next(l, c, a).nodes[a.s]);
    }
  }

  lemma LaterIsOk(l: Layout, ids: set<ServerId>, c: Cluster, later: int)
    requires Safe(l, ids, c) && c.now <= later
    ensures Safe(l, ids, c.(now := later))
  {
    forall s | s in c.nodes ensures NodeOk(l, ids, s, c.nodes[s], later) {
      assert NodeOk(l, ids, s, c.nodes[s], c.now);
    }
  }

  lemma {:induction false} RunIsSafe(l: Layout, ids: set<ServerId>, run: seq<Cluster>, actions: seq<Action>, n: nat)
    requires Distinct(l, ids) && l.replicas > 0
    requires IsRun(l, run, actions) && run[0] == NOBODY && n < |run|
    requires forall a | a in actions :: Concerns(a, ids)
    ensures Safe(l, ids, run[n])
  {
    if n > 0 {
      RunIsSafe(l, ids, run, actions, n - 1);
      assert Leads(l, run, actions, n - 1) && actions[n - 1] in actions;
      StepKeepsSafe(l, ids, run[n - 1], actions[n - 1]);
    }
  }
}
