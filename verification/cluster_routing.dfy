/**
 Redirects taken while the cluster lives: each stop of a user meets whatever ring its server holds in
 some state of a run of module Gossip.
 */
module ClusterRouting {
  import opened RingSpec
  import opened Gossip
  import opened Convergence
  import opened Routing

  /** Stop `i` is served in state `run[at[i]]` by a server that is up there, with its ring there. */
  ghost predicate ServedIn(l: Layout, user: string, run: seq<Cluster>, at: seq<nat>, trail: seq<Stop>, i: nat)
    requires i < |trail| == |at|
  {
    && at[i] < |run|
    && trail[i].server in run[at[i]].nodes
    && trail[i].ring == run[at[i]].nodes[trail[i].server].keeper.ring
    && Answers(l, trail[i].ring, user, trail[i].owner)
  }

  ghost predicate IsJourney(l: Layout, user: string, first: Query, run: seq<Cluster>, at: seq<nat>, trail: seq<Stop>) {
    && |trail| == |at| > 0
    && (forall i {:trigger ServedIn(l, user, run, at, trail, i)} | 0 <= i < |trail| ::
          ServedIn(l, user, run, at, trail, i))
    && (forall i {:trigger Redirects(trail, first, i)} | 0 <= i < |trail| - 1 :: Redirects(trail, first, i))
  }

  lemma JourneyIsTrail(l: Layout, ids: set<ServerId>, user: string, first: Query, run: seq<Cluster>,
                       actions: seq<Action>, at: seq<nat>, trail: seq<Stop>)
    requires Distinct(l, ids) && l.replicas > 0
    requires IsRun(l, run, actions) && run[0] == NOBODY
    requires forall a | a in actions :: Concerns(a, ids)
    requires IsJourney(l, user, first, run, at, trail)
    ensures IsTrail(l, ids, user, first, trail)
  {
    forall i | 0 <= i < |trail| ensures Holds(l, ids, user, trail[i]) {
      assert ServedIn(l, user, run, at, trail, i);
      RunIsSafe(l, ids, run, actions, at[i]);
      assert NodeOk(l, ids, trail[i].server, run[at[i]].nodes[trail[i].server], run[at[i]].now);
    }
  }

  /** In every run of the cluster, with joins, leaves, crashes and evictions going on meanwhile, a user
      meets no server twice and is redirected at most |ids| - 1 times. */
  lemma RedirectsTerminateInEveryRun(l: Layout, ids: set<ServerId>, user: string, first: Query, run: seq<Cluster>,
                                     actions: seq<Action>, at: seq<nat>, trail: seq<Stop>)
    requires Distinct(l, ids) && l.replicas > 0
    requires IsRun(l, run, actions) && run[0] == NOBODY
    requires forall a | a in actions :: Concerns(a, ids)
    requires IsJourney(l, user, first, run, at, trail)
    ensures |trail| <= |ids|
    ensures forall i, j | 0 <= i < j < |trail| :: trail[i].server != trail[j].server
  {
    JourneyIsTrail(l, ids, user, first, run, actions, at, trail);
    RedirectsTerminate(l, ids, user, first, trail);
  }

  /** Once gossip rests, one redirect is enough. */
  lemma OneRedirectAtRest(l: Layout, ids: set<ServerId>, user: string, first: Query, run: seq<Cluster>,
                          actions: seq<Action>, n: nat, at: seq<nat>, trail: seq<Stop>)
    requires Distinct(l, ids) && l.replicas > 0 && IsGrowth(l, ids, run, actions) && n < |run|
    requires AtRest(run[n]) && forall s | s in run[n].nodes :: Announced(run[n], s)
    requires IsJourney(l, user, first, run, at, trail) && forall t | t in at :: t == n
    ensures |trail| <= 2
  {
    var all := run[n].nodes.Keys;
    RunIsSafe(l, ids, run, actions, n);
    RestIsAgreement(l, ids, run, actions, n);
    forall i | 0 <= i < |trail| ensures Members(trail[i].ring) == all && Holds(l, all, user, trail[i]) {
      assert ServedIn(l, user, run, at, trail, i) && at[i] in at;
      assert Members(trail[i].ring) == MembersAt(run[n], trail[i].server);
      assert NodeOk(l, ids, trail[i].server, run[n].nodes[trail[i].server], run[n].now);
    }
    OneRedirectWhenRingsAgree(l, all, user, first, trail);
  }

  lemma StepKeepsMembers(l: Layout, ids: set<ServerId>, c: Cluster, a: Action, s: ServerId)
    requires Distinct(l, ids) && l.replicas > 0 && Safe(l, ids, c) && Spreading(c)
    requires Enabled(c, a) && Concerns(a, ids) && Grows(c, a) && s in c.nodes
    ensures s in Next(l, c, a).nodes && MembersAt(c, s) <= MembersAt(Next(l, c, a), s)
  {
    if a.Receive? && a.s == s {
      ReceiveTakesJoin(l, ids, c, s);
    } else {
      assert Next(l, c, a).nodes[s].keeper.ring == c.nodes[s].keeper.ring;
    }
  }

  /** While `x` joins the agreed cluster `settled`, no settled server's ring loses a settled member. */
  lemma {:induction false} SettledStay(l: Layout, settled: set<ServerId>, x: ServerId, run: seq<Cluster>,
                                       actions: seq<Action>, from: nat, n: nat, s: ServerId)
    requires Distinct(l, settled + {x}) && l.replicas > 0 && IsGrowth(l, settled + {x}, run, actions)
    requires from <= n < |run|
    requires s in settled && s in run[from].nodes && settled <= MembersAt(run[from], s)
    ensures s in run[n].nodes && settled <= MembersAt(run[n], s)
    decreases n
  {
    if from < n {
      SettledStay(l, settled, x, run, actions, from, n - 1, s);
      RunSpreads(l, settled + {x}, run, actions, n - 1);
      assert Leads(l, run, actions, n - 1) && Grows(run[n - 1], actions[n - 1]) && actions[n - 1] in actions;
      StepKeepsMembers(l, settled + {x}, run[n - 1], actions[n - 1], s);
    }
  }

  lemma BetweenIsEither(settled: set<ServerId>, x: ServerId, members: set<ServerId>)
    requires settled <= members <= settled + {x}
    ensures members == settled || members == settled + {x}
  {
    assert x in members ==> members == settled + {x};
    assert x !in members ==> members == settled;
  }

  /** From a state in which the servers `settled` agree, for as long as only `x` joins, every user is
      accepted within two redirects, whichever states of the run its stops meet. */
  lemma TwoRedirectsDuringJoin(l: Layout, settled: set<ServerId>, x: ServerId, user: string, first: Query,
                               run: seq<Cluster>, actions: seq<Action>, from: nat, at: seq<nat>, trail: seq<Stop>)
    requires Distinct(l, settled + {x}) && l.replicas > 0 && x !in settled && settled != {}
    requires IsGrowth(l, settled + {x}, run, actions) && from < |run|
    requires forall s | s in settled :: s in run[from].nodes && MembersAt(run[from], s) == settled
    requires IsJourney(l, user, first, run, at, trail) && forall t | t in at :: from <= t
    ensures |trail| <= 3
  {
    var ids := settled + {x};
    JourneyIsTrail(l, ids, user, first, run, actions, at, trail);
    forall i | 0 <= i < |trail| ensures WhileJoining(settled, x, trail[i]) {
      assert ServedIn(l, user, run, at, trail, i) && at[i] in at;
      var s := trail[i].server;
      assert Holds(l, ids, user, trail[i]);
      if s != x {
        SettledStay(l, settled, x, run, actions, from, at[i], s);
        BetweenIsEither(settled, x, Members(trail[i].ring));
      }
    }
    TwoRedirectsWhileJoining(l, settled, x, user, first, trail);
  }
}
