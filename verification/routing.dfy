/**
 Where a user ends up: the redirect decision of `serveWS` (cmd/server/main.go) taken again and
 again, each time by another server holding a ring of its own.
 */
module Routing {
  import opened RingSpec
  import opened Rooms

  datatype Decision = Accept | Redirect(target: ServerId)

  /** The query parameters `serveWS` reads. */
  datatype Query = Query(from: string, room: string)

  /** Serve the user here when the ring says so, or when the shield recognises the ring's owner as
      the server the user has just come from. */
  function Decide(self: ServerId, owner: ServerId, q: Query): Decision {
    if owner != self && q.from != owner then Redirect(owner) else Accept
  }

  /** The query of the redirect URL: it names the redirecting server and carries no room. */
  function Forwarded(self: ServerId): Query {
    Query(self, "")
  }

  /** The room an accepting server puts the client in. */
  function AcceptedRoom(lower: char -> char, q: Query): string {
    var room := Sanitized(lower, q.room);
    if room == "" then "general" else room
  }

  /** One request: the server it reached, the ring that server held at that moment, and what its
      `Get` answered for the user. */
  datatype Stop = Stop(server: ServerId, ring: RingState, owner: ServerId)

  /** All that is assumed of a server's ring: it is the ring of some member set of its own, and the
      server is one of the members. */
  ghost predicate Holds(l: Layout, ids: set<ServerId>, user: string, st: Stop) {
    && IsRing(l, Members(st.ring), st.ring)
    && st.server in Members(st.ring) && Members(st.ring) <= ids
    && Answers(l, st.ring, user, st.owner)
  }

  function QueryAt(trail: seq<Stop>, first: Query, i: nat): Query
    requires i <= |trail|
  {
    if i == 0 then first else Forwarded(trail[i - 1].server)
  }

  /** Stop `i` redirects to the next stop. */
  predicate Redirects(trail: seq<Stop>, first: Query, i: nat)
    requires i < |trail| - 1
  {
    Decide(trail[i].server, trail[i].owner, QueryAt(trail, first, i)) == Redirect(trail[i + 1].server)
  }

  /** The stops of one user, each redirecting to the next. No two rings need agree, and the rings may
      change between two stops. */
  ghost predicate IsTrail(l: Layout, ids: set<ServerId>, user: string, first: Query, trail: seq<Stop>) {
    && |trail| > 0
    && (forall i {:trigger Holds(l, ids, user, trail[i])} | 0 <= i < |trail| :: Holds(l, ids, user, trail[i]))
    && (forall i {:trigger Redirects(trail, first, i)} | 0 <= i < |trail| - 1 :: Redirects(trail, first, i))
  }

  lemma OwnerIsCloser(l: Layout, ids: set<ServerId>, user: string, st: Stop)
    requires Distinct(l, ids) && l.replicas > 0 && Holds(l, ids, user, st)
    ensures IsOwner(l, Members(st.ring), user, st.owner) && st.owner in ids
    ensures st.owner == st.server || Distance(l, st.owner, user) < Distance(l, st.server, user)
  {
    AnswerIsOwner(l, Members(st.ring), st.ring, user, st.owner);
    if Distance(l, st.owner, user) == Distance(l, st.server, user) {
      DistanceInjective(l, ids, st.owner, st.server, user);
    }
  }

  lemma StopIsCloser(l: Layout, ids: set<ServerId>, user: string, first: Query, trail: seq<Stop>, i: nat)
    requires Distinct(l, ids) && l.replicas > 0 && IsTrail(l, ids, user, first, trail)
    requires i < |trail|
    ensures trail[i].server in ids && trail[i].owner in ids
    ensures trail[i].owner == trail[i].server ||
            Distance(l, trail[i].owner, user) < Distance(l, trail[i].server, user)
    ensures i < |trail| - 1 ==> Redirects(trail, first, i)
  {
    assert Holds(l, ids, user, trail[i]);
    OwnerIsCloser(l, ids, user, trail[i]);
  }

  /** Every redirect moves strictly closer, clockwise, to the user's hash. */
  lemma {:induction false} TrailCloses(l: Layout, ids: set<ServerId>, user: string, first: Query,
                                       trail: seq<Stop>, i: nat, j: nat)
    requires Distinct(l, ids) && l.replicas > 0 && IsTrail(l, ids, user, first, trail)
    requires i < j < |trail|
    ensures Distance(l, trail[j].server, user) < Distance(l, trail[i].server, user)
    decreases j
  {
    StopIsCloser(l, ids, user, first, trail, j - 1);
    if i < j - 1 {
      TrailCloses(l, ids, user, first, trail, i, j - 1);
    }
  }

  function Visited(trail: seq<Stop>): set<ServerId> {
    set st | st in trail :: st.server
  }

  lemma {:induction false} VisitedSize(trail: seq<Stop>)
    requires forall i, j | 0 <= i < j < |trail| :: trail[i].server != trail[j].server
    ensures |Visited(trail)| == |trail|
  {
    if trail != [] {
      var front, last := trail[..|trail| - 1], trail[|trail| - 1];
      VisitedSize(front);
      assert trail == front + [last];
      assert Visited(trail) == Visited(front) + {last.server};
      assert last.server !in Visited(front);
    }
  }

  lemma NoServerTwice(l: Layout, ids: set<ServerId>, user: string, first: Query, trail: seq<Stop>)
    requires Distinct(l, ids) && l.replicas > 0 && IsTrail(l, ids, user, first, trail)
    ensures forall i, j | 0 <= i < j < |trail| :: trail[i].server != trail[j].server
    ensures Visited(trail) <= ids && |Visited(trail)| == |trail|
  {
    forall i, j | 0 <= i < j < |trail| ensures trail[i].server != trail[j].server {
      TrailCloses(l, ids, user, first, trail, i, j);
    }
    VisitedSize(trail);
    forall i | 0 <= i < |trail| ensures trail[i].server in ids {
      StopIsCloser(l, ids, user, first, trail, i);
    }
  }

  /** Redirects terminate, whatever the rings: no server is visited twice, so there are at most
      |ids| - 1 redirects, and a user who has been to every server is owned by the last one. */
  lemma RedirectsTerminate(l: Layout, ids: set<ServerId>, user: string, first: Query, trail: seq<Stop>)
    requires Distinct(l, ids) && l.replicas > 0 && IsTrail(l, ids, user, first, trail)
    ensures forall i, j | 0 <= i < j < |trail| :: trail[i].server != trail[j].server
    ensures |trail| <= |ids|
    ensures |trail| == |ids| ==> trail[|trail| - 1].owner == trail[|trail| - 1].server
  {
    NoServerTwice(l, ids, user, first, trail);
    SubsetSize(Visited(trail), ids);
    if |trail| == |ids| {
      LastStopOwns(l, ids, user, first, trail);
    }
  }

  lemma LastStopOwns(l: Layout, ids: set<ServerId>, user: string, first: Query, trail: seq<Stop>)
    requires Distinct(l, ids) && l.replicas > 0 && IsTrail(l, ids, user, first, trail)
    requires Visited(trail) == ids
    ensures trail[|trail| - 1].owner == trail[|trail| - 1].server
  {
    var last := trail[|trail| - 1];
    StopIsCloser(l, ids, user, first, trail, |trail| - 1);
    var i := VisitedAt(trail, last.owner);
    if i < |trail| - 1 {
      TrailCloses(l, ids, user, first, trail, i, |trail| - 1);
    }
  }

  lemma VisitedAt(trail: seq<Stop>, s: ServerId) returns (i: nat)
    requires s in Visited(trail)
    ensures i < |trail| && trail[i].server == s
  {
    i :| i < |trail| && trail[i].server == s;
  }

  lemma SubsetSize<T>(a: set<T>, b: set<T>)
    requires a <= b
    ensures |a| <= |b|
    ensures |a| == |b| ==> a == b
  {
    assert b == a + (b - a);
    assert |b| == |a| + |b - a|;
  }

  /** What a redirected user brings along: where from, and no room. The `from` shield is never needed then: a
      server accepts exactly if its own ring names it, and else redirects to the one it names. Only on the first
      request can the shield fire, if the `from` that the user supplied names the owner. */
  lemma ShieldNeverNeeded(l: Layout, ids: set<ServerId>, user: string, first: Query, trail: seq<Stop>, i: nat)
    requires Distinct(l, ids) && l.replicas > 0 && IsTrail(l, ids, user, first, trail) && i < |trail|
    ensures i > 0 ==> QueryAt(trail, first, i) == Query(trail[i - 1].server, "")
                      && trail[i].owner != trail[i - 1].server
    ensures var accepts := trail[i].owner == trail[i].server || (i == 0 && first.from == trail[0].owner);
            Decide(trail[i].server, trail[i].owner, QueryAt(trail, first, i))
            == if accepts then Accept else Redirect(trail[i].owner)
  {
    if i > 0 {
      StopIsCloser(l, ids, user, first, trail, i);
      TrailCloses(l, ids, user, first, trail, i - 1, i);
    }
  }

  /** A redirect forgets the room: the user lands in the default one, and in the room asked for only if the
      first server accepts or that room is the default one anyway. */
  lemma RoomSurvivesIff(l: Layout, ids: set<ServerId>, user: string, first: Query, trail: seq<Stop>,
                        lower: char -> char)
    requires IsTrail(l, ids, user, first, trail)
    ensures var asked, got := Sanitized(lower, first.room), AcceptedRoom(lower, QueryAt(trail, first, |trail| - 1));
            && got == (if |trail| == 1 then asked else "general")
            && (got == asked <==> |trail| == 1 || asked == "general")
  {
    SanitizedIff(lower, first.room, "general");
    assert Sanitized(lower, "") == "general";
  }

  lemma SecondStopOwns(l: Layout, ids: set<ServerId>, user: string, first: Query, trail: seq<Stop>)
    requires Distinct(l, ids) && l.replicas > 0 && IsTrail(l, ids, user, first, trail) && |trail| > 1
    requires forall i | 0 <= i < |trail| :: Members(trail[i].ring) == ids
    ensures trail[1].owner == trail[1].server
  {
    StopIsCloser(l, ids, user, first, trail, 0);
    assert Holds(l, ids, user, trail[0]) && Holds(l, ids, user, trail[1]);
    OwnerIsCloser(l, ids, user, trail[0]);
    OwnerIsCloser(l, ids, user, trail[1]);
    OwnerUnique(l, ids, ids, user, trail[0].owner, trail[1].owner);
  }

  /** When all rings agree, one redirect is enough. */
  lemma OneRedirectWhenRingsAgree(l: Layout, ids: set<ServerId>, user: string, first: Query, trail: seq<Stop>)
    requires Distinct(l, ids) && l.replicas > 0 && IsTrail(l, ids, user, first, trail)
    requires forall i | 0 <= i < |trail| :: Members(trail[i].ring) == ids
    ensures |trail| <= 2
  {
    if |trail| > 1 {
      SecondStopOwns(l, ids, user, first, trail);
      StopIsCloser(l, ids, user, first, trail, 1);
    }
  }

  /** While `x` joins the servers `old`: an old server's ring has all of `old` and perhaps `x`, the
      newcomer's ring has itself and any of `old`. */
  ghost predicate WhileJoining(settled: set<ServerId>, x: ServerId, st: Stop) {
    if st.server == x then x in Members(st.ring) && Members(st.ring) <= settled + {x}
    else Members(st.ring) == settled || Members(st.ring) == settled + {x}
  }

  lemma {:induction false} OwnerExists(l: Layout, members: set<ServerId>, key: string) returns (m: ServerId)
    requires members != {} && l.replicas > 0
    ensures IsOwner(l, members, key, m)
    decreases |members|
  {
    m :| m in members;
    if members != {m} {
      var rest := members - {m};
      var n := OwnerExists(l, rest, key);
      if Distance(l, n, key) < Distance(l, m, key) {
        m := n;
      }
    }
  }

  /** Where a server redirects while `x` joins: to `x` or the old owner `o`, whichever is closer, except
      that `x` itself may name any old server closer than itself. */
  lemma JoiningHop(l: Layout, settled: set<ServerId>, x: ServerId, user: string, st: Stop, o: ServerId)
    requires Distinct(l, settled + {x}) && l.replicas > 0 && x !in settled
    requires IsOwner(l, settled, user, o)
    requires Holds(l, settled + {x}, user, st) && WhileJoining(settled, x, st)
    requires st.owner != st.server
    ensures Distance(l, x, user) < Distance(l, o, user) ==> st.server != x && st.owner in {o, x}
    ensures Distance(l, o, user) < Distance(l, x, user) ==> st.server != o && (st.server != x ==> st.owner == o)
  {
    var ids := settled + {x};
    OwnerIsCloser(l, ids, user, st);
    if st.owner in settled && st.server != x {
      assert IsOwner(l, settled, user, st.owner);
      OwnerUnique(l, ids, settled, user, st.owner, o);
    }
  }

  /** A stop that redirects while `x` joins. */
  lemma JoiningStop(l: Layout, settled: set<ServerId>, x: ServerId, user: string, first: Query, trail: seq<Stop>,
                    o: ServerId, i: nat)
    requires Distinct(l, settled + {x}) && l.replicas > 0 && x !in settled
    requires IsOwner(l, settled, user, o)
    requires IsTrail(l, settled + {x}, user, first, trail)
    requires forall k | 0 <= k < |trail| :: WhileJoining(settled, x, trail[k])
    requires i < |trail| - 1
    ensures Distance(l, x, user) < Distance(l, o, user) ==> trail[i].server != x && trail[i + 1].server in {o, x}
    ensures Distance(l, o, user) < Distance(l, x, user) ==>
              trail[i].server != o && (trail[i].server != x ==> trail[i + 1].server == o)
  {
    StopIsCloser(l, settled + {x}, user, first, trail, i);
    assert Holds(l, settled + {x}, user, trail[i]);
    JoiningHop(l, settled, x, user, trail[i], o);
  }

  lemma StopMoves(l: Layout, ids: set<ServerId>, user: string, first: Query, trail: seq<Stop>, i: nat)
    requires Distinct(l, ids) && l.replicas > 0 && IsTrail(l, ids, user, first, trail) && i < |trail| - 1
    ensures trail[i].server != trail[i + 1].server
  {
    TrailCloses(l, ids, user, first, trail, i, i + 1);
  }

  /** The third stop, if it comes to that, is the last: `o` or `x`, whichever is closer. */
  lemma ThirdStopIsNearest(l: Layout, settled: set<ServerId>, x: ServerId, user: string, first: Query,
                           trail: seq<Stop>, o: ServerId)
    requires Distinct(l, settled + {x}) && l.replicas > 0 && x !in settled
    requires IsOwner(l, settled, user, o)
    requires IsTrail(l, settled + {x}, user, first, trail) && |trail| > 2
    requires forall i | 0 <= i < |trail| :: WhileJoining(settled, x, trail[i])
    ensures Distance(l, x, user) < Distance(l, o, user) ==> trail[2].server == x
    ensures Distance(l, o, user) < Distance(l, x, user) ==> trail[2].server == o
  {
    JoiningStop(l, settled, x, user, first, trail, o, 0);
    JoiningStop(l, settled, x, user, first, trail, o, 1);
    StopMoves(l, settled + {x}, user, first, trail, 0);
    StopMoves(l, settled + {x}, user, first, trail, 1);
  }

  lemma FourthStopIsCloser(l: Layout, settled: set<ServerId>, x: ServerId, user: string, first: Query,
                           trail: seq<Stop>, o: ServerId)
    requires Distinct(l, settled + {x}) && l.replicas > 0 && x !in settled
    requires IsOwner(l, settled, user, o)
    requires IsTrail(l, settled + {x}, user, first, trail) && |trail| > 2
    requires forall i | 0 <= i < |trail| :: WhileJoining(settled, x, trail[i])
    ensures |trail| > 3 ==> Distance(l, x, user) < Distance(l, o, user) ==> trail[2].server != x
    ensures |trail| > 3 ==> Distance(l, o, user) < Distance(l, x, user) ==> trail[2].server != o
  {
    if |trail| > 3 {
      JoiningStop(l, settled, x, user, first, trail, o, 2);
    }
  }

  /** While one server joins, two redirects are enough. */
  lemma TwoRedirectsWhileJoining(l: Layout, settled: set<ServerId>, x: ServerId, user: string, first: Query,
                                 trail: seq<Stop>)
    requires Distinct(l, settled + {x}) && l.replicas > 0 && x !in settled && settled != {}
    requires IsTrail(l, settled + {x}, user, first, trail)
    requires forall i | 0 <= i < |trail| :: WhileJoining(settled, x, trail[i])
    ensures |trail| <= 3
  {
    if |trail| > 2 {
      var o := OwnerExists(l, settled, user);
      if Distance(l, o, user) == Distance(l, x, user) {
        DistanceInjective(l, settled + {x}, o, x, user);
      }
      ThirdStopIsNearest(l, settled, x, user, first, trail, o);
      FourthStopIsCloser(l, settled, x, user, first, trail, o);
    }
  }
}
