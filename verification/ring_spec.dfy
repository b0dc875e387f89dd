/**
 The consistent-hash ring of internal/hashing/consistent.go as a value: what `Add`, `Remove` and
 `Get` compute, and the laws of the ring they build. The hash function and the replica count are
 parameters, so every law holds for CRC-32 (module Crc32) and for any other 32-bit hash.
 */
module RingSpec {
  import opened Numbers

  type Point = p: nat | p < 0x1_0000_0000
  type ServerId = string

  /** The decimal digits of `n`, as strconv.Itoa prints them. */
  function Itoa(n: nat): string {
    if n < 10 then [DigitChar(n)] else Itoa(n / 10) + [DigitChar(n % 10)]
  }

  function DigitChar(d: nat): char
    requires d < 10
  {
    "0123456789"[d]
  }

  /** The name under which replica `i` of `node` is hashed. */
  function Identity(node: ServerId, i: nat): string {
    node + "#" + Itoa(i)
  }

  datatype Layout = Layout(hash: string -> Point, replicas: nat) {
    function PointOf(node: ServerId, i: nat): Point {
      hash(Identity(node, i))
    }

    function PointsOf(node: ServerId): seq<Point> {
      seq(replicas, i requires 0 <= i => PointOf(node, i))
    }
  }

  datatype RingState = RingState(nodes: seq<Point>, registry: map<Point, ServerId>)

  const EMPTY := RingState([], map[])

  // ---------- the operations ----------

  function Insert(p: Point, s: seq<Point>): seq<Point> {
    if s == [] || p <= s[0] then [p] + s else [s[0]] + Insert(p, s[1..])
  }

  /** slices.Sort */
  function Sort(s: seq<Point>): seq<Point> {
    if s == [] then [] else Insert(s[0], Sort(s[1..]))
  }

  /** `s` without its first occurrence of `p`. */
  function DropFirst(s: seq<Point>, p: Point): seq<Point> {
    if s == [] then [] else if s[0] == p then s[1..] else [s[0]] + DropFirst(s[1..], p)
  }

  function DropEach(s: seq<Point>, ps: seq<Point>): seq<Point> {
    if ps == [] then s else DropFirst(DropEach(s, ps[..|ps| - 1]), ps[|ps| - 1])
  }

  function PointSet(ps: seq<Point>): set<Point> {
    set p | p in ps
  }

  /** `registry` with every point of `ps` registered to `node`. */
  function Enrol(registry: map<Point, ServerId>, ps: seq<Point>, node: ServerId): map<Point, ServerId> {
    if ps == [] then registry else Enrol(registry, ps[..|ps| - 1], node)[ps[|ps| - 1] := node]
  }

  /** The ring after `Add(node)`, and what `Add` returns. */
  function Add(l: Layout, r: RingState, node: ServerId): (RingState, bool) {
    if l.PointOf(node, 0) in r.registry then
      (r, false)
    else
      (RingState(Sort(r.nodes + l.PointsOf(node)), Enrol(r.registry, l.PointsOf(node), node)), true)
  }

  /** The ring after `Remove(node)`, and what `Remove` returns. */
  function Remove(l: Layout, r: RingState, node: ServerId): (RingState, bool) {
    if l.PointOf(node, 0) !in r.registry then
      (r, false)
    else
      (RingState(DropEach(r.nodes, l.PointsOf(node)),
                 r.registry - PointSet(l.PointsOf(node))), true)
  }

  /** How far clockwise from `k` the point `p` lies, modulo 2^32. */
  function Clockwise(k: Point, p: Point): Point {
    if k <= p then p - k else p + 0x1_0000_0000 - k
  }

  /** A point of `nodes` that no other point of `nodes` precedes clockwise from `k`. */
  ghost predicate Nearest(nodes: seq<Point>, k: Point, p: Point) {
    p in nodes && forall q | q in nodes :: Clockwise(k, p) <= Clockwise(k, q)
  }

  /** Reading a Go map of strings: a missing key reads as "". */
  function Lookup(registry: map<Point, ServerId>, p: Point): ServerId {
    if p in registry then registry[p] else ""
  }

  /** What `Get(key)` may return: "" on an empty ring, else the owner of the nearest point. */
  ghost predicate Answers(l: Layout, r: RingState, key: string, owner: ServerId) {
    if r.nodes == [] then owner == ""
    else exists p :: Nearest(r.nodes, l.hash(key), p) && owner == Lookup(r.registry, p)
  }

  // ---------- well-formed rings ----------

  ghost predicate Sorted(s: seq<Point>) {
    forall i, j | 0 <= i < j < |s| :: s[i] <= s[j]
  }

  ghost predicate StrictlySorted(s: seq<Point>) {
    forall i, j | 0 <= i < j < |s| :: s[i] < s[j]
  }

  ghost predicate Owns(l: Layout, members: set<ServerId>, p: Point, m: ServerId) {
    m in members && exists i | 0 <= i < l.replicas :: l.PointOf(m, i) == p
  }

  /** `r` is the ring of exactly `members`: sorted points without duplicates, and each point
      registered to the one member it belongs to. */
  ghost predicate IsRing(l: Layout, members: set<ServerId>, r: RingState) {
    && StrictlySorted(r.nodes)
    && (forall p :: p in r.nodes <==> p in r.registry)
    && (forall p, m :: (p in r.registry && r.registry[p] == m) <==> Owns(l, members, p, m))
  }

  function Members(r: RingState): set<ServerId> {
    r.registry.Values
  }

  /** The points of `x` are pairwise distinct and none of them is a point of `members`. */
  ghost predicate FreshPoints(l: Layout, members: set<ServerId>, x: ServerId) {
    && (forall i, j | 0 <= i < j < l.replicas :: l.PointOf(x, i) != l.PointOf(x, j))
    && (forall m, i, j | m in members && 0 <= i < l.replicas && 0 <= j < l.replicas ::
          l.PointOf(m, i) != l.PointOf(x, j))
  }

  /** No two replicas of servers in `ids` are hashed to one point. */
  ghost predicate Distinct(l: Layout, ids: set<ServerId>) {
    forall a, b, i, j | a in ids && b in ids && 0 <= i < l.replicas && 0 <= j < l.replicas &&
                        l.PointOf(a, i) == l.PointOf(b, j) :: a == b && i == j
  }

  // ---------- identities ----------

  lemma {:induction false} ItoaIsDigits(n: nat)
    ensures |Itoa(n)| > 0 && '#' !in Itoa(n)
  {
    if n >= 10 {
      ItoaIsDigits(n / 10);
    }
  }

  lemma DigitInjective(d: nat, e: nat)
    requires d < 10 && e < 10 && DigitChar(d) == DigitChar(e)
    ensures d == e
  {
  }

  lemma {:induction false} ItoaInjective(n: nat, m: nat)
    requires Itoa(n) == Itoa(m)
    ensures n == m
  {
    ItoaIsDigits(n / 10);
    ItoaIsDigits(m / 10);
    var s, t := Itoa(n), Itoa(m);
    assert s[|s| - 1] == DigitChar(n % 10) && t[|t| - 1] == DigitChar(m % 10);
    DigitInjective(n % 10, m % 10);
    if n >= 10 {
      assert m >= 10;
      assert Itoa(n / 10) == s[..|s| - 1] == t[..|t| - 1] == Itoa(m / 10);
      ItoaInjective(n / 10, m / 10);
    }
  }

  lemma DigitCharIs(d: nat)
    requires d < 10
    ensures DigitChar(d) as int == '0' as int + d
  {
  }

  /** Itoa prints the number in decimal, without leading zeros: reading the digits back yields the number. */
  lemma {:induction false} ItoaReads(n: nat, tail: string)
    ensures Itoa(n) != "" && IsDigit(Itoa(n)[0]) && (n > 0 ==> Itoa(n)[0] != '0')
    ensures ReadDigits(0, Itoa(n) + tail) == ReadDigits(n, tail)
  {
    DigitCharIs(n % 10);
    var last := [DigitChar(n % 10)] + tail;
    assert last[1..] == tail;
    if n < 10 {
      assert Itoa(n) + tail == last;
    } else {
      assert Itoa(n) + tail == Itoa(n / 10) + last;
      ItoaReads(n / 10, last);
    }
  }

  /** `digits` is `n` in decimal, without leading zeros. */
  predicate IsDecimal(digits: string, n: nat) {
    digits != "" && (n > 0 ==> digits[0] != '0') && ReadDigits(0, digits) == (n, "")
  }

  /** A replica's point is the hash of its server, a '#' and its number in decimal. */
  lemma PointIs(l: Layout, node: ServerId, i: nat)
    ensures exists digits: string :: l.PointOf(node, i) == l.hash(node + "#" + digits) && IsDecimal(digits, i)
  {
    ItoaReads(i, "");
    assert Itoa(i) + "" == Itoa(i);
    assert l.PointOf(node, i) == l.hash(node + "#" + Itoa(i));
  }

  /** The clockwise distance is what takes `k` to `p` modulo 2^32, and less than once around. */
  lemma ClockwiseIs(k: Point, p: Point, d: int)
    ensures d == Clockwise(k, p) <==> 0 <= d < 0x1_0000_0000 && (k + d) % 0x1_0000_0000 == p
  {
  }

  /** Different (server, replica) pairs are never hashed under one name, even when a server name
      itself contains '#'. */
  lemma IdentityInjective(a: ServerId, i: nat, b: ServerId, j: nat)
    requires Identity(a, i) == Identity(b, j)
    ensures a == b && i == j
  {
    var s, t := Itoa(i), Itoa(j);
    ItoaIsDigits(i);
    ItoaIsDigits(j);
    var whole := Identity(a, i);
    assert whole[|a|] == '#' && whole[|b|] == '#';
    assert whole[|a| + 1..] == s && whole[|b| + 1..] == t;
    assert forall n | |a| < n < |whole| :: whole[n] == s[n - |a| - 1] && whole[n] != '#';
    assert forall n | |b| < n < |whole| :: whole[n] == t[n - |b| - 1] && whole[n] != '#';
    assert whole[..|a|] == a && whole[..|b|] == b;
    ItoaInjective(i, j);
  }

  /** So a hash that is injective on the identities in play gives a collision-free layout. */
  lemma DistinctIfInjective(l: Layout, ids: set<ServerId>)
    requires forall a, b, i, j | a in ids && b in ids && 0 <= i < l.replicas && 0 <= j < l.replicas &&
                                 l.PointOf(a, i) == l.PointOf(b, j) :: Identity(a, i) == Identity(b, j)
    ensures Distinct(l, ids)
  {
    forall a, b, i, j | a in ids && b in ids && 0 <= i < l.replicas && 0 <= j < l.replicas &&
                        l.PointOf(a, i) == l.PointOf(b, j)
      ensures a == b && i == j
    {
      IdentityInjective(a, i, b, j);
    }
  }

  // ---------- sorting and dropping ----------

  lemma {:induction false} InsertMembers(p: Point, s: seq<Point>)
    ensures forall q :: q in Insert(p, s) <==> q == p || q in s
  {
    if s != [] && p > s[0] {
      InsertMembers(p, s[1..]);
      assert s == [s[0]] + s[1..];
    }
  }

  lemma SortedCons(a: Point, t: seq<Point>)
    requires Sorted(t) && forall q | q in t :: a <= q
    ensures Sorted([a] + t)
  {
    assert forall n | 0 <= n < |t| :: t[n] in t && ([a] + t)[n + 1] == t[n];
  }

  lemma {:induction false} InsertSorts(p: Point, s: seq<Point>)
    requires Sorted(s)
    ensures Sorted(Insert(p, s))
  {
    if s == [] || p <= s[0] {
      SortedCons(p, s);
    } else {
      InsertSorts(p, s[1..]);
      InsertMembers(p, s[1..]);
      SortedCons(s[0], Insert(p, s[1..]));
    }
  }

  lemma {:induction false} InsertPermutes(p: Point, s: seq<Point>)
    ensures multiset(Insert(p, s)) == multiset(s) + multiset{p}
  {
    if s != [] && p > s[0] {
      assert s == [s[0]] + s[1..];
      InsertPermutes(p, s[1..]);
    }
  }

  lemma {:induction false} SortSorts(s: seq<Point>)
    ensures Sorted(Sort(s)) && multiset(Sort(s)) == multiset(s)
  {
    if s != [] {
      SortSorts(s[1..]);
      InsertSorts(s[0], Sort(s[1..]));
      InsertPermutes(s[0], Sort(s[1..]));
      assert s == [s[0]] + s[1..];
    }
  }

  lemma SortMembers(s: seq<Point>, p: Point)
    ensures p in Sort(s) <==> p in s
  {
    SortSorts(s);
    assert p in multiset(Sort(s)) <==> p in multiset(s);
  }

  lemma {:induction false} DropFirstStrict(s: seq<Point>, p: Point)
    requires StrictlySorted(s)
    ensures StrictlySorted(DropFirst(s, p))
    ensures forall q :: q in DropFirst(s, p) <==> q in s && q != p
  {
    if s != [] {
      var tail := s[1..];
      assert s == [s[0]] + tail;
      DropFirstStrict(tail, p);
      if s[0] != p {
        var t := DropFirst(tail, p);
        assert DropFirst(s, p) == [s[0]] + t;
        forall n | 0 <= n < |t| ensures s[0] < t[n] {
          assert t[n] in tail;
        }
      }
    }
  }

  lemma {:induction false} DropEachStrict(s: seq<Point>, ps: seq<Point>)
    requires StrictlySorted(s)
    ensures StrictlySorted(DropEach(s, ps))
    ensures forall q :: q in DropEach(s, ps) <==> q in s && q !in ps
  {
    if ps != [] {
      var front := ps[..|ps| - 1];
      DropEachStrict(s, front);
      DropFirstStrict(DropEach(s, front), ps[|ps| - 1]);
      assert ps == front + [ps[|ps| - 1]];
    }
  }

  /** `Remove` keeps the points sorted even when points collide. */
  lemma {:induction false} DropFirstSorted(s: seq<Point>, p: Point)
    requires Sorted(s)
    ensures Sorted(DropFirst(s, p)) && forall q | q in DropFirst(s, p) :: q in s
  {
    if s != [] {
      var tail := s[1..];
      assert s == [s[0]] + tail;
      DropFirstSorted(tail, p);
      if s[0] != p {
        var t := DropFirst(tail, p);
        assert DropFirst(s, p) == [s[0]] + t;
        forall n | 0 <= n < |t| ensures s[0] <= t[n] {
          assert t[n] in tail;
        }
      }
    }
  }

  lemma {:induction false} DropEachSorted(s: seq<Point>, ps: seq<Point>)
    requires Sorted(s)
    ensures Sorted(DropEach(s, ps))
  {
    if ps != [] {
      DropEachSorted(s, ps[..|ps| - 1]);
      DropFirstSorted(DropEach(s, ps[..|ps| - 1]), ps[|ps| - 1]);
    }
  }

  lemma {:induction false} StrictlySortedUnique(s: seq<Point>, t: seq<Point>)
    requires StrictlySorted(s) && StrictlySorted(t)
    requires forall p :: p in s <==> p in t
    ensures s == t
  {
    assert s != [] ==> s[0] in t;
    assert t != [] ==> t[0] in s;
    if s != [] {
      assert s[0] == t[0];
      forall p ensures p in s[1..] <==> p in t[1..] {
        assert s == [s[0]] + s[1..] && t == [t[0]] + t[1..];
        if p in s[1..] { assert p in t && p != t[0]; }
        if p in t[1..] { assert p in s && p != s[0]; }
      }
      StrictlySortedUnique(s[1..], t[1..]);
    }
  }

  // ---------- the ring laws ----------

  lemma EmptyIsRing(l: Layout)
    ensures IsRing(l, {}, EMPTY) && Members(EMPTY) == {}
  {
  }

  lemma RegisteredIsOwned(l: Layout, members: set<ServerId>, r: RingState)
    requires IsRing(l, members, r)
    ensures forall p | p in r.registry :: Owns(l, members, p, r.registry[p])
  {
  }

  lemma MembersOfRing(l: Layout, members: set<ServerId>, r: RingState)
    requires IsRing(l, members, r) && l.replicas > 0
    ensures Members(r) == members
    ensures forall x :: l.PointOf(x, 0) in r.registry && x in members ==> r.registry[l.PointOf(x, 0)] == x
    ensures forall x :: x in members ==> l.PointOf(x, 0) in r.registry
  {
    forall x | x in members
      ensures l.PointOf(x, 0) in r.registry && r.registry[l.PointOf(x, 0)] == x
    {
      assert Owns(l, members, l.PointOf(x, 0), x);
    }
    forall x | x in Members(r) ensures x in members {
      var p :| p in r.registry && r.registry[p] == x;
      assert Owns(l, members, p, x);
    }
    forall x | x in members ensures x in Members(r) {
      assert r.registry[l.PointOf(x, 0)] in r.registry.Values;
    }
  }

  /** The ring is canonical: its points and its registry are determined by its member set, so they
      cannot depend on the history that led to it. */
  lemma Canonical(l: Layout, members: set<ServerId>, r: RingState, q: RingState)
    requires IsRing(l, members, r) && IsRing(l, members, q)
    ensures r == q
  {
    forall p
      ensures p in r.registry <==> p in q.registry
      ensures p in r.registry ==> r.registry[p] == q.registry[p]
    {
      if p in r.registry { assert Owns(l, members, p, r.registry[p]); }
      if p in q.registry { assert Owns(l, members, p, q.registry[p]); }
    }
    assert r.registry == q.registry;
    StrictlySortedUnique(r.nodes, q.nodes);
  }

  lemma PointsOfMember(l: Layout, x: ServerId, p: Point)
    ensures p in l.PointsOf(x) <==> exists i | 0 <= i < l.replicas :: l.PointOf(x, i) == p
  {
    if p in l.PointsOf(x) {
      var i :| 0 <= i < |l.PointsOf(x)| && l.PointsOf(x)[i] == p;
      assert l.PointOf(x, i) == p;
    }
    if i :| 0 <= i < l.replicas && l.PointOf(x, i) == p {
      assert l.PointsOf(x)[i] == p;
    }
  }

  lemma {:induction false} Enrolled(registry: map<Point, ServerId>, ps: seq<Point>, node: ServerId, p: Point)
    ensures p in Enrol(registry, ps, node) <==> p in registry || p in ps
    ensures p in ps ==> Enrol(registry, ps, node)[p] == node
    ensures p in registry && p !in ps ==> Enrol(registry, ps, node)[p] == registry[p]
  {
    if ps != [] {
      var front := ps[..|ps| - 1];
      assert ps == front + [ps[|ps| - 1]];
      Enrolled(registry, front, node, p);
    }
  }

  /** The registry half of `Add`. */
  lemma AddRegistry(l: Layout, members: set<ServerId>, r: RingState, x: ServerId)
    requires IsRing(l, members, r) && x !in members && l.replicas > 0
    requires FreshPoints(l, members, x)
    ensures Add(l, r, x).1
    ensures var q := Add(l, r, x).0;
            && (forall p :: p in q.registry <==> p in r.registry || p in l.PointsOf(x))
            && (forall p, m :: (p in q.registry && q.registry[p] == m) <==> Owns(l, members + {x}, p, m))
  {
    RegisteredIsOwned(l, members, r);
    var q := Add(l, r, x).0;
    forall p ensures p in q.registry <==> p in r.registry || p in l.PointsOf(x) {
      Enrolled(r.registry, l.PointsOf(x), x, p);
    }
    forall p, m
      ensures (p in q.registry && q.registry[p] == m) <==> Owns(l, members + {x}, p, m)
    {
      PointsOfMember(l, x, p);
      Enrolled(r.registry, l.PointsOf(x), x, p);
      assert p in l.PointsOf(x) ==> !Owns(l, members, p, m);
      if m == x {
        assert Owns(l, members + {x}, p, x) <==> p in l.PointsOf(x);
      } else {
        assert Owns(l, members + {x}, p, m) <==> Owns(l, members, p, m);
      }
    }
  }

  /** The points half of `Add`. */
  lemma AddNodes(l: Layout, members: set<ServerId>, r: RingState, x: ServerId)
    requires IsRing(l, members, r) && FreshPoints(l, members, x)
    ensures var s := Sort(r.nodes + l.PointsOf(x));
            StrictlySorted(s) && forall p :: p in s <==> p in r.nodes || p in l.PointsOf(x)
  {
    var ps := l.PointsOf(x);
    var s := Sort(r.nodes + ps);
    SortSorts(r.nodes + ps);
    forall p ensures p in s <==> p in r.nodes || p in ps {
      SortMembers(r.nodes + ps, p);
    }
    RegisteredIsOwned(l, members, r);
    forall p ensures multiset(r.nodes + ps)[p] <= 1 {
      assert multiset(r.nodes + ps) == multiset(r.nodes) + multiset(ps);
      AtMostOnce(r.nodes, p);
      AtMostOnce(ps, p);
      PointsOfMember(l, x, p);
      assert !(p in r.nodes && p in ps);
    }
    forall i, j | 0 <= i < j < |s| ensures s[i] < s[j] {
      if s[i] == s[j] {
        TwiceInMultiset(s, i, j);
      }
    }
  }

  lemma {:induction false} AtMostOnce(s: seq<Point>, p: Point)
    requires forall i, j | 0 <= i < j < |s| :: s[i] != s[j]
    ensures multiset(s)[p] <= 1
  {
    if s != [] {
      AtMostOnce(s[1..], p);
      assert s == [s[0]] + s[1..];
      if p == s[0] {
        assert p !in s[1..];
      }
    }
  }

  lemma TwiceInMultiset(s: seq<Point>, i: nat, j: nat)
    requires i < j < |s| && s[i] == s[j]
    ensures multiset(s)[s[i]] >= 2
  {
    assert s == s[..j] + [s[j]] + s[j + 1..];
    assert s[i] in s[..j];
  }

  lemma FreshAddIsSound(l: Layout, members: set<ServerId>, r: RingState, x: ServerId)
    requires IsRing(l, members, r) && x !in members && l.replicas > 0
    requires FreshPoints(l, members, x)
    ensures IsRing(l, members + {x}, Add(l, r, x).0) && Add(l, r, x).1
  {
    AddRegistry(l, members, r, x);
    AddNodes(l, members, r, x);
  }

  /** On a ring of `members` and `x`, no point of `x` is one of theirs. */
  lemma RingPointsApart(l: Layout, members: set<ServerId>, q: RingState, x: ServerId)
    requires IsRing(l, members + {x}, q) && x !in members
    ensures forall m, i, j | m in members && 0 <= i < l.replicas && 0 <= j < l.replicas ::
              l.PointOf(m, i) != l.PointOf(x, j)
  {
    forall m, i, j | m in members && 0 <= i < l.replicas && 0 <= j < l.replicas
      ensures l.PointOf(m, i) != l.PointOf(x, j)
    {
      assert Owns(l, members + {x}, l.PointOf(m, i), m);
      assert Owns(l, members + {x}, l.PointOf(x, j), x);
    }
  }

  /** If sorting in the points of `x` leaves no duplicates, there were none among them. */
  lemma NoDuplicatesAdded(nodes: seq<Point>, ps: seq<Point>)
    requires StrictlySorted(Sort(nodes + ps))
    ensures forall i, j | 0 <= i < j < |ps| :: ps[i] != ps[j]
  {
    SortSorts(nodes + ps);
    assert multiset(nodes + ps) == multiset(nodes) + multiset(ps);
    forall i, j | 0 <= i < j < |ps|
      ensures ps[i] != ps[j]
    {
      AtMostOnce(Sort(nodes + ps), ps[i]);
      if ps[i] == ps[j] {
        TwiceInMultiset(ps, i, j);
      }
    }
  }

  lemma SoundAddIsFresh(l: Layout, members: set<ServerId>, r: RingState, x: ServerId)
    requires IsRing(l, members, r) && x !in members && l.replicas > 0
    requires IsRing(l, members + {x}, Add(l, r, x).0)
    ensures FreshPoints(l, members, x)
  {
    var ps := l.PointsOf(x);
    RegisteredIsOwned(l, members, r);
    RingPointsApart(l, members, Add(l, r, x).0, x);
    assert Owns(l, members + {x}, l.PointOf(x, 0), x);
    assert Add(l, r, x).1;
    NoDuplicatesAdded(r.nodes, ps);
    forall i, j | 0 <= i < j < l.replicas
      ensures l.PointOf(x, i) != l.PointOf(x, j)
    {
      assert ps[i] == l.PointOf(x, i) && ps[j] == l.PointOf(x, j);
    }
  }

  /** `Add` of a newcomer yields the ring of the enlarged member set exactly when none of its points
      collides, with each other or with a point already on the ring. */
  lemma AddIsSoundIff(l: Layout, members: set<ServerId>, r: RingState, x: ServerId)
    requires IsRing(l, members, r) && x !in members && l.replicas > 0
    ensures IsRing(l, members + {x}, Add(l, r, x).0) <==> FreshPoints(l, members, x)
    ensures FreshPoints(l, members, x) ==> Add(l, r, x).1
  {
    if FreshPoints(l, members, x) {
      FreshAddIsSound(l, members, r, x);
    } else if IsRing(l, members + {x}, Add(l, r, x).0) {
      SoundAddIsFresh(l, members, r, x);
    }
  }

  /** `Add` of a member, and `Remove` of a stranger, change nothing and return false. */
  lemma RepeatsChangeNothing(l: Layout, members: set<ServerId>, r: RingState, x: ServerId)
    requires IsRing(l, members, r) && l.replicas > 0
    ensures x in members ==> Add(l, r, x) == (r, false)
    ensures x !in members && FreshPoints(l, members, x) ==> Remove(l, r, x) == (r, false)
  {
    MembersOfRing(l, members, r);
    RegisteredIsOwned(l, members, r);
  }

  lemma RemoveIsSound(l: Layout, members: set<ServerId>, r: RingState, x: ServerId)
    requires IsRing(l, members, r) && x in members && l.replicas > 0
    ensures Remove(l, r, x).1
    ensures IsRing(l, members - {x}, Remove(l, r, x).0)
  {
    MembersOfRing(l, members, r);
    var q := Remove(l, r, x).0;
    DropEachStrict(r.nodes, l.PointsOf(x));
    forall p, m
      ensures (p in q.registry && q.registry[p] == m) <==> Owns(l, members - {x}, p, m)
    {
      PointsOfMember(l, x, p);
      assert p in l.PointsOf(x) <==> Owns(l, members, p, x);
      assert m != x ==> (Owns(l, members - {x}, p, m) <==> Owns(l, members, p, m));
    }
  }

  lemma DistinctIsFresh(l: Layout, ids: set<ServerId>, members: set<ServerId>, x: ServerId)
    requires Distinct(l, ids) && members <= ids && x in ids && x !in members
    ensures FreshPoints(l, members, x)
  {
  }

  /** `Add` and `Remove` on a collision-free layout, for members and strangers alike. */
  lemma RingStep(l: Layout, ids: set<ServerId>, members: set<ServerId>, r: RingState, x: ServerId)
    requires Distinct(l, ids) && members <= ids && x in ids && l.replicas > 0
    requires IsRing(l, members, r)
    ensures Add(l, r, x).1 <==> x !in members
    ensures IsRing(l, members + {x}, Add(l, r, x).0)
    ensures Remove(l, r, x).1 <==> x in members
    ensures IsRing(l, members - {x}, Remove(l, r, x).0)
  {
    RepeatsChangeNothing(l, members, r, x);
    if x in members {
      RemoveIsSound(l, members, r, x);
      assert members + {x} == members;
    } else {
      DistinctIsFresh(l, ids, members, x);
      AddIsSoundIff(l, members, r, x);
      assert members - {x} == members;
    }
  }

  /** Adding a newcomer and removing it again restores the ring exactly. */
  lemma AddThenRemove(l: Layout, members: set<ServerId>, r: RingState, x: ServerId)
    requires IsRing(l, members, r) && x !in members && l.replicas > 0
    requires FreshPoints(l, members, x)
    ensures Remove(l, Add(l, r, x).0, x) == (r, true)
  {
    AddIsSoundIff(l, members, r, x);
    RemoveIsSound(l, members + {x}, Add(l, r, x).0, x);
    assert members + {x} - {x} == members;
    Canonical(l, members, r, Remove(l, Add(l, r, x).0, x).0);
  }

  // ---------- histories ----------

  datatype Op = Join(id: ServerId) | Drop(id: ServerId)

  function Replay(l: Layout, ops: seq<Op>): RingState {
    if ops == [] then EMPTY
    else
      var before := Replay(l, ops[..|ops| - 1]);
      match ops[|ops| - 1]
      case Join(x) => Add(l, before, x).0
      case Drop(x) => Remove(l, before, x).0
  }

  function Survivors(ops: seq<Op>): set<ServerId> {
    if ops == [] then {}
    else
      var before := Survivors(ops[..|ops| - 1]);
      match ops[|ops| - 1]
      case Join(x) => before + {x}
      case Drop(x) => before - {x}
  }

  /** After any history of additions and removals the ring is the ring of the surviving members. */
  lemma {:induction false} HistoryIsRing(l: Layout, ids: set<ServerId>, ops: seq<Op>)
    requires Distinct(l, ids) && l.replicas > 0
    requires forall op | op in ops :: op.id in ids
    ensures Survivors(ops) <= ids && IsRing(l, Survivors(ops), Replay(l, ops))
  {
    if ops == [] {
      EmptyIsRing(l);
    } else {
      var front := ops[..|ops| - 1];
      assert forall op | op in front :: op in ops;
      HistoryIsRing(l, ids, front);
      assert ops[|ops| - 1] in ops;
      RingStep(l, ids, Survivors(front), Replay(l, front), ops[|ops| - 1].id);
    }
  }

  /** Two histories that leave the same members leave the same ring. */
  lemma HistoriesAgree(l: Layout, ids: set<ServerId>, ops: seq<Op>, ops': seq<Op>)
    requires Distinct(l, ids) && l.replicas > 0
    requires forall op | op in ops + ops' :: op.id in ids
    ensures Replay(l, ops) == Replay(l, ops') <==> Survivors(ops) == Survivors(ops')
  {
    assert forall op | op in ops :: op in ops + ops';
    assert forall op | op in ops' :: op in ops + ops';
    HistoryIsRing(l, ids, ops);
    HistoryIsRing(l, ids, ops');
    MembersOfRing(l, Survivors(ops), Replay(l, ops));
    MembersOfRing(l, Survivors(ops'), Replay(l, ops'));
    if Survivors(ops) == Survivors(ops') {
      Canonical(l, Survivors(ops), Replay(l, ops), Replay(l, ops'));
    }
  }

  // ---------- owners ----------

  /** The least clockwise distance from `k` to one of the first `n` points of `m`. */
  function Closest(l: Layout, m: ServerId, k: Point, n: nat): nat
    requires n > 0
  {
    var d := Clockwise(k, l.PointOf(m, n - 1));
    if n == 1 || d < Closest(l, m, k, n - 1) then d else Closest(l, m, k, n - 1)
  }

  /** How far clockwise the member `m` is from the hash of `key`. */
  function Distance(l: Layout, m: ServerId, key: string): nat
    requires l.replicas > 0
  {
    Closest(l, m, l.hash(key), l.replicas)
  }

  /** The member nearest clockwise to `key`. */
  ghost predicate IsOwner(l: Layout, members: set<ServerId>, key: string, m: ServerId)
    requires l.replicas > 0
  {
    m in members && forall x | x in members :: Distance(l, m, key) <= Distance(l, x, key)
  }

  lemma ClosestStep(l: Layout, m: ServerId, k: Point, n: nat)
    requires n > 1
    ensures var last := Clockwise(k, l.PointOf(m, n - 1));
            && Closest(l, m, k, n) in {last, Closest(l, m, k, n - 1)}
            && Closest(l, m, k, n) <= last && Closest(l, m, k, n) <= Closest(l, m, k, n - 1)
  {
  }

  lemma {:induction false} ClosestIsMinimum(l: Layout, m: ServerId, k: Point, n: nat)
    requires n > 0
    ensures exists i | 0 <= i < n :: Closest(l, m, k, n) == Clockwise(k, l.PointOf(m, i))
    ensures forall i | 0 <= i < n :: Closest(l, m, k, n) <= Clockwise(k, l.PointOf(m, i))
  {
    if n == 1 {
      assert Closest(l, m, k, n) == Clockwise(k, l.PointOf(m, 0));
    } else {
      ClosestIsMinimum(l, m, k, n - 1);
      ClosestStep(l, m, k, n);
    }
  }

  /** On a collision-free layout no two servers are equally far from a key. */
  lemma DistanceInjective(l: Layout, ids: set<ServerId>, a: ServerId, b: ServerId, key: string)
    requires Distinct(l, ids) && a in ids && b in ids && l.replicas > 0
    requires Distance(l, a, key) == Distance(l, b, key)
    ensures a == b
  {
    var k := l.hash(key);
    ClosestIsMinimum(l, a, k, l.replicas);
    ClosestIsMinimum(l, b, k, l.replicas);
    var i :| 0 <= i < l.replicas && Distance(l, a, key) == Clockwise(k, l.PointOf(a, i));
    var j :| 0 <= j < l.replicas && Distance(l, b, key) == Clockwise(k, l.PointOf(b, j));
    assert l.PointOf(a, i) == l.PointOf(b, j);
  }

  /** What `Get` answers on the ring of `members` is the member nearest clockwise to the key. */
  lemma AnswerIsOwner(l: Layout, members: set<ServerId>, r: RingState, key: string, owner: ServerId)
    requires IsRing(l, members, r) && members != {} && l.replicas > 0
    requires Answers(l, r, key, owner)
    ensures IsOwner(l, members, key, owner)
  {
    var k := l.hash(key);
    var some :| some in members;
    assert Owns(l, members, l.PointOf(some, 0), some);
    assert l.PointOf(some, 0) in r.nodes;
    var p :| Nearest(r.nodes, k, p) && owner == Lookup(r.registry, p);
    assert Owns(l, members, p, owner);
    var i :| 0 <= i < l.replicas && l.PointOf(owner, i) == p;
    ClosestIsMinimum(l, owner, k, l.replicas);
    forall x | x in members ensures Distance(l, owner, key) <= Distance(l, x, key) {
      ClosestIsMinimum(l, x, k, l.replicas);
      var j :| 0 <= j < l.replicas && Distance(l, x, key) == Clockwise(k, l.PointOf(x, j));
      assert Owns(l, members, l.PointOf(x, j), x);
    }
  }

  lemma OwnerUnique(l: Layout, ids: set<ServerId>, members: set<ServerId>, key: string, a: ServerId, b: ServerId)
    requires Distinct(l, ids) && members <= ids && l.replicas > 0
    requires IsOwner(l, members, key, a) && IsOwner(l, members, key, b)
    ensures a == b
  {
    DistanceInjective(l, ids, a, b, key);
  }

  /** Minimal disruption: when `x` joins, a key keeps its owner or moves to `x`; when `x` leaves,
      only the keys of `x` move. */
  lemma MinimalDisruption(l: Layout, ids: set<ServerId>, members: set<ServerId>, r: RingState, x: ServerId,
                          key: string, before: ServerId, joined: ServerId, left: ServerId)
    requires Distinct(l, ids) && members <= ids && x in ids && l.replicas > 0
    requires IsRing(l, members, r) && members - {x} != {}
    requires Answers(l, r, key, before)
    requires Answers(l, Add(l, r, x).0, key, joined)
    requires Answers(l, Remove(l, r, x).0, key, left)
    ensures joined == before || joined == x
    ensures before != x ==> left == before
  {
    assert IsOwner(l, members, key, before) by {
      AnswerIsOwner(l, members, r, key, before);
    }
    assert IsOwner(l, members + {x}, key, joined) by {
      RingStep(l, ids, members, r, x);
      AnswerIsOwner(l, members + {x}, Add(l, r, x).0, key, joined);
    }
    assert IsOwner(l, members - {x}, key, left) by {
      RingStep(l, ids, members, r, x);
      AnswerIsOwner(l, members - {x}, Remove(l, r, x).0, key, left);
    }
    if joined != x {
      OwnerUnique(l, ids, members, key, before, joined);
    }
    if before != x {
      OwnerUnique(l, ids, members - {x}, key, before, left);
    }
  }
}
