/**
 The token bucket: `RateLimiter.Allow` of legacy/challenge-7/chat.go, and of
 internal/middleware/rateLimiter.go, which is the same computation on another clock. One caller at a
 time, as one `ReadPump` per client makes sure, so every compare-and-swap succeeds at once.
 */
module TokenBucket {
  import opened Numbers

  const INT32_LIMIT := 0x8000_0000

  /** A Go conversion to int32: `x` modulo 2^32, between -2^31 and 2^31 - 1. */
  function Int32(x: int): int
    decreases if x < 0 then -x else x + 1
  {
    if x >= INT32_LIMIT then Int32(x - 0x1_0000_0000)
    else if x < -INT32_LIMIT then Int32(x + 0x1_0000_0000)
    else x
  }

  /** How many whole `r` fit into `x`: x / r for natural x, without the division. */
  function Ticks(x: int, r: int): nat
    requires r > 0
    decreases x
  {
    if x < r then 0 else 1 + Ticks(x - r, r)
  }

  /** Go's integer division, which truncates toward zero. */
  function Quotient(a: int, b: int): int
    requires b > 0
  {
    if a >= 0 then Ticks(a, b) else 0 - Ticks(-a, b) as int
  }

  /** `rate` is the time one token takes; `lastTick` and `rate` are in the units of the clock. */
  datatype Bucket = Bucket(tokens: int, lastTick: int, burst: int, rate: int)

  /** The fields are int32 values; an overflow can leave the balance negative. */
  ghost predicate Valid(b: Bucket) {
    -INT32_LIMIT <= b.tokens <= b.burst && 0 <= b.burst < INT32_LIMIT && b.rate > 0
  }

  ghost predicate Solvent(b: Bucket) {
    Valid(b) && b.tokens >= 0
  }

  function Generated(b: Bucket, now: int): int
    requires b.rate > 0
  {
    Int32(Quotient(now - b.lastTick, b.rate))
  }

  /** The refill that a call at time `now` starts with. */
  function Refilled(b: Bucket, now: int): Bucket
    requires b.rate > 0
  {
    if Generated(b, now) <= 0 then b
    else
      var newBalance := Int32(b.tokens + Generated(b, now));
      b.(tokens := if newBalance >= b.burst then b.burst else newBalance, lastTick := now)
  }

  function Allow(b: Bucket, now: int): (Bucket, bool)
    requires b.rate > 0
  {
    var r := Refilled(b, now);
    if r.tokens <= 0 then (r, false) else (r.(tokens := r.tokens - 1), true)
  }

  // ---------- runs of calls ----------

  function After(b: Bucket, calls: seq<int>): (r: Bucket)
    requires b.rate > 0
    ensures r.rate == b.rate && r.burst == b.burst
    decreases |calls|
  {
    if calls == [] then b else After(Allow(b, calls[0]).0, calls[1..])
  }

  function Admitted(b: Bucket, calls: seq<int>): nat
    requires b.rate > 0
    decreases |calls|
  {
    if calls == [] then 0
    else (if Allow(b, calls[0]).1 then 1 else 0) + Admitted(Allow(b, calls[0]).0, calls[1..])
  }

  /** The tokens earned from the last tick until `now`. */
  function Earns(b: Bucket, now: int): nat
    requires b.rate > 0
  {
    Ticks(now - b.lastTick, b.rate)
  }

  /** A clock that does not run backwards between `from` and `to`. */
  ghost predicate Clock(calls: seq<int>, from: int, to: int)
    decreases |calls|
  {
    if calls == [] then from <= to else from <= calls[0] && Clock(calls[1..], calls[0], to)
  }

  /** A refill at time `now` fits an int32. */
  ghost predicate Fits(b: Bucket, now: int)
    requires b.rate > 0
  {
    b.lastTick <= now && b.tokens + Earns(b, now) < INT32_LIMIT
  }

  /** ... and so does that of every call. */
  ghost predicate Calm(b: Bucket, calls: seq<int>)
    decreases |calls|
  {
    Solvent(b) && (calls != [] ==> Fits(b, calls[0]) && Calm(Allow(b, calls[0]).0, calls[1..]))
  }

  lemma {:induction false} TicksRemainder(x: nat, r: int)
    requires r > 0
    ensures r * Ticks(x, r) <= x < r * Ticks(x, r) + r
    decreases x
  {
    if x >= r {
      TicksRemainder(x - r, r);
      assert r * (1 + Ticks(x - r, r)) == r + r * Ticks(x - r, r);
    }
  }

  lemma TicksIsDivision(x: nat, r: int)
    requires r > 0
    ensures Ticks(x, r) == x / r
  {
    TicksRemainder(x, r);
    QuotientIs(x, r, Ticks(x, r));
  }

  lemma QuotientIs(x: int, r: int, q: int)
    requires r > 0 && r * q <= x < r * q + r
    ensures x / r == q
  {
    var d := x / r;
    assert x == r * d + x % r;
    if d < q {
      ProductGrows(r, d + 1, q);
    } else if q < d {
      ProductGrows(r, q + 1, d);
    }
  }

  lemma ProductGrows(r: int, a: int, b: int)
    requires r > 0 && a <= b
    ensures r * a <= r * b
  {
  }

  lemma {:induction false} TicksAdd(x: nat, y: nat, r: int)
    requires r > 0
    ensures Ticks(x, r) + Ticks(y, r) <= Ticks(x + y, r) <= Ticks(x, r) + Ticks(y, r) + 1
    decreases x + y
  {
    if x >= r {
      TicksAdd(x - r, y, r);
    } else if y >= r {
      TicksAdd(x, y - r, r);
    }
  }

  lemma {:induction false} TicksGrow(x: int, y: int, r: int)
    requires r > 0 && x <= y
    ensures Ticks(x, r) <= Ticks(y, r)
    decreases x
  {
    if x >= r {
      TicksGrow(x - r, y - r, r);
    }
  }

  lemma {:induction false} TicksOfMultiple(x: int, r: int, k: nat)
    requires r > 0 && k * r <= x
    ensures k <= Ticks(x, r)
    decreases k
  {
    if k > 0 {
      assert k * r == (k - 1) * r + r;
      assert (k - 1) * r >= 0;
      TicksOfMultiple(x - r, r, k - 1);
    }
  }

  lemma {:induction false} ClockEnds(calls: seq<int>, from: int, to: int)
    requires Clock(calls, from, to)
    ensures from <= to && forall c | c in calls :: from <= c <= to
    decreases |calls|
  {
    if calls != [] {
      ClockEnds(calls[1..], calls[0], to);
      assert calls == [calls[0]] + calls[1..];
    }
  }

  lemma {:induction false} ClockStartsEarlier(calls: seq<int>, from: int, earlier: int, to: int)
    requires Clock(calls, from, to) && earlier <= from
    ensures Clock(calls, earlier, to)
  {
  }

  /** What a conversion to int32 makes of a natural number. */
  /** A conversion keeps the number modulo 2^32, in the range of an int32. */
  lemma {:induction false} Int32Is(x: int)
    ensures -0x8000_0000 <= Int32(x) < 0x8000_0000 && (x - Int32(x)) % 0x1_0000_0000 == 0
    decreases if x < 0 then -x else x + 1
  {
    if x >= 0x8000_0000 {
      Int32Is(x - 0x1_0000_0000);
    } else if x < -0x8000_0000 {
      Int32Is(x + 0x1_0000_0000);
    }
  }

  lemma QuotientTruncates(a: int, b: int)
    requires b > 0
    ensures Quotient(a, b) == if a >= 0 then a / b else 0 - (0 - a) / b
  {
    TicksIsDivision(if a >= 0 then a else -a, b);
  }

  lemma {:induction false} Int32Wraps(n: nat)
    ensures var w := n % 0x1_0000_0000; Int32(n) == if w < INT32_LIMIT then w else w - 0x1_0000_0000
    decreases n
  {
    if n >= 0x1_0000_0000 {
      Int32Wraps(n - 0x1_0000_0000);
    }
  }

  // ---------- no more than this, whatever overflows ----------

  function Balance(b: Bucket): nat {
    if b.tokens < 0 then 0 else b.tokens
  }

  /** No conversion earns a token that the clock has not, and no sum leaves more than it should. */
  lemma RefillEarns(b: Bucket, now: int)
    requires Valid(b) && b.lastTick <= now
    ensures var g, r := Generated(b, now), Refilled(b, now);
            && g <= Earns(b, now) && Valid(r) && r.burst == b.burst && r.rate == b.rate
            && (g <= 0 ==> r == b)
            && (g > 0 ==> r.lastTick == now && Balance(r) <= Balance(b) + g)
  {
    var n, g := Earns(b, now), Generated(b, now);
    Int32Wraps(n);
    assert -INT32_LIMIT <= g < INT32_LIMIT;
    if g > 0 {
      var sum := b.tokens + g;
      assert Int32(sum) == if sum < INT32_LIMIT then sum else sum - 0x1_0000_0000;
    }
  }

  /** What one call admits and leaves is no more than what was there and what it has converted. */
  lemma CallSpends(b: Bucket, now: int)
    requires Valid(b) && b.lastTick <= now
    ensures var (x, ok) := Allow(b, now);
            var spent, g := (if ok then 1 else 0) + Balance(x), Generated(b, now);
            && Valid(x) && x.burst == b.burst && x.rate == b.rate && spent <= b.burst && g <= Earns(b, now)
            && (g <= 0 ==> x.lastTick == b.lastTick && spent <= Balance(b))
            && (g > 0 ==> x.lastTick == now && spent <= Balance(b) + g)
  {
    RefillEarns(b, now);
  }

  /** The ledger: admissions and what is left never exceed what was there and what the clock has earned. */
  lemma {:induction false} Ledger(b: Bucket, calls: seq<int>, from: int, to: int)
    requires Valid(b) && b.lastTick <= from && Clock(calls, from, to)
    ensures var a := After(b, calls);
            && Valid(a) && b.lastTick <= a.lastTick <= to
            && Admitted(b, calls) + Balance(a) <= Balance(b) + Earns(b, a.lastTick)
    decreases |calls|
  {
    ClockEnds(calls, from, to);
    if calls != [] {
      CallSpends(b, calls[0]);
      var x := Allow(b, calls[0]).0;
      Ledger(x, calls[1..], calls[0], to);
      var a := After(x, calls[1..]);
      TicksAdd(x.lastTick - b.lastTick, a.lastTick - x.lastTick, b.rate);
    }
  }

  /** By time `to` no more has been admitted than was there and has been earned. */
  lemma TotalOf(b: Bucket, calls: seq<int>, from: int, to: int)
    requires Valid(b) && b.lastTick <= from && Clock(calls, from, to)
    ensures Admitted(b, calls) <= Balance(b) + Earns(b, to)
  {
    Ledger(b, calls, from, to);
    TicksGrow(After(b, calls).lastTick - b.lastTick, to - b.lastTick, b.rate);
  }

  /** Since creation no more than the burst and one per elapsed `rate` are admitted. */
  lemma TotalBound(burst: int, rate: int, created: int, calls: seq<int>, to: int)
    requires rate > 0 && 0 <= burst < INT32_LIMIT && Clock(calls, created, to)
    ensures Admitted(Bucket(burst, created, burst, rate), calls) <= burst + Ticks(to - created, rate)
  {
    TotalOf(Bucket(burst, created, burst, rate), calls, created, to);
  }

  lemma {:induction false} Consecutive(b: Bucket, pre: seq<int>, calls: seq<int>)
    requires b.rate > 0
    ensures After(b, pre + calls) == After(After(b, pre), calls)
    ensures Admitted(b, pre + calls) == Admitted(b, pre) + Admitted(After(b, pre), calls)
    decreases |pre|
  {
    if pre == [] {
      assert pre + calls == calls;
    } else {
      assert (pre + calls)[1..] == pre[1..] + calls;
      Consecutive(Allow(b, pre[0]).0, pre[1..], calls);
    }
  }

  /** Of 32 bits that say nothing is earned, and later `w`, at least `w` more has been earned. */
  lemma WrapsGrow(n: nat, n': nat)
    requires n <= n' && Int32(n) <= 0
    ensures Int32(n') <= n' - n
  {
    Int32Wraps(n);
    Int32Wraps(n');
    var w, w' := n % 0x1_0000_0000, n' % 0x1_0000_0000;
    var q, q' := n / 0x1_0000_0000, n' / 0x1_0000_0000;
    assert n == 0x1_0000_0000 * q + w && n' == 0x1_0000_0000 * q' + w';
    assert q <= q';
  }

  lemma EarnedSince(a: Bucket, since: int, now: int)
    requires a.rate > 0 && a.lastTick <= since <= now && Generated(a, since) <= 0
    ensures Generated(a, now) <= Ticks(now - since, a.rate) + 1
  {
    TicksAdd(since - a.lastTick, now - since, a.rate);
    TicksGrow(since - a.lastTick, now - a.lastTick, a.rate);
    WrapsGrow(Earns(a, since), Earns(a, now));
  }

  /** From a time on at which a call finds no refill. */
  lemma {:induction false} SinceNoRefill(a: Bucket, calls: seq<int>, since: int, from: int, to: int)
    requires Valid(a) && a.lastTick <= since <= from && Clock(calls, from, to) && Generated(a, since) <= 0
    ensures Admitted(a, calls) <= Balance(a) + 1 + Ticks(to - since, a.rate)
    decreases |calls|
  {
    ClockEnds(calls, from, to);
    if calls != [] {
      var c, x, rest := calls[0], Allow(a, calls[0]).0, calls[1..];
      CallSpends(a, c);
      if Generated(a, c) <= 0 {
        SinceNoRefill(x, rest, since, c, to);
      } else {
        EarnedSince(a, since, c);
        ClockEnds(rest, c, to);
        TotalOf(x, rest, c, to);
        TicksAdd(c - since, to - c, a.rate);
      }
    }
  }

  /** Admitted from the first of these calls on. */
  lemma FromCall(a: Bucket, calls: seq<int>, to: int)
    requires Valid(a) && calls != [] && a.lastTick <= calls[0] && Clock(calls[1..], calls[0], to)
    ensures Admitted(a, calls) <= a.burst + 1 + Ticks(to - calls[0], a.rate)
  {
    var c := calls[0];
    if Generated(a, c) <= 0 {
      SinceNoRefill(a, calls, c, c, to);
    } else {
      CallSpends(a, c);
      TotalOf(Allow(a, c).0, calls[1..], c, to);
    }
  }

  lemma FromFirstCall(a: Bucket, calls: seq<int>, from: int, to: int)
    requires Valid(a) && a.lastTick <= from && Clock(calls, from, to)
    ensures Admitted(a, calls) <= a.burst + 1 + Ticks(to - from, a.rate)
  {
    if calls != [] {
      ClockEnds(calls[1..], calls[0], to);
      FromCall(a, calls, to);
      TicksGrow(to - calls[0], to - from, a.rate);
    }
  }

  /** In any window no more than the burst, one per `rate` of its length, and one more are admitted. */
  lemma WindowBound(b: Bucket, pre: seq<int>, t1: int, window: seq<int>, t2: int)
    requires Valid(b) && Clock(pre, b.lastTick, t1) && Clock(window, t1, t2)
    ensures Admitted(b, pre + window) - Admitted(b, pre) <= b.burst + 1 + Ticks(t2 - t1, b.rate)
  {
    Consecutive(b, pre, window);
    Ledger(b, pre, b.lastTick, t1);
    FromFirstCall(After(b, pre), window, t1, t2);
  }

  // ---------- no less than this, while nothing overflows ----------

  /** A refill that fits adds what the clock has earned, up to the burst. */
  lemma CalmRefill(b: Bucket, now: int)
    requires Solvent(b) && Fits(b, now)
    ensures var n, r := Earns(b, now), Refilled(b, now);
            && Generated(b, now) == n && Solvent(r) && r.burst == b.burst && r.rate == b.rate
            && r.tokens == (if b.tokens + n >= b.burst then b.burst else b.tokens + n)
            && r.lastTick == (if n > 0 then now else b.lastTick)
  {
    assert Int32(Earns(b, now)) == Earns(b, now);
    assert Int32(b.tokens + Earns(b, now)) == b.tokens + Earns(b, now);
  }

  /** One call admits exactly if a token is there or has been earned, and leaves the rest. */
  lemma OneCall(b: Bucket, now: int)
    requires Solvent(b) && Fits(b, now)
    ensures var (x, ok) := Allow(b, now);
            && Solvent(x) && x.burst == b.burst && x.rate == b.rate
            && (ok <==> b.tokens + Earns(b, now) > 0 && b.burst > 0)
            && x.tokens + (if ok then 1 else 0) == Min(b.tokens + Earns(b, now), b.burst)
            && x.lastTick == (if Earns(b, now) > 0 then now else b.lastTick)
  {
    CalmRefill(b, now);
  }

  /** While there are tokens for all of them, calls are admitted, whenever they come. */
  lemma {:induction false} TokensSuffice(b: Bucket, calls: seq<int>)
    requires Calm(b, calls) && |calls| <= b.tokens
    ensures Admitted(b, calls) == |calls|
    decreases |calls|
  {
    if calls != [] {
      OneCall(b, calls[0]);
      TokensSuffice(Allow(b, calls[0]).0, calls[1..]);
    }
  }

  /** After an idle time of `k` rates the next min(k, burst) calls are all admitted. */
  lemma IdleEarnsBurst(b: Bucket, k: nat, calls: seq<int>)
    requires Calm(b, calls) && |calls| <= Min(k, b.burst)
    requires calls != [] ==> b.lastTick + k * b.rate <= calls[0]
    ensures Admitted(b, calls) == |calls|
  {
    if calls != [] {
      TicksOfMultiple(calls[0] - b.lastTick, b.rate, k);
      OneCall(b, calls[0]);
      TokensSuffice(Allow(b, calls[0]).0, calls[1..]);
    }
  }

  function Repeat(t: int, n: nat): (s: seq<int>)
    ensures |s| == n && forall i | 0 <= i < n :: s[i] == t
  {
    if n == 0 then [] else [t] + Repeat(t, n - 1)
  }

  /** The extra one of `WindowBound` does occur, for every burst and every rate above one unit: a full
      bucket is emptied just before it earns the next token. */
  lemma WindowBoundAttained(burst: int, rate: int)
    requires 1 <= burst < INT32_LIMIT && rate >= 2
    ensures var b := Bucket(burst, 0, burst, rate);
            var window := Repeat(rate - 1, burst) + [rate];
            && Valid(b) && Clock([], b.lastTick, rate - 1) && Clock(window, rate - 1, rate)
            && Admitted(b, window) == burst + 1 + Ticks(rate - (rate - 1), rate)
  {
    var b, emptying := Bucket(burst, 0, burst, rate), Repeat(rate - 1, burst);
    NoRefillWithin(b, emptying);
    Consecutive(b, emptying, [rate]);
    assert After(b, emptying) == Bucket(0, 0, burst, rate);
    OneTick(rate);
    LastCall(burst, rate);
    RepeatClock(rate - 1, burst, rate);
  }

  lemma OneTick(rate: int)
    requires rate >= 2
    ensures Ticks(rate, rate) == 1 && Ticks(1, rate) == 0
  {
    assert Ticks(0, rate) == 0;
  }

  lemma LastCall(burst: int, rate: int)
    requires 1 <= burst < INT32_LIMIT && rate >= 2
    ensures Admitted(Bucket(0, 0, burst, rate), [rate]) == 1
  {
    OneTick(rate);
    OneCall(Bucket(0, 0, burst, rate), rate);
  }

  lemma {:induction false} RepeatClock(t: int, n: nat, to: int)
    requires t <= to
    ensures Clock(Repeat(t, n) + [to], t, to)
  {
    if n > 0 {
      assert (Repeat(t, n) + [to])[1..] == Repeat(t, n - 1) + [to];
      RepeatClock(t, n - 1, to);
    }
  }

  /** Calls within one `rate` of the last tick find no refill. */
  lemma {:induction false} NoRefillWithin(b: Bucket, calls: seq<int>)
    requires Solvent(b) && forall i | 0 <= i < |calls| :: b.lastTick <= calls[i] < b.lastTick + b.rate
    ensures After(b, calls) == b.(tokens := b.tokens - Min(|calls|, b.tokens))
    ensures Admitted(b, calls) == Min(|calls|, b.tokens)
    decreases |calls|
  {
    if calls != [] {
      assert Earns(b, calls[0]) == 0;
      OneCall(b, calls[0]);
      assert b.lastTick <= calls[0];
      forall i | 0 <= i < |calls[1..]| ensures b.lastTick <= calls[1..][i] < b.lastTick + b.rate {
        assert calls[1..][i] == calls[i + 1];
      }
      NoRefillWithin(Allow(b, calls[0]).0, calls[1..]);
    }
  }

  /** An empty bucket admits a call exactly when a whole `rate` has passed since its last tick. */
  lemma EmptyAdmitsIff(b: Bucket, now: int)
    requires Solvent(b) && b.tokens == 0 && b.burst > 0 && Fits(b, now)
    ensures Allow(b, now).1 <==> now - b.lastTick >= b.rate
  {
    OneCall(b, now);
  }

  /** The present limiter counts seconds and takes 500 * time.Millisecond, which is 500,000,000
      nanoseconds, for its rate. In the fifteen years it takes to pass as many seconds a connection is
      admitted its five initial messages and no more, however slowly it sends. */
  lemma PresentLimiterNeverRefills(created: int, calls: seq<int>)
    requires forall i | 0 <= i < |calls| :: created <= calls[i] < created + 500_000_000
    ensures Admitted(Bucket(5, created, 5, 500_000_000), calls) == Min(|calls|, 5)
  {
    NoRefillWithin(Bucket(5, created, 5, 500_000_000), calls);
  }

  /** A refill after a very long idle time. With `w`, what 32 bits keep of the `n` tokens earned, it leaves
      the right balance exactly if `w` is a refill, its sum fits an int32, and nothing was cut off or enough
      is left to fill the bucket; or if `w` is none and none was due. A sum that does not fit leaves a
      negative balance, and the call is refused. */
  lemma RefillFitsIff(b: Bucket, now: int)
    requires Solvent(b) && b.lastTick <= now
    ensures var n := Ticks(now - b.lastTick, b.rate);
            var w := n % 0x1_0000_0000;
            && (Refilled(b, now).tokens == Min(b.burst, b.tokens + n) <==>
                  if 0 < w < INT32_LIMIT then b.tokens + w < INT32_LIMIT && (w == n || b.tokens + w >= b.burst)
                  else n == 0 || b.tokens == b.burst)
            && (0 < w < INT32_LIMIT <= b.tokens + w ==> !Allow(b, now).1)
  {
    var n := Ticks(now - b.lastTick, b.rate);
    var w := n % 0x1_0000_0000;
    Int32Wraps(n);
    assert w <= n;
    if 0 < w < INT32_LIMIT {
      var sum := b.tokens + w;
      assert Int32(sum) == if sum < INT32_LIMIT then sum else sum - 0x1_0000_0000;
    }
  }
}
