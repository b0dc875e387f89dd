/**
 The ring's hash function: `crc32.ChecksumIEEE` (internal/hashing/consistent.go), which is the CRC-32 of
 section 8 of RFC 1952, fed one bit at a time. Words are sequences of bits, lowest bit first. A Go
 string is a sequence of bytes; here each char stands for one byte.
 */
module Crc32 {
  import opened RingSpec

  type Word = w: seq<bool> | |w| == 32 witness BitsOf(0, 32)

  /** The reflected polynomial 0xEDB88320, lowest bit first. */
  const POLYNOMIAL: Word := [
    false, false, false, false, false, true, false, false,
    true, true, false, false, false, false, false, true,
    false, false, false, true, true, true, false, true,
    true, false, true, true, false, true, true, true]

  const ONES: Word := BitsOf(0xFFFF_FFFF, 32)

  /** Shift one input bit through the register. */
  function Feed(r: Word, bit: bool): Word {
    seq(32, k requires 0 <= k < 32 => (k < 31 && r[k + 1]) != (r[0] != bit && POLYNOMIAL[k]))
  }

  function FeedAll(r: Word, bits: seq<bool>): Word
    decreases |bits|
  {
    if bits == [] then r else FeedAll(Feed(r, bits[0]), bits[1..])
  }

  /** The `n` low bits of `v`, lowest first. */
  function BitsOf(v: nat, n: nat): (bits: seq<bool>)
    ensures |bits| == n
  {
    if n == 0 then [] else [v % 2 == 1] + BitsOf(v / 2, n - 1)
  }

  function ValueOf(bits: seq<bool>): nat {
    if bits == [] then 0 else (if bits[0] then 1 else 0) + 2 * ValueOf(bits[1..])
  }

  function Stream(s: string): (bits: seq<bool>)
    ensures |bits| == 8 * |s|
  {
    if s == [] then [] else BitsOf(s[0] as int, 8) + Stream(s[1..])
  }

  function Register(s: string): Word {
    FeedAll(ONES, Stream(s))
  }

  function Checksum(s: string): Point {
    WordFits(Complement(Register(s)));
    ValueOf(Complement(Register(s)))
  }

  function Complement(w: Word): Word {
    seq(32, k requires 0 <= k < 32 => !w[k])
  }

  /** NewConsistentHashing(50). */
  const LAYOUT: Layout := Layout(Checksum, 50)

  function Power(n: nat): nat {
    if n == 0 then 1 else 2 * Power(n - 1)
  }

  lemma {:induction false} ValueFits(bits: seq<bool>)
    ensures ValueOf(bits) < Power(|bits|)
  {
    if bits != [] {
      ValueFits(bits[1..]);
    }
  }

  lemma {:induction false} PowerSum(a: nat, b: nat)
    ensures Power(a + b) == Power(a) * Power(b)
  {
    if a > 0 {
      PowerSum(a - 1, b);
      assert a + b - 1 == a - 1 + b;
      assert Power(a + b) == 2 * Power(a - 1 + b);
    }
  }

  lemma PowerSquared(n: nat)
    ensures Power(2 * n) == Power(n) * Power(n)
  {
    PowerSum(n, n);
  }

  lemma WordFits(w: Word)
    ensures ValueOf(w) < 0x1_0000_0000
  {
    ValueFits(w);
    assert Power(4) == 16;
    PowerSquared(4);
    PowerSquared(8);
    PowerSquared(16);
  }

  lemma {:induction false} ValueInjective(u: seq<bool>, v: seq<bool>)
    requires |u| == |v| && ValueOf(u) == ValueOf(v)
    ensures u == v
  {
    if u != [] {
      ValueInjective(u[1..], v[1..]);
      assert u == [u[0]] + u[1..] && v == [v[0]] + v[1..];
    }
  }

  lemma {:induction false} BitsInjective(v: nat, w: nat, n: nat)
    requires BitsOf(v, n) == BitsOf(w, n) && v < Power(n) && w < Power(n)
    ensures v == w
  {
    if n > 0 {
      assert BitsOf(v, n)[0] == BitsOf(w, n)[0];
      assert BitsOf(v, n)[1..] == BitsOf(v / 2, n - 1) && BitsOf(w, n)[1..] == BitsOf(w / 2, n - 1);
      BitsInjective(v / 2, w / 2, n - 1);
    }
  }

  /** The generator polynomial: x^32 + x^26 + x^23 + x^22 + x^16 + x^12 + x^11 + x^10 + x^8 + x^7 + x^5 + x^4
      + x^2 + x + 1, whose coefficient of x^n is bit 31 - n of the reflected word. */
  lemma GeneratorTerms(n: nat)
    requires n < 32
    ensures POLYNOMIAL[31 - n] <==> n in {0, 1, 2, 4, 5, 7, 8, 10, 11, 12, 16, 22, 23, 26}
  {
  }

  /** If up to 32 input bits lead two registers to one result, input and register agree, added bit by
      bit, on what was fed, and the registers agree beyond. */
  lemma {:induction false} FeedAllInjective(r: Word, u: seq<bool>, s: Word, v: seq<bool>)
    requires |u| == |v| <= 32 && FeedAll(r, u) == FeedAll(s, v)
    ensures forall k | 0 <= k < |u| :: (r[k] != u[k]) == (s[k] != v[k])
    ensures forall k | |u| <= k < 32 :: r[k] == s[k]
    decreases |u|
  {
    if u != [] {
      var r', s' := Feed(r, u[0]), Feed(s, v[0]);
      FeedAllInjective(r', u[1..], s', v[1..]);
      assert r'[31] == (r[0] != u[0]) && s'[31] == (s[0] != v[0]);
      forall k | 1 <= k < 32
        ensures k < |u| ==> (r[k] != u[k]) == (s[k] != v[k])
        ensures k >= |u| ==> r[k] == s[k]
      {
        assert r'[k - 1] == (r[k] != (r'[31] && POLYNOMIAL[k - 1]));
        assert s'[k - 1] == (s[k] != (s'[31] && POLYNOMIAL[k - 1]));
        if k < |u| {
          assert u[1..][k - 1] == u[k] && v[1..][k - 1] == v[k];
        }
      }
    }
  }

  lemma {:induction false} FeedAllConcat(r: Word, u: seq<bool>, v: seq<bool>)
    ensures FeedAll(r, u + v) == FeedAll(FeedAll(r, u), v)
    decreases |u|
  {
    if u == [] {
      assert u + v == v;
    } else {
      assert (u + v)[1..] == u[1..] + v;
      FeedAllConcat(Feed(r, u[0]), u[1..], v);
    }
  }

  lemma {:induction false} StreamConcat(s: string, t: string)
    ensures Stream(s + t) == Stream(s) + Stream(t)
  {
    if s == [] {
      assert s + t == t;
    } else {
      assert (s + t)[1..] == s[1..] + t;
      StreamConcat(s[1..], t);
    }
  }

  ghost predicate AreBytes(s: string) {
    forall n | 0 <= n < |s| :: s[n] as int < 256
  }

  lemma {:induction false} StreamInjective(s: string, t: string)
    requires |s| == |t| && AreBytes(s) && AreBytes(t) && Stream(s) == Stream(t)
    ensures s == t
  {
    if s != [] {
      assert Stream(s)[..8] == BitsOf(s[0] as int, 8) && Stream(t)[..8] == BitsOf(t[0] as int, 8);
      assert Stream(s)[8..] == Stream(s[1..]) && Stream(t)[8..] == Stream(t[1..]);
      assert Power(8) == 256;
      BitsInjective(s[0] as int, t[0] as int, 8);
      StreamInjective(s[1..], t[1..]);
      assert s == [s[0]] + s[1..] && t == [t[0]] + t[1..];
    }
  }

  /** Strings of one length that differ in their last four bytes only have different checksums. */
  lemma TailDecides(p: string, u: string, v: string)
    requires |u| == |v| <= 4 && AreBytes(u) && AreBytes(v)
    requires Checksum(p + u) == Checksum(p + v)
    ensures u == v
  {
    var a, b := Register(p + u), Register(p + v);
    ValueInjective(Complement(a), Complement(b));
    assert forall k | 0 <= k < 32 :: a[k] == !Complement(a)[k] && b[k] == !Complement(b)[k];
    assert a == b;
    StreamConcat(p, u);
    StreamConcat(p, v);
    FeedAllConcat(ONES, Stream(p), Stream(u));
    FeedAllConcat(ONES, Stream(p), Stream(v));
    FeedAllInjective(Register(p), Stream(u), Register(p), Stream(v));
    assert Stream(u) == Stream(v);
    StreamInjective(u, v);
  }

  lemma DigitIsByte(d: nat)
    requires d < 10
    ensures DigitChar(d) as int < 256
  {
  }

  lemma {:induction false} DigitsAreBytes(i: nat)
    ensures AreBytes(Itoa(i))
  {
    DigitIsByte(i % 10);
    if i >= 10 {
      DigitsAreBytes(i / 10);
    }
  }

  /** Of one server's replicas, whatever its name, two whose numbers have equally many digits, up to
      four, never share a point. */
  lemma ReplicasApart(node: ServerId, i: nat, j: nat)
    requires |Itoa(i)| == |Itoa(j)| <= 4
    requires LAYOUT.PointOf(node, i) == LAYOUT.PointOf(node, j)
    ensures i == j
  {
    DigitsAreBytes(i);
    DigitsAreBytes(j);
    assert Identity(node, i) == (node + "#") + Itoa(i);
    assert Identity(node, j) == (node + "#") + Itoa(j);
    TailDecides(node + "#", Itoa(i), Itoa(j));
    ItoaInjective(i, j);
  }

  /** A server's fifty points are the checksums of its id, a '#' and the numbers from 0 in decimal. */
  lemma PointsAre(node: ServerId, i: nat)
    requires i < 50
    ensures |LAYOUT.PointsOf(node)| == 50
    ensures exists digits: string ::
              LAYOUT.PointsOf(node)[i] == Checksum(node + "#" + digits) && IsDecimal(digits, i)
  {
    PointIs(LAYOUT, node, i);
    var digits: string :| LAYOUT.PointOf(node, i) == LAYOUT.hash(node + "#" + digits) && IsDecimal(digits, i);
    assert LAYOUT.PointsOf(node)[i] == Checksum(node + "#" + digits);
  }
}
