/**
 What the ring's hash function computes: the remainder of section 8 of RFC 1952, stated over polynomials
 with coefficients in GF(2). A polynomial is the sequence of its coefficients, the highest first.
 */
module CrcRemainder {
  import opened RingSpec
  import opened Crc32

  type Polynomial = seq<bool>

  /** The generator, from x^32 down. */
  function Generator(): (g: Polynomial)
    ensures |g| == 33 && g[0]
  {
    seq(33, i requires 0 <= i < 33 => 32 - i in {32, 26, 23, 22, 16, 12, 11, 10, 8, 7, 5, 4, 2, 1, 0})
  }

  function Zeros(n: nat): (z: Polynomial)
    ensures |z| == n && forall i | 0 <= i < n :: !z[i]
  {
    if n == 0 then [] else [false] + Zeros(n - 1)
  }

  /** The sum of two polynomials of one length; in GF(2) it is the difference, too. */
  function Plus(a: Polynomial, b: Polynomial): (sum: Polynomial)
    requires |a| == |b|
    ensures |sum| == |a| && forall i | 0 <= i < |a| :: sum[i] == (a[i] != b[i])
  {
    if a == [] then [] else [a[0] != b[0]] + Plus(a[1..], b[1..])
  }

  /** The product of `q` and the generator: one shifted copy of the generator for each term of `q`. */
  function TimesGenerator(q: Polynomial): (product: Polynomial)
    ensures |product| == |q| + 32
  {
    if q == [] then Zeros(32)
    else
      var rest := [false] + TimesGenerator(q[1..]);
      if q[0] then Plus(Generator() + Zeros(|q| - 1), rest) else rest
  }

  /** `d` is `q` times the generator, plus `r`, whose degree is below 32. */
  predicate Divides(d: Polynomial, q: Polynomial, r: Polynomial) {
    |r| == 32 && |d| == |q| + 32 && d == Plus(TimesGenerator(q), Zeros(|q|) + r)
  }

  ghost predicate IsRemainder(d: Polynomial, r: Polynomial) {
    exists q: Polynomial :: Divides(d, q, r)
  }

  /** Binary digit `k` of `v`, the lowest being digit 0. */
  predicate DigitIsOne(v: nat, k: nat) {
    if k == 0 then v % 2 == 1 else DigitIsOne(v / 2, k - 1)
  }

  /** Bit `i` of a string: its bytes in order, the lowest bit of each first. */
  predicate BitAt(s: string, i: nat)
    requires i < 8 * |s|
  {
    DigitIsOne(s[i / 8] as int, i % 8)
  }

  /** The bits of the message b_0, ..., b_(n-1) as the sum of b_i x^(n-1-i), times x^32, plus
      (x^31 + ... + 1) times x^n: the coefficient of x^(n+31-i) is b_i, turned round for i < 32. */
  function Dividend(s: string): (d: Polynomial)
    ensures |d| == 8 * |s| + 32
  {
    seq(8 * |s| + 32, i requires 0 <= i < 8 * |s| + 32 => (i < 32) != (i < 8 * |s| && BitAt(s, i)))
  }

  // ---------- a remainder is unique ----------

  /** The generator's lower terms, in the place of the highest term of a polynomial of 33 + `n` terms. */
  function Lower(n: nat): (g: Polynomial)
    ensures |g| == n + 32
  {
    Generator()[1..] + Zeros(n)
  }

  /** Division by hand, one step: what is left when the highest term has been dealt with. */
  function Reduced(d: Polynomial): (rest: Polynomial)
    requires |d| > 32
    ensures |rest| == |d| - 1
  {
    if d[0] then Plus(d[1..], Lower(|d| - 33)) else d[1..]
  }

  lemma GeneratorSplits(n: nat)
    ensures Generator() + Zeros(n) == [true] + Lower(n)
  {
    assert Generator() == [true] + Generator()[1..];
  }

  lemma TimesSplits(q: Polynomial)
    requires q != []
    ensures var t := TimesGenerator(q[1..]);
            TimesGenerator(q) == [q[0]] + if q[0] then Plus(t, Lower(|q| - 1)) else t
  {
    var t := TimesGenerator(q[1..]);
    if q[0] {
      GeneratorSplits(|q| - 1);
      PlusShifted(Lower(|q| - 1), t);
    }
  }

  lemma PlusShifted(g: Polynomial, t: Polynomial)
    requires |g| == |t|
    ensures Plus([true] + g, [false] + t) == [true] + Plus(t, g)
  {
    PlusCons(true, g, false, t);
    PlusCommutes(g, t);
  }

  lemma PlusCons(x: bool, a: Polynomial, y: bool, b: Polynomial)
    requires |a| == |b|
    ensures Plus([x] + a, [y] + b) == [x != y] + Plus(a, b)
  {
  }

  lemma PlusCommutes(a: Polynomial, b: Polynomial)
    requires |a| == |b|
    ensures Plus(a, b) == Plus(b, a)
  {
  }

  lemma PlusTwice(t: Polynomial, g: Polynomial, z: Polynomial)
    requires |t| == |g| == |z|
    ensures Plus(Plus(Plus(t, g), z), g) == Plus(t, z)
  {
  }

  /** One step of the division takes the highest term off the quotient. */
  lemma DivisionStep(d: Polynomial, q: Polynomial, r: Polynomial)
    requires q != [] && Divides(d, q, r)
    ensures d[0] == q[0] && Divides(Reduced(d), q[1..], r)
  {
    var t, g, z := TimesGenerator(q[1..]), Lower(|q| - 1), Zeros(|q| - 1) + r;
    TimesSplits(q);
    assert Zeros(|q|) + r == [false] + z;
    PlusCons(q[0], if q[0] then Plus(t, g) else t, false, z);
    assert d == [q[0]] + Plus(if q[0] then Plus(t, g) else t, z);
    PlusTwice(t, g, z);
  }

  lemma {:induction false} SameQuotient(d: Polynomial, q: Polynomial, r: Polynomial, q': Polynomial, r': Polynomial)
    requires Divides(d, q, r) && Divides(d, q', r')
    ensures q == q' && r == r'
    decreases |q|
  {
    if q == [] {
      ShortRemainder(r);
      ShortRemainder(r');
    } else {
      DivisionStep(d, q, r);
      DivisionStep(d, q', r');
      SameQuotient(Reduced(d), q[1..], r, q'[1..], r');
      assert q == [q[0]] + q[1..] && q' == [q'[0]] + q'[1..];
    }
  }

  lemma ShortRemainder(r: Polynomial)
    requires |r| == 32
    ensures Plus(TimesGenerator([]), Zeros(0) + r) == r && Divides(r, [], r)
  {
    assert Zeros(0) + r == r;
  }

  lemma RemainderUnique(d: Polynomial, r: Polynomial, r': Polynomial)
    requires IsRemainder(d, r) && IsRemainder(d, r')
    ensures r == r'
  {
    var q: Polynomial :| Divides(d, q, r);
    var q': Polynomial :| Divides(d, q', r');
    SameQuotient(d, q, r, q', r');
  }

  // ---------- the register is a remainder ----------

  /** What is still to be divided when the register holds `r` and the bits `u` are still to come. */
  function Pending(r: Word, u: seq<bool>): (d: Polynomial)
    ensures |d| == |u| + 32
  {
    seq(|u| + 32, i requires 0 <= i < |u| + 32 => (i < 32 && r[i]) != (i < |u| && u[i]))
  }

  lemma FeedDivides(r: Word, u: seq<bool>)
    requires u != []
    ensures Pending(r, u)[0] == (r[0] != u[0])
    ensures Reduced(Pending(r, u)) == Pending(Feed(r, u[0]), u[1..])
  {
    var d, e := Pending(r, u), Pending(Feed(r, u[0]), u[1..]);
    GeneratorIsPolynomial();
    forall i | 0 <= i < |e| ensures Reduced(d)[i] == e[i] {
      assert d[1..][i] == d[i + 1];
      assert Lower(|d| - 33)[i] == (i < 32 && POLYNOMIAL[i]);
    }
  }

  lemma GeneratorIsPolynomial()
    ensures Generator()[1..] == POLYNOMIAL
  {
    forall i | 0 <= i < 32 ensures Generator()[1..][i] == POLYNOMIAL[i] {
      GeneratorTerms(31 - i);
    }
  }

  /** The step back: a remainder of what is left is one of the whole. */
  lemma DivisionBack(d: Polynomial, q: Polynomial, r: Polynomial)
    requires |d| > 32 && Divides(Reduced(d), q, r)
    ensures Divides(d, [d[0]] + q, r)
  {
    var p := [d[0]] + q;
    var e := Plus(TimesGenerator(p), Zeros(|p|) + r);
    assert p[1..] == q;
    DivisionStep(e, p, r);
    ReducedInjective(d, e);
  }

  lemma ReducedInjective(d: Polynomial, e: Polynomial)
    requires |d| == |e| > 32 && d[0] == e[0] && Reduced(d) == Reduced(e)
    ensures d == e
  {
    forall i | 0 < i < |d| ensures d[i] == e[i] {
      assert d[1..][i - 1] == d[i] && e[1..][i - 1] == e[i];
      assert Reduced(d)[i - 1] == Reduced(e)[i - 1];
    }
  }

  lemma {:induction false} RegisterIsRemainder(r: Word, u: seq<bool>)
    ensures IsRemainder(Pending(r, u), FeedAll(r, u))
    decreases |u|
  {
    if u == [] {
      assert Pending(r, u) == r;
      ShortRemainder(r);
    } else {
      RegisterIsRemainder(Feed(r, u[0]), u[1..]);
      FeedDivides(r, u);
      var q: Polynomial :| Divides(Reduced(Pending(r, u)), q, FeedAll(r, u));
      DivisionBack(Pending(r, u), q, FeedAll(r, u));
    }
  }

  // ---------- bits and numbers ----------

  lemma {:induction false} BitsOfDigits(v: nat, n: nat, k: nat)
    requires k < n
    ensures BitsOf(v, n)[k] == DigitIsOne(v, k)
  {
    if k > 0 {
      BitsOfDigits(v / 2, n - 1, k - 1);
    }
  }

  lemma {:induction false} ValueDigits(bits: seq<bool>, k: nat)
    requires k < |bits|
    ensures DigitIsOne(ValueOf(bits), k) == bits[k]
  {
    if k > 0 {
      assert ValueOf(bits) / 2 == ValueOf(bits[1..]);
      ValueDigits(bits[1..], k - 1);
    }
  }

  lemma {:induction false} StreamBits(s: string, i: nat)
    requires i < 8 * |s|
    ensures Stream(s)[i] == BitAt(s, i)
  {
    if i < 8 {
      BitsOfDigits(s[0] as int, 8, i);
    } else {
      StreamBits(s[1..], i - 8);
      assert (i - 8) / 8 == i / 8 - 1 && (i - 8) % 8 == i % 8;
    }
  }

  lemma OnesAreOnes(k: nat)
    requires k < 32
    ensures ONES[k]
  {
    BitsOfDigits(0xFFFF_FFFF, 32, k);
    AllOnes(k);
  }

  lemma {:induction false} AllOnes(k: nat)
    requires k < 32
    ensures Power(32) == 0x1_0000_0000 && DigitIsOne(Power(32) - 1, k)
  {
    assert Power(4) == 16;
    PowerSquared(4);
    PowerSquared(8);
    PowerSquared(16);
    OnesBelow(32, k);
  }

  lemma {:induction false} OnesBelow(n: nat, k: nat)
    requires k < n
    ensures Power(n) > 0 && DigitIsOne(Power(n) - 1, k)
  {
    PowerPositive(n - 1);
    assert Power(n) == 2 * Power(n - 1);
    if k > 0 {
      OnesBelow(n - 1, k - 1);
      assert (Power(n) - 1) / 2 == Power(n - 1) - 1;
    }
  }

  lemma {:induction false} PowerPositive(n: nat)
    ensures Power(n) > 0
  {
    if n > 0 {
      PowerPositive(n - 1);
    }
  }

  lemma DividendIsPending(s: string)
    ensures Dividend(s) == Pending(ONES, Stream(s))
  {
    forall i | 0 <= i < 8 * |s| + 32 ensures Dividend(s)[i] == Pending(ONES, Stream(s))[i] {
      if i < 32 {
        OnesAreOnes(i);
      }
      if i < 8 * |s| {
        StreamBits(s, i);
      }
    }
  }

  /** The CRC-32 of a string of bytes is a number of 32 binary digits: the coefficients of the remainder of its
      dividend by the generator, inverted, that of x^31 being the lowest digit. */
  lemma ChecksumIsRemainder(s: string, r: Polynomial)
    requires IsRemainder(Dividend(s), r)
    ensures Checksum(s) < 0x1_0000_0000
    ensures forall k | 0 <= k < 32 :: DigitIsOne(Checksum(s), k) == !r[k]
  {
    DividendIsPending(s);
    RegisterIsRemainder(ONES, Stream(s));
    RemainderUnique(Dividend(s), r, Register(s));
    forall k | 0 <= k < 32 ensures DigitIsOne(Checksum(s), k) == !r[k] {
      ValueDigits(Complement(Register(s)), k);
    }
  }

  /** There is such a remainder. */
  lemma RemainderExists(s: string) returns (r: Polynomial)
    ensures IsRemainder(Dividend(s), r)
  {
    DividendIsPending(s);
    RegisterIsRemainder(ONES, Stream(s));
    r := Register(s);
  }
}
