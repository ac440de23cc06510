/** Orders of elements, and what they prove: primality by Pocklington's test and Fermat's theorem from
    a generator. */
module Primes {
  import opened Sets

  function Exp(a: nat, e: nat): nat {
    if e == 0 then 1 else a * Exp(a, e - 1)
  }

  ghost predicate Prime(n: nat) {
    n > 1 && forall d: nat :: 1 < d < n ==> !Divides(d, n)
  }

  function Times(n: int, k: int): int {
    n * k
  }

  ghost predicate Divides(d: int, x: int) {
    exists k: int :: x == Times(d, k)
  }

  ghost predicate Cong(x: int, y: int, n: int) {
    Divides(n, x - y)
  }

  /* ---- Divisibility and congruence ---- */

  lemma DividesBy(d: int, x: int, k: int)
    requires x == d * k
    ensures Divides(d, x)
  {
    assert x == Times(d, k);
  }

  ghost function QuotientOf(d: int, x: int): (k: int)
    requires Divides(d, x)
    ensures x == d * k
  {
    var k: int :| x == Times(d, k);
    k
  }

  lemma CongBy(x: int, y: int, n: int, k: int)
    requires x == y + n * k
    ensures Cong(x, y, n)
  {
    DividesBy(n, x - y, k);
  }

  lemma CongTrans(x: int, y: int, z: int, n: int)
    requires Cong(x, y, n) && Cong(y, z, n)
    ensures Cong(x, z, n)
  {
    var k, l := QuotientOf(n, x - y), QuotientOf(n, y - z);
    CongBy(x, z, n, k + l);
  }

  lemma CongSym(x: int, y: int, n: int)
    requires Cong(x, y, n)
    ensures Cong(y, x, n)
  {
    var k := QuotientOf(n, x - y);
    CongBy(y, x, n, -k);
  }

  lemma CongRefl(x: int, n: int)
    ensures Cong(x, x, n)
  {
    CongBy(x, x, n, 0);
  }

  lemma CongMul(x: int, x': int, y: int, y': int, n: int)
    requires Cong(x, x', n) && Cong(y, y', n)
    ensures Cong(x * y, x' * y', n)
  {
    var k, l := QuotientOf(n, x - x'), QuotientOf(n, y - y');
    MulDifference(x, x', y, y', n, k, l);
    CongBy(x * y, x' * y', n, k * y + x' * l);
  }

  lemma MulDifference(x: int, x': int, y: int, y': int, n: int, k: int, l: int)
    requires x - x' == n * k && y - y' == n * l
    ensures x * y == x' * y' + n * (k * y + x' * l)
  {
    var a, b := x - x', y - y';
    assert x * y - x' * y' == a * y + x' * b;
    assert n * (k * y + x' * l) == n * (k * y) + n * (x' * l);
    assert (n * k) * y == n * (k * y) && x' * (n * l) == n * (x' * l);
  }

  lemma CongMod(x: int, n: nat)
    requires n > 0
    ensures Cong(x, x % n, n)
  {
    CongBy(x, x % n, n, x / n);
  }

  lemma CongSmall(x: nat, y: nat, n: nat)
    requires Cong(x, y, n) && x < n && y < n
    ensures x == y
  {
    Multiple(n, QuotientOf(n, x - y));
  }

  lemma Multiple(n: nat, k: int)
    ensures k >= 1 ==> n * k >= n
    ensures k <= 0 ==> n * k <= 0
    ensures k <= -1 ==> n * k <= 0 - n
    ensures k >= 2 ==> n * k >= 2 * n
  {
    var j := if k >= 2 then k - 2 else if k >= 1 then k - 1 else if k <= -1 then -1 - k else -k;
    assert n * j >= 0;
    assert k >= 2 ==> n * k == n * j + 2 * n;
    assert k <= -1 ==> n * k == 0 - n - n * j;
  }

  /** A congruence holds modulo every divisor. */
  lemma CongDown(x: int, y: int, n: int, p: int)
    requires Cong(x, y, n) && Divides(p, n)
    ensures Cong(x, y, p)
  {
    var k, m := QuotientOf(n, x - y), QuotientOf(p, n);
    assert (p * m) * k == p * (m * k);
    CongBy(x, y, p, m * k);
  }

  lemma {:induction false} ExpAdd(a: nat, e: nat, f: nat)
    ensures Exp(a, e + f) == Exp(a, e) * Exp(a, f)
  {
    if e > 0 {
      ExpAdd(a, e - 1, f);
      Regroup(a, Exp(a, e - 1), Exp(a, f));
    }
  }

  lemma Regroup(x: nat, y: nat, z: nat)
    ensures x * (y * z) == (x * y) * z
  {
  }

  lemma {:induction false} ExpMul(a: nat, e: nat, f: nat)
    ensures Exp(a, e * f) == Exp(Exp(a, e), f)
  {
    if f > 0 {
      ExpMul(a, e, f - 1);
      assert e * f == e + e * (f - 1);
      ExpAdd(a, e, e * (f - 1));
    } else {
      assert e * f == 0;
    }
  }

  lemma {:induction false} CongExp(x: nat, y: nat, e: nat, n: int)
    requires Cong(x, y, n)
    ensures Cong(Exp(x, e), Exp(y, e), n)
  {
    if e == 0 {
      CongRefl(1, n);
    } else {
      CongExp(x, y, e - 1, n);
      CongMul(x, y, Exp(x, e - 1), Exp(y, e - 1), n);
    }
  }

  lemma {:induction false} OneExp(e: nat)
    ensures Exp(1, e) == 1
  {
    if e > 0 {
      OneExp(e - 1);
    }
  }

  /* ---- Coprimality ---- */

  lemma Bezout(a: nat, b: nat) returns (g: nat, u: int, v: int)
    requires a > 0 || b > 0
    ensures g > 0 && Divides(g, a) && Divides(g, b) && g == u * a + v * b
    decreases b
  {
    if b == 0 {
      g, u, v := a, 1, 0;
      DividesBy(g, a, 1);
      DividesBy(g, b, 0);
    } else {
      var u', v';
      g, u', v' := Bezout(b, a % b);
      u, v := v', u' - v' * (a / b);
      var k, l := QuotientOf(g, b), QuotientOf(g, a % b);
      Combination(a, b, a / b, a % b, g, u', v', k, l);
      DividesBy(g, a, k * (a / b) + l);
    }
  }

  lemma Combination(a: int, b: int, q: int, r: int, g: int, u: int, v: int, k: int, l: int)
    requires a == b * q + r && g == u * b + v * r && b == g * k && r == g * l
    ensures g == v * a + (u - v * q) * b && a == g * (k * q + l)
  {
    assert v * a == v * (b * q) + v * r;
    assert (u - v * q) * b == u * b - (v * q) * b;
    assert (v * q) * b == v * (b * q);
    assert (g * k) * q == g * (k * q);
    assert g * (k * q + l) == g * (k * q) + g * l;
  }

  lemma PrimeCoprime(q: nat, d: nat) returns (u: int, v: int)
    requires Prime(q) && !Divides(q, d)
    ensures u * q + v * d == 1
  {
    var g;
    g, u, v := Bezout(q, d);
    var k := QuotientOf(g, q);
    if g > q {
      Larger(g, k, q);
    }
  }

  lemma Larger(g: nat, k: int, q: nat)
    requires q == g * k && q > 0
    ensures g <= q
  {
    Multiple(g, k);
  }

  /** A factor coprime to d may be cancelled. */
  lemma Cancel(q: int, d: int, m: int, u: int, v: int)
    requires u * q + v * d == 1 && Divides(d, q * m)
    ensures Divides(d, m)
  {
    var k := QuotientOf(d, q * m);
    assert m == (u * q + v * d) * m;
    assert (u * q + v * d) * m == u * (q * m) + d * (v * m);
    assert u * (d * k) == d * (u * k);
    assert d * (u * k) + d * (v * m) == d * (u * k + v * m);
    DividesBy(d, m, u * k + v * m);
  }

  /** What divides q times m but not m is divisible by the prime q. */
  lemma PrimeDivides(q: nat, d: nat, m: nat)
    requires Prime(q) && Divides(d, q * m) && !Divides(d, m)
    ensures Divides(q, d)
  {
    if !Divides(q, d) {
      var u, v := PrimeCoprime(q, d);
      Cancel(q, d, m, u, v);
    }
  }

  lemma TwoPrimes(q: nat, s: nat, d: nat)
    requires Prime(q) && Prime(s) && q != s && Divides(q, d) && Divides(s, d)
    ensures Divides(q * s, d)
  {
    var k := QuotientOf(q, d);
    if Divides(s, q) {
      var j := QuotientOf(s, q);
      Larger(s, j, q);
      assert false;
    }
    var v, u := PrimeCoprime(s, q);
    Cancel(q, s, k, u, v);
    var j := QuotientOf(s, k);
    assert q * (s * j) == (q * s) * j;
    DividesBy(q * s, d, j);
  }

  /* ---- Orders ---- */

  ghost predicate IsOrder(a: nat, d: nat, p: nat) {
    d > 0 && Cong(Exp(a, d), 1, p) && forall k: nat :: 0 < k < d ==> !Cong(Exp(a, k), 1, p)
  }

  lemma {:induction false} Order(a: nat, e: nat, p: nat) returns (d: nat)
    requires e > 0 && Cong(Exp(a, e), 1, p)
    ensures IsOrder(a, d, p)
  {
    if k: nat :| 0 < k < e && Cong(Exp(a, k), 1, p) {
      d := Order(a, k, p);
    } else {
      d := e;
    }
  }

  lemma OneTo(a: nat, d: nat, q: nat, p: nat)
    requires Cong(Exp(a, d), 1, p)
    ensures Cong(Exp(a, d * q), 1, p)
  {
    ExpMul(a, d, q);
    CongExp(Exp(a, d), 1, q, p);
    OneExp(q);
  }

  /** The order divides every exponent that gives 1. */
  lemma OrderDivides(a: nat, d: nat, p: nat, e: nat)
    requires IsOrder(a, d, p) && Cong(Exp(a, e), 1, p)
    ensures Divides(d, e)
  {
    var q, r := e / d, e % d;
    assert e == d * q + r;
    Leftover(a, d, p, q, r);
    assert r == 0;
    DividesBy(d, e, q);
  }

  lemma Leftover(a: nat, d: nat, p: nat, q: nat, r: nat)
    requires Cong(Exp(a, d), 1, p) && Cong(Exp(a, d * q + r), 1, p)
    ensures Cong(Exp(a, r), 1, p)
  {
    OneTo(a, d, q, p);
    ExpAdd(a, d * q, r);
    hide Exp, Cong;
    CongRefl(Exp(a, r), p);
    CongMul(Exp(a, d * q), 1, Exp(a, r), Exp(a, r), p);
    CongSym(Exp(a, d * q + r), Exp(a, r), p);
    CongTrans(Exp(a, r), Exp(a, d * q + r), 1, p);
  }

  /** Below the order no two powers agree, and none is zero. */
  lemma PowersDiffer(a: nat, d: nat, p: nat, i: nat, j: nat)
    requires IsOrder(a, d, p) && i < j < d
    ensures !Cong(Exp(a, i), Exp(a, j), p)
  {
    if Cong(Exp(a, i), Exp(a, j), p) {
      var r := d - j;
      CongRefl(Exp(a, r), p);
      CongMul(Exp(a, i), Exp(a, j), Exp(a, r), Exp(a, r), p);
      ExpAdd(a, i, r);
      ExpAdd(a, j, r);
      CongTrans(Exp(a, i + r), Exp(a, d), 1, p);
    }
  }

  lemma PowerNonzero(a: nat, d: nat, p: nat, i: nat)
    requires IsOrder(a, d, p) && i < d && p > 1
    ensures !Cong(Exp(a, i), 0, p)
  {
    if Cong(Exp(a, i), 0, p) {
      CongRefl(Exp(a, d - i), p);
      CongMul(Exp(a, i), 0, Exp(a, d - i), Exp(a, d - i), p);
      ExpAdd(a, i, d - i);
      CongSym(Exp(a, d), 0, p);
      CongTrans(0, Exp(a, d), 1, p);
      CongSmall(0, 1, p);
    }
  }

  function Powers(a: nat, p: nat, n: nat): set<nat>
    requires p > 0
  {
    set i: nat | i < n :: Exp(a, i) % p
  }

  lemma {:induction false} PowersCount(a: nat, d: nat, p: nat, n: nat)
    requires IsOrder(a, d, p) && n <= d && p > 1
    ensures |Powers(a, p, n)| == n
  {
    if n > 0 {
      PowersCount(a, d, p, n - 1);
      var last := Exp(a, n - 1) % p;
      assert Powers(a, p, n) == Powers(a, p, n - 1) + {last};
      if i: nat :| i < n - 1 && Exp(a, i) % p == last {
        SameRemainder(Exp(a, i), Exp(a, n - 1), p);
        PowersDiffer(a, d, p, i, n - 1);
      }
      assert last !in Powers(a, p, n - 1);
    } else {
      assert Powers(a, p, 0) == {};
    }
  }

  lemma SameRemainder(x: nat, y: nat, p: nat)
    requires p > 0 && x % p == y % p
    ensures Cong(x, y, p)
  {
    CongMod(x, p);
    CongMod(y, p);
    CongSym(y, y % p, p);
    CongTrans(x, x % p, y, p);
  }

  function Below(p: nat): set<nat> {
    set x: nat {:trigger Divides(p, x)} | 0 < x < p
  }

  lemma {:induction false} BelowCount(p: nat)
    requires p > 0
    ensures |Below(p)| == p - 1
  {
    if p > 1 {
      BelowCount(p - 1);
      assert Below(p) == Below(p - 1) + {p - 1};
    } else {
      assert Below(1) == {};
    }
  }

  lemma PowersBelow(a: nat, d: nat, p: nat, n: nat)
    requires IsOrder(a, d, p) && n <= d && p > 1
    ensures Powers(a, p, n) <= Below(p)
  {
    forall i: nat | i < n
      ensures 0 < Exp(a, i) % p < p
    {
      PowerNonzero(a, d, p, i);
      CongMod(Exp(a, i), p);
    }
  }

  /** An order modulo p is below p. */
  lemma OrderBelow(a: nat, d: nat, p: nat)
    requires IsOrder(a, d, p) && p > 1
    ensures 0 < d < p
  {
    PowersCount(a, d, p, d);
    PowersBelow(a, d, p, d);
    BelowCount(p);
    SubsetCount(Powers(a, p, d), Below(p));
  }

  /** If some element has order p - 1, every nonzero z is one of its powers, and z^(p-1) is 1. */
  lemma FermatFrom(g: nat, p: nat, z: nat)
    requires p > 1 && IsOrder(g, p - 1, p) && 0 < z < p
    ensures Cong(Exp(z, p - 1), 1, p)
  {
    hide Exp, Cong;
    var i := PowerOf(g, p, z);
    CongExp(z, Exp(g, i), p - 1, p);
    ExpMul(g, i, p - 1);
    OneTo(g, p - 1, i, p);
    Commutes(i, p - 1);
    CongTrans(Exp(z, p - 1), Exp(g, i * (p - 1)), 1, p);
  }

  lemma Commutes(x: int, y: int)
    ensures x * y == y * x
  {
  }

  lemma PowerOf(g: nat, p: nat, z: nat) returns (i: nat)
    requires p > 1 && IsOrder(g, p - 1, p) && 0 < z < p
    ensures Cong(z, Exp(g, i), p)
  {
    hide Exp, Cong, IsOrder;
    PowersCount(g, p - 1, p, p - 1);
    PowersBelow(g, p - 1, p, p - 1);
    BelowCount(p);
    SubsetCount(Powers(g, p, p - 1), Below(p));
    assert z in Powers(g, p, p - 1);
    i :| i < p - 1 && Exp(g, i) % p == z;
    CongMod(Exp(g, i), p);
    CongSym(Exp(g, i), z, p);
  }

  /* ---- Primality ---- */

  lemma SmallDivisor(n: nat) returns (p: nat)
    requires n > 1 && !Prime(n)
    ensures 1 < p && p * p <= n && Divides(p, n)
  {
    var d: nat :| 1 < d < n && Divides(d, n);
    var k := QuotientOf(d, n);
    CofactorBounds(d, k, n);
    p := if d <= k then d else k;
    SmallerSquare(d, k);
    assert k * d == d * k;
    DividesBy(k, n, d);
  }

  lemma SmallerSquare(d: nat, k: nat)
    ensures d <= k ==> d * d <= d * k
    ensures k <= d ==> k * k <= d * k
  {
  }

  lemma CofactorBounds(d: nat, k: int, n: nat)
    requires n == d * k && 1 < d < n
    ensures 1 < k < n
  {
    Multiple(d, k);
    if k >= 1 {
      Multiple(k, d);
      assert k * d == d * k;
    }
  }

  /** No divisor below b, and b past the square root. */
  lemma TrialDivision(n: nat, b: nat)
    requires n > 1 && b * b > n && forall d: nat :: 1 < d < b ==> n % d != 0
    ensures Prime(n)
  {
    if !Prime(n) {
      var p := SmallDivisor(n);
      var k := QuotientOf(p, n);
      RemainderZero(p, k);
      if p >= b {
        SquaresGrow(b, p);
      }
    }
  }

  lemma RemainderZero(p: nat, k: int)
    requires p > 0
    ensures (p * k) % p == 0
  {
    var r, c := (p * k) % p, k - (p * k) / p;
    assert r == p * c;
    Multiple(p, c);
  }

  /** a^e - 1 has an inverse modulo n, so a^e is 1 modulo no divisor of n. */
  lemma NotOneBelow(x: nat, w: int, n: nat, p: nat)
    requires Cong((x - 1) * w, 1, n) && Divides(p, n) && p > 1
    ensures !Cong(x, 1, p)
  {
    if Cong(x, 1, p) {
      var k := QuotientOf(p, x - 1);
      assert (p * k) * w == p * (k * w);
      CongBy(0, (x - 1) * w, p, -(k * w));
      CongDown((x - 1) * w, 1, n, p);
      CongTrans(0, (x - 1) * w, 1, p);
      CongSmall(0, 1, p);
    }
  }

  /** Pocklington's test with two primes q and s whose product is past the square root of n. */
  lemma Pocklington(n: nat, q: nat, s: nat, e: nat, f: nat, a: nat, u: int, v: int)
    requires n > 1 && n - 1 == q * e && n - 1 == s * f && Prime(q) && Prime(s) && q != s && (q * s) * (q * s) > n
    requires Cong(Exp(a, n - 1), 1, n) && Cong((Exp(a, e) - 1) * u, 1, n) && Cong((Exp(a, f) - 1) * v, 1, n)
    ensures Prime(n)
  {
    hide Exp, Cong;
    if !Prime(n) {
      var p := SmallDivisor(n);
      DivisorIsLarge(n, q, s, e, f, a, u, v, p);
      SquaresGrow(q * s, p);
    }
  }

  lemma DivisorIsLarge(n: nat, q: nat, s: nat, e: nat, f: nat, a: nat, u: int, v: int, p: nat)
    requires n > 1 && n - 1 == q * e && n - 1 == s * f && Prime(q) && Prime(s) && q != s && p > 1 && Divides(p, n)
    requires Cong(Exp(a, n - 1), 1, n) && Cong((Exp(a, e) - 1) * u, 1, n) && Cong((Exp(a, f) - 1) * v, 1, n)
    ensures q * s < p
  {
    hide Prime, Exp, Cong, IsOrder, Divides;
    CongDown(Exp(a, n - 1), 1, n, p);
    var d := Order(a, n - 1, p);
    OrderBelow(a, d, p);
    DividesOrder(a, d, p, n, q, e, u);
    DividesOrder(a, d, p, n, s, f, v);
    TwoPrimes(q, s, d);
    DivisorBelow(q * s, d);
  }

  lemma DivisorBelow(g: nat, d: nat)
    requires Divides(g, d) && d > 0
    ensures g <= d
  {
    Larger(g, QuotientOf(g, d), d);
  }

  /** A prime q whose cofactor gives an invertible a^m - 1 divides the order modulo every divisor. */
  lemma DividesOrder(a: nat, d: nat, p: nat, n: nat, q: nat, m: nat, w: int)
    requires IsOrder(a, d, p) && p > 1 && Divides(p, n) && Prime(q) && n - 1 == q * m
    requires Cong(Exp(a, n - 1), 1, p) && Cong((Exp(a, m) - 1) * w, 1, n)
    ensures Divides(q, d)
  {
    hide Prime, Exp, Cong;
    NotOneBelow(Exp(a, m), w, n, p);
    OrderDivides(a, d, p, n - 1);
    if Divides(d, m) {
      MultipleOfOrder(a, d, p, m, QuotientOf(d, m));
    }
    PrimeDivides(q, d, m);
  }

  lemma SquaresGrow(x: nat, y: nat)
    requires x <= y
    ensures x * x <= y * y
  {
  }

  lemma MultipleOfOrder(a: nat, d: nat, p: nat, e: nat, k: int)
    requires IsOrder(a, d, p) && e == d * k
    ensures Cong(Exp(a, e), 1, p)
  {
    Multiple(d, k);
    OneTo(a, d, k, p);
  }
}

/** Powers of 2 modulo n, a few squarings at a time, and what tables of them prove. */
module PowersOfTwo {
  import opened Primes

  /** 2 to the power e is y modulo n. */
  ghost predicate IsPow(e: nat, y: int, n: nat) {
    Cong(Exp(2, e), y, n)
  }

  /** z is the eighth power of y times p, so that exponents e and d give f. */
  predicate Next(e: nat, y: nat, d: nat, p: nat, f: nat, z: nat, n: nat) {
    n > 0 && f == 8 * e + d && y * y * y * y * y * y * y * y * p % n == z
  }

  predicate Product(e: nat, y: nat, d: nat, p: nat, f: nat, z: nat, n: nat) {
    n > 0 && f == e + d && y * p % n == z
  }

  lemma ProductPow(e: nat, y: nat, d: nat, p: nat, n: nat)
    requires IsPow(e, y, n) && IsPow(d, p, n)
    ensures IsPow(e + d, y * p, n)
  {
    ExpAdd(2, e, d);
    CongMul(Exp(2, e), y, Exp(2, d), p, n);
  }

  lemma Reduce(e: nat, y: nat, n: nat)
    requires n > 0 && IsPow(e, y, n)
    ensures IsPow(e, y % n, n)
  {
    CongMod(y, n);
    CongTrans(Exp(2, e), y, y % n, n);
  }

  lemma NextPow(e: nat, y: nat, d: nat, p: nat, f: nat, z: nat, n: nat)
    requires IsPow(e, y, n) && IsPow(d, p, n) && Next(e, y, d, p, f, z, n)
    ensures IsPow(f, z, n)
  {
    hide IsPow;
    var y2, y4 := y * y, (y * y) * (y * y);
    ProductPow(e, y, e, y, n);
    ProductPow(2 * e, y2, 2 * e, y2, n);
    ProductPow(4 * e, y4, 4 * e, y4, n);
    ProductPow(8 * e, y4 * y4, d, p, n);
    EighthPower(y);
    Reduce(f, y4 * y4 * p, n);
  }

  lemma EighthPower(y: nat)
    ensures ((y * y) * (y * y)) * ((y * y) * (y * y)) == y * y * y * y * y * y * y * y
  {
    var y4 := y * y * y * y;
    assert (y * y) * (y * y) == y4;
    assert y4 * y * y * y * y == y4 * y4;
  }

  /** What one step of a table says. */
  lemma TableRules(n: nat)
    ensures IsPow(0, 1, n) && IsPow(1, 2, n) && IsPow(2, 4, n) && IsPow(3, 8, n)
    ensures IsPow(4, 16, n) && IsPow(5, 32, n) && IsPow(6, 64, n) && IsPow(7, 128, n)
    ensures forall e: nat, y: nat, d: nat, p: nat, f: nat, z: nat {:trigger Next(e, y, d, p, f, z, n)} ::
      Next(e, y, d, p, f, z, n) && IsPow(e, y, n) && IsPow(d, p, n) ==> IsPow(f, z, n)
    ensures forall e: nat, y: nat, d: nat, p: nat, f: nat, z: nat {:trigger Product(e, y, d, p, f, z, n)} ::
      Product(e, y, d, p, f, z, n) && IsPow(e, y, n) && IsPow(d, p, n) ==> IsPow(f, z, n)
  {
    SmallPowers(n);
    hide IsPow, Next;
    forall e: nat, y: nat, d: nat, p: nat, f: nat, z: nat | Next(e, y, d, p, f, z, n) && IsPow(e, y, n) && IsPow(d, p, n)
      ensures IsPow(f, z, n)
    {
      NextPow(e, y, d, p, f, z, n);
    }
    forall e: nat, y: nat, d: nat, p: nat, f: nat, z: nat | Product(e, y, d, p, f, z, n) && IsPow(e, y, n) && IsPow(d, p, n)
      ensures IsPow(f, z, n)
    {
      ProductPow(e, y, d, p, n);
      Reduce(f, y * p, n);
    }
  }

  lemma SmallPowers(n: nat)
    ensures IsPow(0, 1, n) && IsPow(1, 2, n) && IsPow(2, 4, n) && IsPow(3, 8, n)
    ensures IsPow(4, 16, n) && IsPow(5, 32, n) && IsPow(6, 64, n) && IsPow(7, 128, n)
  {
    forall x
      ensures Cong(x, x, n)
    {
      CongRefl(x, n);
    }
    hide Cong;
    assert Exp(2, 3) == 8 && Exp(2, 5) == 32 && Exp(2, 7) == 128;
  }

  /** The numbers of Pocklington's test: n - 1 is q e and s f, q s is past the square root of n,
      and y - 1 and z - 1 have the inverses u and v. */
  predicate Fits(n: nat, q: nat, s: nat, e: nat, f: nat, y: nat, z: nat, u: int, v: int) {
    && n > 1 && q != s && n - 1 == q * e && n - 1 == s * f && (q * s) * (q * s) > n
    && (y - 1) * u % n == 1 && (z - 1) * v % n == 1
  }

  lemma Certified(n: nat, q: nat, s: nat, e: nat, f: nat, y: nat, z: nat, u: int, v: int)
    requires Fits(n, q, s, e, f, y, z, u, v) && Prime(q) && Prime(s)
    requires IsPow(e, y, n) && IsPow(f, z, n) && IsPow(n - 1, 1, n)
    ensures Prime(n)
  {
    hide Prime, Exp, Cong;
    Invertible(Exp(2, e), y, u, n);
    Invertible(Exp(2, f), z, v, n);
    Pocklington(n, q, s, e, f, 2, u, v);
  }

  lemma Invertible(x: int, y: int, w: int, n: nat)
    requires n > 0 && Cong(x, y, n) && (y - 1) * w % n == 1
    ensures Cong((x - 1) * w, 1, n)
  {
    CongBy((y - 1) * w, 1, n, (y - 1) * w / n);
    assert (x - 1) - (y - 1) == x - y;
    CongRefl(w, n);
    CongMul(x - 1, y - 1, w, w, n);
    CongTrans((x - 1) * w, (y - 1) * w, 1, n);
  }

  /** When p - 1 is 12 times 65147 times the prime q, and 2 to its quotient by each prime is not 1,
      2 has order p - 1. */
  lemma Generates(q: nat, p: nat, y2: nat, y3: nat, y5: nat, yq: nat)
    requires Prime(2) && Prime(3) && Prime(65147) && Prime(q) && p - 1 == 781764 * q && p > 1
    requires IsPow(p - 1, 1, p) && IsPow(390882 * q, y2, p) && IsPow(260588 * q, y3, p) && IsPow(12 * q, y5, p) && IsPow(781764, yq, p)
    requires 1 < y2 < p && 1 < y3 < p && 1 < y5 < p && 1 < yq < p
    ensures IsOrder(2, p - 1, p)
  {
    hide Prime, Exp, Cong, IsOrder;
    var d := Order(2, p - 1, p);
    OrderDivides(2, d, p, p - 1);
    NotPower(d, p, 390882 * q, y2);
    NotPower(d, p, 260588 * q, y3);
    NotPower(d, p, 12 * q, y5);
    NotPower(d, p, 781764, yq);
    WholeOrder(d, p - 1, q);
  }

  lemma NotPower(d: nat, p: nat, e: nat, y: nat)
    requires IsOrder(2, d, p) && IsPow(e, y, p) && 1 < y < p
    ensures !Divides(d, e)
  {
    if Divides(d, e) {
      hide Exp;
      var k := QuotientOf(d, e);
      MultipleOfOrder(2, d, p, e, k);
      CongSym(Exp(2, e), y, p);
      CongTrans(y, Exp(2, e), 1, p);
      CongSmall(y, 1, p);
    }
  }

  /** A divisor of 781764 q that divides none of its quotients by a prime is all of it. */
  lemma WholeOrder(d: nat, n: nat, q: nat)
    requires n == 781764 * q && Prime(2) && Prime(3) && Prime(65147) && Prime(q) && d > 0 && Divides(d, n)
    requires !Divides(d, 390882 * q) && !Divides(d, 260588 * q) && !Divides(d, 12 * q) && !Divides(d, 781764)
    ensures d == n
  {
    hide Prime;
    var k := QuotientOf(d, n);
    NoCommonFactor(d, k, 2, 390882 * q, n);
    NoCommonFactor(d, k, 3, 260588 * q, n);
    NoCommonFactor(d, k, 65147, 12 * q, n);
    NoCommonFactor(d, k, q, 781764, n);
    DividesBy(k, n, d);
    Remove(2, k, 390882 * q);
    Remove(2, k, 195441 * q);
    Remove(3, k, 65147 * q);
    Remove(65147, k, q);
    Remove(q, k, 1);
    var j := QuotientOf(k, 1);
    Multiple(d, k);
    Unit(k, j);
  }

  lemma Unit(k: int, j: int)
    requires k * j == 1 && k >= 1
    ensures k == 1
  {
    if k > 1 {
      Multiple(k, j);
    }
  }

  lemma NoCommonFactor(d: nat, k: int, q: nat, m: nat, n: nat)
    requires n == d * k && n == q * m && q > 0 && !Divides(d, m)
    ensures !Divides(q, k)
  {
    if Divides(q, k) {
      var j := QuotientOf(q, k);
      assert d * (q * j) == q * (d * j);
      CancelFactor(q, m, d * j);
      DividesBy(d, m, j);
    }
  }

  lemma CancelFactor(q: nat, x: int, y: int)
    requires q > 0 && q * x == q * y
    ensures x == y
  {
    var c := x - y;
    assert q * c == 0;
    Multiple(q, c);
  }

  lemma Remove(q: nat, k: int, m: nat)
    requires Prime(q) && k >= 0 && Divides(k, q * m) && !Divides(q, k)
    ensures Divides(k, m)
  {
    hide Prime;
    var u, v := PrimeCoprime(q, k);
    Cancel(q, k, m, u, v);
  }
}
