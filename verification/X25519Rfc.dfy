/** The code's ladder runs over 256 bits where section 5 of RFC 7748 runs over 255. For clamped
    scalars both give the same result: the extra step only rescales the projective coordinates. */
module X25519Rfc {
  import opened Words
  import opened Bits
  import opened Bytes
  import opened Limbs256
  import opened X25519Spec
  import opened X25519Ladder
  import opened Primes
  import X25519
  import Certificates

  /** Fermat's little theorem for p = 2^255 - 19: every z is a power of 2, which has order p - 1. */
  lemma Fermat(z: Residue)
    requires z != 0
    ensures Power(z, P - 1) == 1
  {
    Certificates.TwoGenerates();
    hide Power, Exp, IsOrder, Cong;
    FermatFrom(2, P, z);
    PowerIsExp(z, P - 1);
    CongSym(Exp(z, P - 1), Power(z, P - 1), P);
    CongTrans(Power(z, P - 1), Exp(z, P - 1), 1, P);
    CongSmall(Power(z, P - 1), 1, P);
  }

  lemma {:induction false} PowerIsExp(z: Residue, e: nat)
    ensures Cong(Exp(z, e), Power(z, e), P)
  {
    hide Cong;
    if e == 0 {
      CongRefl(1, P);
    } else {
      var y := Power(z, e - 1);
      PowerIsExp(z, e - 1);
      CongRefl(z, P);
      CongMul(z, z, Exp(z, e - 1), y, P);
      CongMod(z * y, P);
      CongTrans(Exp(z, e), z * y, Power(z, e), P);
    }
  }

  /** Another representative of the same two projective points. */
  function Scale(p: Pair, s: Residue, t: Residue): Pair {
    Pair(FMul(s, p.x2), FMul(s, p.z2), FMul(t, p.x3), FMul(t, p.z3))
  }

  /** A factor times a sum, reduced once. */
  function FMulSum(s: Residue, x: Residue, y: Residue): Residue {
    (s * x + s * y) % P
  }

  lemma FMulOfSum(s: Residue, x: Residue, y: Residue)
    ensures FMul(s, FAdd(x, y)) == FMulSum(s, x, y)
  {
    ReduceRight(s, x as nat + y as nat);
    DistributeOver(s, x, y);
  }

  lemma SumOfFMuls(s: Residue, x: Residue, y: Residue)
    ensures FAdd(FMul(s, x), FMul(s, y)) == FMulSum(s, x, y)
  {
    AddResidues(s * x, s * y);
  }

  lemma DistributeOver(s: nat, x: nat, y: int)
    ensures s * (x + y) == s * x + s * y
  {
  }

  lemma FMulSub(s: Residue, x: Residue, y: Residue)
    ensures FMul(s, FSub(x, y)) == FSub(FMul(s, x), FMul(s, y))
  {
    var d := FSub(x, y);
    FSubAdd(x, y);
    FMulOfSum(s, d, y);
    SumOfFMuls(s, d, y);
    FAddSub(FMul(s, d), FMul(s, y));
  }

  lemma FSubAdd(x: Residue, y: Residue)
    ensures FAdd(FSub(x, y), y) == x
  {
  }

  lemma FAddSub(x: Residue, y: Residue)
    ensures FSub(FAdd(x, y), y) == x
  {
  }

  /** The product of four, however it is paired. */
  function FMul4(a: Residue, b: Residue, c: Residue, d: Residue): Residue {
    (a * b) * (c * d) % P
  }

  lemma FMulPairs(s: Residue, x: Residue, t: Residue, y: Residue)
    ensures FMul(FMul(s, x), FMul(t, y)) == FMul4(s, t, x, y)
    ensures FMul(FMul(s, t), FMul(x, y)) == FMul4(s, t, x, y)
  {
    ReduceLeft(s * x, FMul(t, y));
    ReduceRight(s * x, t * y);
    ReduceLeft(s * t, FMul(x, y));
    ReduceRight(s * t, x * y);
    Shuffle(s, x, t, y);
    hide FMul;
  }

  lemma Shuffle(s: nat, x: nat, t: nat, y: nat)
    ensures (s * x) * (t * y) == (s * t) * (x * y)
  {
  }

  lemma Exchange3(a: Residue, s: Residue, x: Residue)
    ensures FMul3(a, s, x) == FMul3(s, a, x)
  {
  }

  /** The ladder step is homogeneous: rescaled points stay rescaled. */
  lemma StepScales(u: Residue, p: Pair, s: Residue, t: Residue)
    ensures var s2, ts := FMul(s, s), FMul(t, s);
      Step(u, Scale(p, s, t)) == Scale(Step(u, p), FMul(s2, s2), FMul(ts, ts))
  {
    hide FMul, FMul3, FMul4, FMulSum, FAdd, FSub;
    DoubleScales(p, s);
    AddScales(u, p, s, t);
  }

  lemma DoubleScales(p: Pair, s: Residue)
    ensures var a, b, s2 := FAdd(p.x2, p.z2), FSub(p.x2, p.z2), FMul(s, s);
      var a', b' := FAdd(FMul(s, p.x2), FMul(s, p.z2)), FSub(FMul(s, p.x2), FMul(s, p.z2));
      var aa, bb, aa', bb' := FMul(a, a), FMul(b, b), FMul(a', a'), FMul(b', b');
      var e, e' := FSub(aa, bb), FSub(aa', bb');
      && FMul(aa', bb') == FMul(FMul(s2, s2), FMul(aa, bb))
      && FMul(e', FAdd(aa', FMul(A24, e'))) == FMul(FMul(s2, s2), FMul(e, FAdd(aa, FMul(A24, e))))
  {
    hide FMul, FMul3, FMul4, FMulSum, FAdd, FSub;
    var a, b, s2 := FAdd(p.x2, p.z2), FSub(p.x2, p.z2), FMul(s, s);
    FMulOfSum(s, p.x2, p.z2);
    SumOfFMuls(s, p.x2, p.z2);
    FMulSub(s, p.x2, p.z2);
    FMulPairs(s, a, s, a);
    FMulPairs(s, b, s, b);
    var aa, bb := FMul(a, a), FMul(b, b);
    var e := FSub(aa, bb);
    FMulSub(s2, aa, bb);
    FMulPairs(s2, aa, s2, bb);
    FMulRightmost(A24, s2, e);
    FMulRightmost(s2, A24, e);
    Exchange3(A24, s2, e);
    FMulOfSum(s2, aa, FMul(A24, e));
    SumOfFMuls(s2, aa, FMul(A24, e));
    FMulPairs(s2, e, s2, FAdd(aa, FMul(A24, e)));
  }

  lemma AddScales(u: Residue, p: Pair, s: Residue, t: Residue)
    ensures var a, b, c, d := FAdd(p.x2, p.z2), FSub(p.x2, p.z2), FAdd(p.x3, p.z3), FSub(p.x3, p.z3);
      var a', b' := FAdd(FMul(s, p.x2), FMul(s, p.z2)), FSub(FMul(s, p.x2), FMul(s, p.z2));
      var c', d' := FAdd(FMul(t, p.x3), FMul(t, p.z3)), FSub(FMul(t, p.x3), FMul(t, p.z3));
      var sum, diff := FAdd(FMul(d, a), FMul(c, b)), FSub(FMul(d, a), FMul(c, b));
      var sum', diff' := FAdd(FMul(d', a'), FMul(c', b')), FSub(FMul(d', a'), FMul(c', b'));
      var ts := FMul(t, s);
      && FMul(sum', sum') == FMul(FMul(ts, ts), FMul(sum, sum))
      && FMul(u, FMul(diff', diff')) == FMul(FMul(ts, ts), FMul(u, FMul(diff, diff)))
  {
    hide FMul, FMul3, FMul4, FMulSum, FAdd, FSub;
    var a, b, c, d := FAdd(p.x2, p.z2), FSub(p.x2, p.z2), FAdd(p.x3, p.z3), FSub(p.x3, p.z3);
    var ts := FMul(t, s);
    FMulOfSum(s, p.x2, p.z2);
    SumOfFMuls(s, p.x2, p.z2);
    FMulSub(s, p.x2, p.z2);
    FMulOfSum(t, p.x3, p.z3);
    SumOfFMuls(t, p.x3, p.z3);
    FMulSub(t, p.x3, p.z3);
    FMulPairs(t, d, s, a);
    FMulPairs(t, c, s, b);
    var da, cb := FMul(d, a), FMul(c, b);
    FMulOfSum(ts, da, cb);
    SumOfFMuls(ts, da, cb);
    FMulSub(ts, da, cb);
    var sum, diff := FAdd(da, cb), FSub(da, cb);
    FMulPairs(ts, sum, ts, sum);
    FMulPairs(ts, diff, ts, diff);
    FMulRightmost(u, FMul(ts, ts), FMul(diff, diff));
    FMulRightmost(FMul(ts, ts), u, FMul(diff, diff));
    Exchange3(u, FMul(ts, ts), FMul(diff, diff));
  }

  lemma SwapScales(b: bool, p: Pair, s: Residue, t: Residue)
    ensures Swap(b, Scale(p, s, t)) == if b then Scale(Swap(b, p), t, s) else Scale(Swap(b, p), s, t)
  {
  }

  /** No zero divisors. */
  lemma NonzeroProduct(s: Residue, t: Residue)
    requires s != 0 && t != 0
    ensures FMul(s, t) != 0
  {
    hide FMul, FMul3, Power;
    InverseOf(s);
    FMulLeftmost(Power(s, P - 2), s, t);
    FMulRightmost(Power(s, P - 2), s, t);
    FMulComm(Power(s, P - 2), s);
    FMulOne(t);
    if FMul(s, t) == 0 {
      TimesZero(Power(s, P - 2));
      assert false;
    }
  }

  lemma TimesZero(x: Residue)
    ensures FMul(x, 0) == 0 && FMul(0, x) == 0
  {
  }

  /** The power the code computes is the inverse. */
  lemma InverseOf(s: Residue)
    requires s != 0
    ensures FMul(s, Power(s, P - 2)) == 1
  {
    Fermat(s);
    hide FMul;
    assert Power(s, P - 1) == FMul(s, Power(s, P - 2));
  }

  /** The extra first step, on a clear bit: (1:0) stays, (u:1) is scaled by 4u. */
  lemma FirstStep(u: Residue)
    ensures Step(u, Pair(1, 0, u, 1)) == Scale(Pair(1, 0, u, 1), 1, FMul(4, u))
  {
    FirstSums(u);
    hide FAdd, FSub;
    FMulOne(1);
    hide FMul;
    FMulOne(0);
    var c, d := FAdd(u, 1), FSub(u, 1);
    FMulComm(d, 1);
    FMulComm(c, 1);
    FMulOne(d);
    FMulOne(c);
    FMulPairs(2, u, 2, u);
    Fours(u);
    FMulLeftmost(4, u, u);
    FMulRightmost(4, u, u);
    FMulOne(1);
    FMulComm(FMul(4, u), 1);
    FMulOne(FMul(4, u));
    TimesZero(A24);
    TimesZero(FAdd(1, 0));
  }

  lemma FirstSums(u: Residue)
    ensures FAdd(1, 0) == 1 && FSub(1, 0) == 1 && FSub(1, 1) == 0
    ensures FAdd(FSub(u, 1), FAdd(u, 1)) == FMul(2, u) && FSub(FSub(u, 1), FAdd(u, 1)) == P - 2
  {
    SumOfNeighbours(u);
    DifferenceOfNeighbours(u);
    hide FMul;
  }

  lemma SumOfNeighbours(u: Residue)
    ensures FAdd(FSub(u, 1), FAdd(u, 1)) == FMul(2, u)
  {
    var x, y := FSub(u, 1), FAdd(u, 1);
    assert x == if u == 0 then P - 1 else u - 1;
    assert y == if u == P - 1 then 0 else u + 1;
  }

  lemma DifferenceOfNeighbours(u: Residue)
    ensures FSub(FSub(u, 1), FAdd(u, 1)) == P - 2
  {
    var x, y := FSub(u, 1), FAdd(u, 1);
    assert x == if u == 0 then P - 1 else u - 1;
    assert y == if u == P - 1 then 0 else u + 1;
  }

  lemma Fours(u: Residue)
    ensures FMul(2, 2) == 4 && FMul(P - 2, P - 2) == 4 && FMul(u, 4) == FMul(4, u)
  {
  }

  /** Step n + 1 of the 256-bit ladder is step n of the 255-bit one, rescaled by nonzero factors. */
  lemma {:induction false} LadderScales(k: nat, u: Residue, n: nat) returns (s: Residue, t: Residue)
    requires u != 0 && n <= 255 && !Bit(k, 255)
    ensures s != 0 && t != 0
    ensures Ladder(k, u, 256, n + 1) == State(Scale(Ladder(k, u, 255, n).pair, s, t), Ladder(k, u, 255, n).swap)
  {
    hide Step, FMul, Scale, Power, Bit;
    if n == 0 {
      FirstStep(u);
      NonzeroProduct(4, u);
      s, t := 1, FMul(4, u);
      FirstLadder(k, u);
    } else {
      var s0, t0 := LadderScales(k, u, n - 1);
      var l, b := Ladder(k, u, 255, n - 1), Bit(k, 255 - n);
      SwapScales(l.swap != b, l.pair, s0, t0);
      var s1, t1 := if l.swap != b then t0 else s0, if l.swap != b then s0 else t0;
      StepScales(u, Swap(l.swap != b, l.pair), s1, t1);
      NonzeroProduct(s1, s1);
      NonzeroProduct(FMul(s1, s1), FMul(s1, s1));
      NonzeroProduct(t1, s1);
      NonzeroProduct(FMul(t1, s1), FMul(t1, s1));
      s, t := FMul(FMul(s1, s1), FMul(s1, s1)), FMul(FMul(t1, s1), FMul(t1, s1));
    }
  }

  lemma FirstLadder(k: nat, u: Residue)
    requires !Bit(k, 255)
    ensures Ladder(k, u, 256, 1) == State(Step(u, Pair(1, 0, u, 1)), false)
    ensures Ladder(k, u, 255, 0) == State(Pair(1, 0, u, 1), false)
  {
  }

  lemma {:induction false} PowerProduct(a: Residue, b: Residue, e: nat)
    ensures Power(FMul(a, b), e) == FMul(Power(a, e), Power(b, e))
  {
    hide FMul;
    if e == 0 {
      FMulOne(1);
    } else {
      PowerProduct(a, b, e - 1);
      FMulPairs(a, b, Power(a, e - 1), Power(b, e - 1));
    }
  }

  /** x2 / z2 does not depend on the representative. */
  lemma RatioUnscaled(x: Residue, z: Residue, s: Residue)
    requires s != 0
    ensures FMul(FMul(s, x), Power(FMul(s, z), P - 2)) == FMul(x, Power(z, P - 2))
  {
    hide FMul, Power;
    PowerProduct(s, z, P - 2);
    FMulPairs(s, x, Power(s, P - 2), Power(z, P - 2));
    InverseOf(s);
    FMulOne(FMul(x, Power(z, P - 2)));
  }

  /** With u = 0 every z coordinate is 0 after the first step. */
  lemma {:induction false} ZeroLadder(k: nat, bits: nat, n: nat)
    requires 1 <= n <= bits
    ensures Ladder(k, 0, bits, n).pair.z2 == 0 && Ladder(k, 0, bits, n).pair.z3 == 0
  {
    hide Step, Bit;
    var l, b := Ladder(k, 0, bits, n - 1), Bit(k, bits - n);
    if n > 1 {
      ZeroLadder(k, bits, n - 1);
      ZeroStep(Swap(l.swap != b, l.pair));
    } else {
      assert l == State(Pair(1, 0, 0, 1), false);
      ZeroFirst(b);
    }
  }

  lemma ZeroStep(p: Pair)
    requires p.z2 == 0 && p.z3 == 0
    ensures Step(0, p).z2 == 0 && Step(0, p).z3 == 0
  {
    PlusZero(p.x2);
    hide FMul, FAdd, FSub;
    var xx := FMul(p.x2, p.x2);
    MinusItself(xx);
    TimesZero(FAdd(xx, FMul(A24, 0)));
    TimesZero(FMul(Diff(p), Diff(p)));
  }

  lemma PlusZero(x: Residue)
    ensures FAdd(x, 0) == x && FSub(x, 0) == x
  {
  }

  lemma MinusItself(x: Residue)
    ensures FSub(x, x) == 0
  {
  }

  function Diff(p: Pair): Residue {
    FSub(FMul(FSub(p.x3, p.z3), FAdd(p.x2, p.z2)), FMul(FAdd(p.x3, p.z3), FSub(p.x2, p.z2)))
  }

  lemma ZeroFirst(b: bool)
    ensures Step(0, Swap(b, Pair(1, 0, 0, 1))).z2 == 0 && Step(0, Swap(b, Pair(1, 0, 0, 1))).z3 == 0
  {
    if b {
      MinusOneSquared();
      hide FMul;
      var p := Pair(0, 1, 1, 0);
      FMulOne(1);
      assert FAdd(0, 1) == 1 && FSub(0, 1) == P - 1 && FSub(1, 1) == 0;
      TimesZero(FAdd(1, FMul(A24, 0)));
      TimesZero(FMul(Diff(p), Diff(p)));
    } else {
      FirstStep(0);
      hide FMul, Step;
      TimesZero(1);
      TimesZero(4);
    }
  }

  lemma MinusOneSquared()
    ensures FMul(P - 1, P - 1) == 1
  {
  }

  /** The result of x25519 on a clamped scalar is that of section 5 of RFC 7748. */
  lemma SameAsRfc7748(k: nat, u: Residue)
    requires !Bit(k, 255)
    ensures ScalarMult(k, u, 256) == ScalarMult(k, u, 255)
  {
    hide FMul, Power, Step, Bit, Ladder;
    var wide, narrow := Ladder(k, u, 256, 256), Ladder(k, u, 255, 255);
    if u == 0 {
      ZeroLadder(k, 256, 256);
      ZeroLadder(k, 255, 255);
      PowerZero();
      TimesZero(LadderResult(k, u, 256).x2);
      TimesZero(LadderResult(k, u, 255).x2);
    } else {
      var s, t := LadderScales(k, u, 255);
      SwapScales(narrow.swap, narrow.pair, s, t);
      var r := Swap(narrow.swap, narrow.pair);
      RatioUnscaled(r.x2, r.z2, if narrow.swap then t else s);
    }
  }

  lemma PowerZero()
    ensures Power(0, P - 2) == 0
  {
  }

  /** Clamping clears bit 255. */
  lemma ClampedTopBit(scalar: seq<u8>)
    requires |scalar| == 32
    ensures !Bit(Le(Clamp(scalar)), 255)
  {
    var c := Clamp(scalar);
    ClampedLast(scalar[31]);
    hide Le, Pow2, Clamp, Bit;
    TopByte(c);
    BitClear(Le(c));
  }

  /** The top bit of 32 bytes is bit 255 of their value. */
  lemma TopByte(c: seq<u8>)
    requires |c| == 32
    ensures c[31] < 128 <==> Le(c) < Pow2(255)
  {
    hide Le, Pow2;
    assert c == c[..31] + [c[31]];
    LeBound(c[..31]);
    LeConcat(c[..31], [c[31]]);
    LeOne(c[31]);
    Pow2Add(248, 7);
    SmallPow();
    BelowTop(Le(c[..31]), c[31], Pow2(248));
  }

  lemma BitClear(n: nat)
    requires n < Pow2(255)
    ensures !Bit(n, 255)
  {
    DivModUnique(n, Pow2(255), 0, n);
  }

  lemma SmallPow()
    ensures Pow2(7) == 128
  {
  }

  lemma LeOne(b: u8)
    ensures Le([b]) == b
  {
  }

  lemma ClampedLast(b: u8)
    ensures Or(And(b, 127), 64) < 128
  {
    OrBound(And(b, 127), 64, 7);
  }

  lemma BelowTop(low: nat, last: nat, m: nat)
    requires low < m
    ensures low + m * last < m * 128 <==> last < 128
  {
    if last < 128 {
      MulAtMost(m, last, 127);
    } else {
      MulAtMost(m, 128, last);
    }
  }

  lemma MulAtMost(m: nat, x: nat, y: nat)
    requires x <= y
    ensures m * x <= m * y
  {
  }

  /* ---- The function of RFC 7748 ---- */

  /** decodeUCoordinate for 255 bits: the top bit of the last byte is masked. */
  function MaskTop(u: seq<u8>): (m: seq<u8>)
    requires |u| == 32
    ensures |m| == 32
  {
    u[..31] + [And(u[31], 127)]
  }

  /** X25519 of section 5 of RFC 7748. */
  function Rfc7748(scalar: seq<u8>, u: seq<u8>): (r: seq<u8>)
    requires |scalar| == 32 && |u| == 32
  {
    ToLe(ScalarMult(Le(Clamp(scalar)), Le(MaskTop(u)) % P, 255), 32)
  }

  lemma MaskedAlready(u: seq<u8>)
    requires |u| == 32 && u[31] < 128
    ensures MaskTop(u) == u
  {
    LowBits(u[31]);
    hide And;
    assert u == u[..31] + [u[31]];
  }

  lemma LowBits(b: u8)
    requires b < 128
    ensures And(b, 127) == b
  {
    SmallPow();
    hide And, Pow2;
    AndMask(b, 7);
  }

  /** The least residue of a base, as bytes, has a clear top bit and the same value modulo p. */
  lemma Canonical(u: nat)
    ensures var c := ToLe(u % P, 32); Le(c) == u % P && c[31] < 128
  {
    Pow2At255();
    hide Le, ToLe, Pow2;
    LeToLe(u % P, 32);
    TopByte(ToLe(u % P, 32));
  }

  lemma Pow2At255()
    ensures P < Pow2(255) < Pow2(8 * 32)
  {
    Pow2Values();
    assert Pow2(1) == 2;
    hide Pow2;
    Pow2Add(64, 64);
    Pow2Add(128, 128);
    Pow2Add(255, 1);
  }

  lemma Combined(scalar: seq<u8>, base: seq<u8>)
    requires |scalar| == 32 && |base| == 32
    ensures ToLe(ScalarMult(Le(Clamp(scalar)), Le(base) % P, 256), 32) == Rfc7748(scalar, ToLe(Le(base) % P, 32))
    ensures base[31] < 128 ==> ToLe(ScalarMult(Le(Clamp(scalar)), Le(base) % P, 256), 32) == Rfc7748(scalar, base)
  {
    hide Le, ToLe, Clamp, MaskTop, ScalarMult, Bit;
    ClampedTopBit(scalar);
    SameAsRfc7748(Le(Clamp(scalar)), Le(base) % P);
    Canonical(Le(base));
    MaskedAlready(ToLe(Le(base) % P, 32));
    if base[31] < 128 {
      MaskedAlready(base);
    }
  }

  /** wireguard_x25519: the function of RFC 7748 on the base reduced modulo p, so on every base whose
      top bit is clear; -1 exactly when all bytes are zero. */
  method WireguardX25519(out: array<u8>, scalar: seq<u8>, base: seq<u8>) returns (ret: int)
    requires out.Length == 32 && |scalar| == 32 && |base| == 32
    modifies out
    ensures out[..] == Rfc7748(scalar, ToLe(Le(base) % P, 32))
    ensures base[31] < 128 ==> out[..] == Rfc7748(scalar, base)
    ensures ret == if Le(out[..]) == 0 then -1 else 0
  {
    hide Le, ToLe, Clamp, MaskTop, ScalarMult, Rfc7748;
    Combined(scalar, base);
    ret := X25519.ScalarMultiply(out, scalar, base, true);
    ghost var r := ScalarMult(Le(Clamp(scalar)), Le(base) % P, 256);
    Canonical(r);
    assert r % P == r;
  }
}
