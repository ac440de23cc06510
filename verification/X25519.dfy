/** Section 5 of RFC 7748 on residues modulo 2^255 - 19. */
module X25519Spec {
  import opened Words
  import opened Bits
  import opened Bytes
  import opened Limbs256

  type Residue = x: nat | x < P

  function FAdd(a: Residue, b: Residue): Residue { (a as nat + b as nat) % P }
  function FSub(a: Residue, b: Residue): Residue { (a as int - b as int) % P }
  function FMul(a: Residue, b: Residue): Residue { (a as nat * b as nat) % P }

  const A24: Residue := 121665

  /** The two projective x-coordinates (x2:z2) and (x3:z3). */
  datatype Pair = Pair(x2: Residue, z2: Residue, x3: Residue, z3: Residue)

  function Swap(doSwap: bool, p: Pair): Pair {
    if doSwap then Pair(p.x3, p.z3, p.x2, p.z2) else p
  }

  /** The body of the loop of section 5. */
  function Step(u: Residue, p: Pair): Pair {
    var a := FAdd(p.x2, p.z2);
    var aa := FMul(a, a);
    var b := FSub(p.x2, p.z2);
    var bb := FMul(b, b);
    var e := FSub(aa, bb);
    var c := FAdd(p.x3, p.z3);
    var d := FSub(p.x3, p.z3);
    var da := FMul(d, a);
    var cb := FMul(c, b);
    var sum := FAdd(da, cb);
    var diff := FSub(da, cb);
    Pair(FMul(aa, bb), FMul(e, FAdd(aa, FMul(A24, e))), FMul(sum, sum), FMul(u, FMul(diff, diff)))
  }

  function Bit(k: nat, t: nat): bool {
    k / Pow2(t) % 2 == 1
  }

  datatype State = State(pair: Pair, swap: bool)

  /** n steps of the ladder over a scalar of `bits` bits, from the top bit down. */
  function Ladder(k: nat, u: Residue, bits: nat, n: nat): State
    requires n <= bits
  {
    if n == 0 then State(Pair(1, 0, u, 1), false)
    else
      var s := Ladder(k, u, bits, n - 1);
      var b := Bit(k, bits - n);
      State(Step(u, Swap(s.swap != b, s.pair)), b)
  }

  function LadderResult(k: nat, u: Residue, bits: nat): Pair {
    var s := Ladder(k, u, bits, bits);
    Swap(s.swap, s.pair)
  }

  function Power(z: Residue, e: nat): Residue {
    if e == 0 then 1 else FMul(z, Power(z, e - 1))
  }

  /** x2 * z2^(p - 2) after the ladder. */
  function ScalarMult(k: nat, u: Residue, bits: nat): Residue {
    var p := LadderResult(k, u, bits);
    FMul(p.x2, Power(p.z2, P - 2))
  }

  /** decodeScalar25519 */
  function Clamp(scalar: seq<u8>): seq<u8>
    requires |scalar| == 32
  {
    [And(scalar[0], 248)] + scalar[1..31] + [Or(And(scalar[31], 127), 64)]
  }

  /* ---- Residues ---- */

  lemma AddResidues(a: nat, b: nat)
    ensures (a + b) % P == FAdd(a % P, b % P)
  {
  }

  lemma SubResidues(a: nat, b: nat)
    ensures (a - b) % P == FSub(a % P, b % P)
  {
  }

  lemma ReduceLeft(x: nat, c: nat)
    ensures (x % P) * c % P == x * c % P
  {
    var q, r := x / P, x % P;
    Multiples(x, q, r, c);
    Congruent(x * c, r * c, q * c);
  }

  lemma Multiples(x: nat, q: nat, r: nat, c: nat)
    requires x == P * q + r
    ensures x * c == r * c + P * (q * c)
  {
  }

  lemma ReduceRight(c: nat, x: nat)
    ensures c * (x % P) % P == c * x % P
  {
    ReduceLeft(x, c);
    assert (x % P) * c == c * (x % P) && x * c == c * x;
  }

  lemma FMulComm(a: Residue, b: Residue)
    ensures FMul(a, b) == FMul(b, a)
  {
  }

  lemma FMulOne(x: Residue)
    ensures FMul(1, x) == x
  {
  }

  lemma FAddComm(a: Residue, b: Residue)
    ensures FAdd(a, b) == FAdd(b, a)
  {
  }

  lemma FSubBack(a: Residue, b: Residue)
    ensures FSub(a, FSub(a, b)) == b
  {
  }

  /** The product of three, however it is bracketed. */
  function FMul3(a: Residue, b: Residue, c: Residue): Residue {
    a * b * c % P
  }

  lemma FMulLeftmost(a: Residue, b: Residue, c: Residue)
    ensures FMul(FMul(a, b), c) == FMul3(a, b, c)
  {
    ReduceLeft(a * b, c);
  }

  lemma FMulRightmost(a: Residue, b: Residue, c: Residue)
    ensures FMul(a, FMul(b, c)) == FMul3(a, b, c)
  {
    ReduceRight(a, b * c);
    Reassociate(a, b, c);
  }

  lemma Reassociate(a: nat, b: nat, c: nat)
    ensures (a * b) * c == a * (b * c)
  {
  }
}

/** The ladder and the inversion chain of x25519.c, over the work area `fe xs[5]`. */
module X25519Ladder {
  import opened Words
  import opened Bits
  import opened Bytes
  import opened Limbs256
  import opened Field25519
  import opened X25519Spec

  /** The 40 words of the work area. */
  type Area = s: seq<u32> | |s| == 40 witness seq(40, _ => 0)

  /** The value in slot t of the work area. */
  ghost function Slot(s: Area, t: nat): (v: nat)
    requires t < 5
  {
    Val(s[8 * t..8 * t + 8])
  }

  ghost function R(s: Area, t: nat): (r: Residue)
    requires t < 5
  {
    Slot(s, t) % P
  }

  /** Every slot but d is as before. */
  ghost predicate OnlySlot(before: Area, after: Area, d: nat)
  {
    forall t {:trigger Slot(after, t)} :: 0 <= t < 5 && t != d ==> Slot(after, t) == Slot(before, t)
  }

  lemma OtherSlots(before: Area, after: Area, d: nat)
    requires d < 5 && forall k :: 0 <= k < 40 && !(8 * d <= k < 8 * d + 8) ==> after[k] == before[k]
    ensures OnlySlot(before, after, d)
  {
    hide Val;
    forall t | 0 <= t < 5 && t != d
      ensures Slot(after, t) == Slot(before, t)
    {
      assert after[8 * t..8 * t + 8] == before[8 * t..8 * t + 8];
    }
  }

  method AddS(xs: array<u32>, d: nat, a: nat, b: nat)
    requires xs.Length == 40 && d < 5 && a < 5 && b < 5
    modifies xs
    ensures OnlySlot(old(xs[..]), xs[..], d) && Slot(xs[..], d) < BOUND
    ensures R(xs[..], d) == FAdd(old(R(xs[..], a)), old(R(xs[..], b)))
  {
    hide Val, FAdd, OnlySlot;
    ghost var s := xs[..];
    assert s[8 * a..8 * a + 8] == Fe(xs, 8 * a) && s[8 * b..8 * b + 8] == Fe(xs, 8 * b);
    AddResidues(Slot(s, a), Slot(s, b));
    Add(xs, 8 * d, xs, 8 * a, xs, 8 * b);
    assert xs[..][8 * d..8 * d + 8] == Fe(xs, 8 * d);
    OtherSlots(s, xs[..], d);
  }

  method SubS(xs: array<u32>, d: nat, a: nat, b: nat)
    requires xs.Length == 40 && d < 5 && a < 5 && b < 5 && Slot(xs[..], b) < BOUND
    modifies xs
    ensures OnlySlot(old(xs[..]), xs[..], d) && Slot(xs[..], d) < BOUND
    ensures R(xs[..], d) == FSub(old(R(xs[..], a)), old(R(xs[..], b)))
  {
    hide Val, FSub, OnlySlot;
    ghost var s := xs[..];
    assert s[8 * a..8 * a + 8] == Fe(xs, 8 * a) && s[8 * b..8 * b + 8] == Fe(xs, 8 * b);
    SubResidues(Slot(s, a), Slot(s, b));
    Sub(xs, 8 * d, xs, 8 * a, xs, 8 * b);
    assert xs[..][8 * d..8 * d + 8] == Fe(xs, 8 * d);
    OtherSlots(s, xs[..], d);
  }

  method MulS(xs: array<u32>, d: nat, a: nat, b: nat)
    requires xs.Length == 40 && d < 5 && a < 5 && b < 5
    modifies xs
    ensures OnlySlot(old(xs[..]), xs[..], d) && Slot(xs[..], d) < BOUND
    ensures R(xs[..], d) == FMul(old(R(xs[..], a)), old(R(xs[..], b)))
  {
    hide Val, OnlySlot;
    ghost var s := xs[..];
    assert s[8 * a..8 * a + 8] == Fe(xs, 8 * a) && s[8 * b..8 * b + 8] == Fe(xs, 8 * b);
    assert FMul(R(s, a), R(s, b)) == Slot(s, a) * Slot(s, b) % P by {
      ReduceLeft(Slot(s, a), Slot(s, b));
      ReduceRight(R(s, a), Slot(s, b));
    }
    hide FMul;
    Mul(xs, 8 * d, xs, 8 * a, xs, 8 * b, 8);
    assert xs[..][8 * d..8 * d + 8] == Fe(xs, 8 * d);
    OtherSlots(s, xs[..], d);
  }

  /** Multiplication by a number outside the work area: a24 or x1. */
  method MulOut(xs: array<u32>, d: nat, a: nat, k: array<u32>)
    requires xs.Length == 40 && d < 5 && a < 5 && k != xs && k.Length <= 8
    modifies xs
    ensures OnlySlot(old(xs[..]), xs[..], d) && Slot(xs[..], d) < BOUND
    ensures R(xs[..], d) == FMul(old(R(xs[..], a)), Val(k[..]) % P)
  {
    hide Val, OnlySlot;
    ghost var s := xs[..];
    assert s[8 * a..8 * a + 8] == Fe(xs, 8 * a) && k[0..0 + k.Length] == k[..];
    assert FMul(R(s, a), Val(k[..]) % P) == Slot(s, a) * Val(k[..]) % P by {
      ReduceLeft(Slot(s, a), Val(k[..]));
      ReduceRight(R(s, a), Val(k[..]));
    }
    hide FMul;
    Mul(xs, 8 * d, xs, 8 * a, k, 0, k.Length);
    assert xs[..][8 * d..8 * d + 8] == Fe(xs, 8 * d);
    OtherSlots(s, xs[..], d);
  }

  const X2 := 0
  const Z2 := 1
  const X3 := 2
  const Z3 := 3
  const T1 := 4

  ghost function PairOf(s: Area): Pair {
    Pair(R(s, X2), R(s, Z2), R(s, X3), R(s, Z3))
  }

  /** What ladder_part1 leaves in the five slots. */
  ghost predicate AfterPart1(p: Pair, s: Area)
  {
    var a, b := FAdd(p.x2, p.z2), FSub(p.x2, p.z2);
    var aa, e := FMul(a, a), FSub(FMul(a, a), FMul(b, b));
    var da, cb := FMul(a, FSub(p.x3, p.z3)), FMul(b, FAdd(p.x3, p.z3));
    && R(s, T1) == aa && R(s, X2) == e && R(s, Z2) == FAdd(FMul(e, A24), aa)
    && R(s, X3) == FAdd(da, cb) && R(s, Z3) == FSub(da, cb)
  }

  ghost predicate AllSmall(s: Area) {
    Slot(s, X2) < BOUND && Slot(s, Z2) < BOUND && Slot(s, X3) < BOUND && Slot(s, Z3) < BOUND && Slot(s, T1) < BOUND
  }

  /** A, B, DA and BC. */
  ghost predicate AfterProducts(p: Pair, s: Area)
  {
    && R(s, T1) == FAdd(p.x2, p.z2) && R(s, Z2) == FSub(p.x2, p.z2)
    && R(s, Z3) == FMul(FAdd(p.x2, p.z2), FSub(p.x3, p.z3))
    && R(s, X2) == FMul(FSub(p.x2, p.z2), FAdd(p.x3, p.z3))
  }

  method LadderPart1(xs: array<u32>, a24: array<u32>)
    requires xs.Length == 40 && Slot(xs[..], Z2) < BOUND && Slot(xs[..], Z3) < BOUND
    requires a24 != xs && a24[..] == [121665]
    modifies xs
    ensures AfterPart1(old(PairOf(xs[..])), xs[..]) && AllSmall(xs[..])
  {
    hide FAdd, FSub, FMul, Slot, AfterPart1, AfterProducts;
    Products(xs);
    SumsAndSquares(xs, a24, old(PairOf(xs[..])));
  }

  method Products(xs: array<u32>)
    requires xs.Length == 40 && Slot(xs[..], Z2) < BOUND && Slot(xs[..], Z3) < BOUND
    modifies xs
    ensures AfterProducts(old(PairOf(xs[..])), xs[..])
    ensures Slot(xs[..], X2) < BOUND && Slot(xs[..], Z2) < BOUND && Slot(xs[..], Z3) < BOUND && Slot(xs[..], T1) < BOUND
  {
    hide FAdd, FSub, FMul, Slot;
    AddS(xs, T1, X2, Z2);    // A
    SubS(xs, Z2, X2, Z2);    // B
    AddS(xs, X2, X3, Z3);    // C
    SubS(xs, Z3, X3, Z3);    // D
    MulS(xs, Z3, T1, Z3);    // DA
    MulS(xs, X2, Z2, X2);    // BC
  }

  lemma A24Value()
    ensures Val([121665]) % P == A24
  {
  }

  method SumsAndSquares(xs: array<u32>, a24: array<u32>, ghost p: Pair)
    requires xs.Length == 40 && AfterProducts(p, xs[..]) && a24 != xs && a24[..] == [121665]
    requires Slot(xs[..], X2) < BOUND && Slot(xs[..], Z2) < BOUND && Slot(xs[..], Z3) < BOUND && Slot(xs[..], T1) < BOUND
    modifies xs
    ensures AfterPart1(p, xs[..]) && AllSmall(xs[..])
  {
    A24Value();
    hide FAdd, FSub, FMul, Slot, Val;
    AddS(xs, X3, Z3, X2);    // DA + CB
    SubS(xs, Z3, Z3, X2);    // DA - CB
    MulS(xs, T1, T1, T1);    // AA
    MulS(xs, Z2, Z2, Z2);    // BB
    SubS(xs, X2, T1, Z2);    // E
    MulOut(xs, Z2, X2, a24); // E * a24
    AddS(xs, Z2, Z2, T1);    // E * a24 + AA
  }

  method LadderPart2(xs: array<u32>, x1: array<u32>, ghost p: Pair)
    requires xs.Length == 40 && x1 != xs && x1.Length == 8
    requires AfterPart1(p, xs[..]) && AllSmall(xs[..])
    modifies xs
    ensures PairOf(xs[..]) == Step(Val(x1[..]) % P, p) && AllSmall(xs[..])
  {
    hide FAdd, FSub, FMul, Slot, Val, Step;
    ghost var e, aa, z2, sum, diff := R(xs[..], X2), R(xs[..], T1), R(xs[..], Z2), R(xs[..], X3), R(xs[..], Z3);
    MulS(xs, Z3, Z3, Z3);    // (DA - CB)^2
    MulOut(xs, Z3, Z3, x1);  // x1 * (DA - CB)^2
    MulS(xs, X3, X3, X3);    // (DA + CB)^2
    MulS(xs, Z2, X2, Z2);    // E * (E * a24 + AA)
    SubS(xs, X2, T1, X2);    // BB again
    MulS(xs, X2, T1, X2);    // AA * BB
    StepIs(Val(x1[..]) % P, p);
  }

  /** The order of operands and the detour by AA - E in the code change nothing. */
  lemma StepIs(u: Residue, p: Pair)
    ensures var a, b := FAdd(p.x2, p.z2), FSub(p.x2, p.z2);
            var aa, bb := FMul(a, a), FMul(b, b);
            var e := FSub(aa, bb);
            var da, cb := FMul(a, FSub(p.x3, p.z3)), FMul(b, FAdd(p.x3, p.z3));
            Step(u, p) == Pair(FMul(aa, FSub(aa, e)), FMul(e, FAdd(FMul(e, A24), aa)),
              FMul(FAdd(da, cb), FAdd(da, cb)), FMul(FMul(FSub(da, cb), FSub(da, cb)), u))
  {
    hide FAdd, FSub, FMul;
    var a, b := FAdd(p.x2, p.z2), FSub(p.x2, p.z2);
    var aa, bb := FMul(a, a), FMul(b, b);
    var e := FSub(aa, bb);
    FSubBack(aa, bb);
    FMulComm(e, A24);
    FAddComm(FMul(e, A24), aa);
    FMulComm(a, FSub(p.x3, p.z3));
    FMulComm(b, FAdd(p.x3, p.z3));
    var da, cb := FMul(a, FSub(p.x3, p.z3)), FMul(b, FAdd(p.x3, p.z3));
    FMulComm(FMul(FSub(da, cb), FSub(da, cb)), u);
  }

  /* ---- condswap ---- */

  /** `(a ^ b) & doswap`, xored into both words. */
  method SwapWords(a: u32, b: u32, doswap: u32) returns (a': u32, b': u32)
    requires doswap == 0 || doswap == 0xffff_ffff
    ensures if doswap == 0 then a' == a && b' == b else a' == b && b' == a
  {
    SwapByXor(a, b);
    hide Xor, And;
    var x := Xor(a, b);
    Mask32(x);
    AndZero(x);
    var m := And(x, doswap);
    a', b' := Xor(a, m), Xor(b, m);
  }

  lemma SwapByXor(a: u32, b: u32)
    ensures Xor(a, b) < W32
    ensures Xor(a, Xor(a, b)) == b && Xor(b, Xor(a, b)) == a
    ensures Xor(a, 0) == a && Xor(b, 0) == b
  {
    XorZero(a);
    XorZero(b);
    Pow2Values();
    hide Xor;
    XorBound(a, b, 32);
    XorCancel(a, b);
    XorCancel(b, a);
    XorComm(a, b);
    XorComm(Xor(a, b), a);
    XorComm(Xor(a, b), b);
  }

  lemma XorZero(a: nat)
    ensures Xor(a, 0) == a
  {
  }

  /** Swaps the sixteen words at 0 with the sixteen at 16: (x2, z2) with (x3, z3). */
  method CondSwap(xs: array<u32>, doswap: u32)
    requires xs.Length == 40 && (doswap == 0 || doswap == 0xffff_ffff)
    modifies xs
    ensures PairOf(xs[..]) == Swap(doswap != 0, old(PairOf(xs[..])))
    ensures old(AllSmall(xs[..])) ==> AllSmall(xs[..])
    ensures Slot(xs[..], Z2) == if doswap == 0 then old(Slot(xs[..], Z2)) else old(Slot(xs[..], Z3))
    ensures Slot(xs[..], Z3) == if doswap == 0 then old(Slot(xs[..], Z3)) else old(Slot(xs[..], Z2))
  {
    ghost var s := xs[..];
    for i := 0 to 16
      invariant forall k {:trigger xs[k]} :: 0 <= k < 40 ==> xs[k] == if k < i || 16 <= k < 16 + i then
        (if doswap == 0 then s[k] else if k < 16 then s[k + 16] else s[k - 16]) else s[k]
    {
      xs[i], xs[16 + i] := SwapWords(xs[i], xs[16 + i], doswap);
    }
    SwappedSlots(s, xs[..], doswap != 0);
  }

  lemma SwappedSlots(s: Area, t: Area, swapped: bool)
    requires forall k {:trigger t[k]} :: 0 <= k < 40 ==>
      t[k] == if k < 32 && swapped then (if k < 16 then s[k + 16] else s[k - 16]) else s[k]
    ensures Slot(t, X2) == if swapped then Slot(s, X3) else Slot(s, X2)
    ensures Slot(t, Z2) == if swapped then Slot(s, Z3) else Slot(s, Z2)
    ensures Slot(t, X3) == if swapped then Slot(s, X2) else Slot(s, X3)
    ensures Slot(t, Z3) == if swapped then Slot(s, Z2) else Slot(s, Z3)
    ensures Slot(t, T1) == Slot(s, T1)
  {
    hide Val;
    assert t[32..40] == s[32..40];
    if swapped {
      assert t[0..8] == s[16..24] && t[8..16] == s[24..32] && t[16..24] == s[0..8] && t[24..32] == s[8..16];
    } else {
      assert t == s;
    }
  }

  /* ---- The scalar, bit by bit ---- */

  /** Bit t of a little-endian number is bit t % 8 of its byte t / 8. */
  lemma BytePlace(t: nat)
    requires t >= 8
    ensures (t - 8) / 8 == t / 8 - 1 && (t - 8) % 8 == t % 8
  {
  }

  lemma {:induction false} BitOfLe(s: seq<u8>, t: nat)
    requires t < 8 * |s|
    ensures Bit(Le(s), t) == (ShiftRight(s[t / 8], t % 8) % 2 == 1)
    decreases |s|
  {
    hide Pow2;
    var rest := Le(s[1..]);
    if t < 8 {
      LowBit(s[0], rest, t);
    } else {
      BytePlace(t);
      BitOfLe(s[1..], t - 8);
      HighBits(s[0], rest, t);
    }
  }

  lemma HighBits(b: u8, rest: nat, t: nat)
    requires t >= 8
    ensures (b as nat + 256 * rest) / Pow2(t) == rest / Pow2(t - 8)
  {
    Pow2Values();
    Pow2Add(8, t - 8);
    hide Pow2;
    DivDiv(b as nat + 256 * rest, 256, Pow2(t - 8));
  }

  lemma LowBit(b: u8, rest: nat, t: nat)
    requires t < 8
    ensures (b as nat + 256 * rest) / Pow2(t) % 2 == b as nat / Pow2(t) % 2
  {
    assert Pow2(7) == 128;
    hide Pow2;
    Pow2Add(t, 7 - t);
    LowBitAt(b, rest, Pow2(t), Pow2(7 - t));
  }

  lemma HighPart(m: nat, n: nat, rest: nat)
    requires m * n == 128
    ensures 256 * rest == m * (2 * (n * rest))
  {
  }

  lemma LowBitAt(b: nat, rest: nat, m: nat, n: nat)
    requires m * n == 128 && m > 0
    ensures (b + 256 * rest) / m % 2 == b / m % 2
  {
    HighPart(m, n, rest);
    LowBitOf(b, m, n * rest);
  }

  lemma LowBitOf(b: nat, m: nat, h: nat)
    requires m > 0
    ensures (b + m * (2 * h)) / m % 2 == b / m % 2
  {
    var q, r := b / m, b % m;
    assert (q + 2 * h) * m == q * m + m * (2 * h);
    DivModUnique(b + m * (2 * h), m, q + 2 * h, r);
  }

  function Scalar(scalar: seq<u8>, clamp: bool): (s: seq<u8>)
    requires |scalar| == 32
    ensures |s| == 32
  {
    if clamp then Clamp(scalar) else scalar
  }

  /** The byte of the scalar that holds bit i, clamped on the fly. */
  method ScalarByte(scalar: seq<u8>, i: nat, clamp: bool) returns (b: u8)
    requires |scalar| == 32 && i < 256
    ensures b == Scalar(scalar, clamp)[i / 8]
  {
    hide And, Or, Pow2;
    ClampLast(scalar[31]);
    var byte := i / 8;
    assert byte < 32;
    b := scalar[byte];
    if clamp {
      if byte == 0 {
        b := And(b, 248);
      } else if byte == 31 {
        b := And(b, 0x7f);
        b := Or(b, 0x40);
      }
    }
  }

  lemma ClampLast(b: u8)
    ensures Or(And(b, 0x7f), 0x40) < 256
  {
  }

  /** All ones when bit i of the scalar is set: the mask handed to condswap. */
  method BitMask(scalar: seq<u8>, i: nat, clamp: bool) returns (m: u32)
    requires |scalar| == 32 && i < 256
    ensures m == if Bit(Le(Scalar(scalar, clamp)), i) then 0xffff_ffff else 0
  {
    hide Scalar, Le, And, ShiftRight;
    BitOfLe(Scalar(scalar, clamp), i);
    var b := ScalarByte(scalar, i, clamp);
    AndOne(ShiftRight(b, i % 8));
    m := Sub32(0, And(ShiftRight(b, i % 8), 1));
  }

  /** `b >> n` */
  function ShiftRight(b: nat, n: nat): (r: nat)
  {
    DivNonNegative(b, Pow2(n));
    b / Pow2(n)
  }

  lemma AndOne(x: nat)
    ensures And(x, 1) == x % 2
  {
  }

  /** memcpy of 32 bytes into limbs on the little-endian target. */
  method SwapIn(bytes: seq<u8>) returns (x: array<u32>)
    requires |bytes| == 32
    ensures fresh(x) && x.Length == 8 && Val(x[..]) == Le(bytes)
  {
    hide Le, Val, U8To32;
    x := new u32[8];
    for i := 0 to 8
      invariant forall k {:trigger x[k]} :: 0 <= k < i ==> x[k] == U8To32(bytes, 4 * k)
    {
      U8To32IsLe(bytes, 4 * i);
      x[i] := U8To32(bytes, 4 * i);
    }
    LimbsOfBytes(x[..], bytes);
  }

  lemma {:induction false} LimbsOfBytes(x: seq<u32>, bytes: seq<u8>)
    requires WordsOf(x, bytes)
    ensures Val(x) == Le(bytes)
  {
    if |x| > 0 {
      WordsTail(x, bytes);
      LimbsOfBytes(x[1..], bytes[4..]);
      hide Word, Le, U8To32;
      LeTail(bytes);
      U8To32IsLe(bytes, 0);
      assert x[0] == U8To32(bytes, 4 * 0);
    }
  }

  ghost predicate WordsOf(x: seq<u32>, bytes: seq<u8>)
  {
    |bytes| == 4 * |x| && forall k {:trigger x[k]} :: 0 <= k < |x| ==> x[k] == U8To32(bytes, 4 * k)
  }

  lemma WordsTail(x: seq<u32>, bytes: seq<u8>)
    requires |x| > 0 && WordsOf(x, bytes)
    ensures WordsOf(x[1..], bytes[4..])
  {
    hide Word, U8To32;
    forall k | 0 <= k < |x[1..]|
      ensures x[1..][k] == U8To32(bytes[4..], 4 * k)
    {
      assert x[1..][k] == x[k + 1];
      U8To32IsLe(bytes, 4 * (k + 1));
      U8To32IsLe(bytes[4..], 4 * k);
    }
  }

  /* ---- The 256 steps ---- */

  /** The work area after n steps of the ladder. */
  ghost predicate InLadder(s: Area, swap: u32, k: nat, u: Residue, n: nat)
    requires n <= 256
  {
    && PairOf(s) == Ladder(k, u, 256, n).pair
    && swap == (if Ladder(k, u, 256, n).swap then 0xffff_ffff else 0)
    && Slot(s, Z2) < BOUND && Slot(s, Z3) < BOUND
  }

  method OneStep(xs: array<u32>, x1: array<u32>, a24: array<u32>, swap: u32, doswap: u32, ghost k: nat, ghost n: nat)
    requires xs.Length == 40 && x1 != xs && x1.Length == 8 && a24 != xs && a24[..] == [121665] && n < 256
    requires InLadder(xs[..], swap, k, Val(x1[..]) % P, n)
    requires doswap == if Bit(k, 256 - (n + 1)) then 0xffff_ffff else 0
    modifies xs
    ensures InLadder(xs[..], doswap, k, Val(x1[..]) % P, n + 1)
  {
    hide Step, Val, AfterPart1, Bit, Slot;
    XorMasks(swap, doswap);
    hide Xor;
    CondSwap(xs, Xor(swap, doswap));
    ghost var p := PairOf(xs[..]);
    LadderPart1(xs, a24);
    LadderPart2(xs, x1, p);
  }

  lemma XorMasks(a: u32, b: u32)
    requires (a == 0 || a == 0xffff_ffff) && (b == 0 || b == 0xffff_ffff)
    ensures Xor(a, b) == if a == b then 0 else 0xffff_ffff
  {
    XorSelf(a);
    XorZero(a);
  }

  /** x25519_core: the work area ends with the result of the ladder in x2 and z2. */
  method Core(xs: array<u32>, scalar: seq<u8>, base: seq<u8>, clamp: bool)
    requires xs.Length == 40 && |scalar| == 32 && |base| == 32
    modifies xs
    ensures PairOf(xs[..]) == LadderResult(Le(Scalar(scalar, clamp)), Le(base) % P, 256)
  {
    hide Val, Scalar, Step, Le, Slot, InLadder;
    var x1 := SwapIn(base);
    var a24 := new u32[1][121665];
    ghost var k, u := Le(Scalar(scalar, clamp)), Le(base) % P;
    var swap: u32 := 0;
    Start(xs, x1, k);
    var i := 255;
    while i >= 0
      invariant -1 <= i <= 255
      invariant InLadder(xs[..], swap, k, u, 255 - i)
      invariant a24[..] == [121665] && Val(x1[..]) % P == u
    {
      var doswap := BitMask(scalar, i, clamp);
      OneStep(xs, x1, a24, swap, doswap, k, 255 - i);
      swap := doswap;
      i := i - 1;
    }
    FinalSwap(xs, swap, k, u);
  }

  method FinalSwap(xs: array<u32>, swap: u32, ghost k: nat, ghost u: Residue)
    requires xs.Length == 40 && InLadder(xs[..], swap, k, u, 256)
    modifies xs
    ensures PairOf(xs[..]) == LadderResult(k, u, 256)
  {
    hide Val, Step, Ladder, Slot;
    CondSwap(xs, swap);
  }

  /** The memset and the three initial coordinates. */
  method Start(xs: array<u32>, x1: array<u32>, ghost k: nat)
    requires xs.Length == 40 && x1.Length == 8 && x1 != xs
    modifies xs
    ensures InLadder(xs[..], 0, k, Val(x1[..]) % P, 0)
  {
    hide Val;
    for i := 0 to 32
      invariant forall j {:trigger xs[j]} :: 0 <= j < i ==> xs[j] == 0
    {
      xs[i] := 0;
    }
    xs[0] := 1;
    xs[24] := 1;
    for i := 0 to 8
      invariant forall j {:trigger xs[j]} :: 0 <= j < 16 + i ==> xs[j] == if j == 0 then 1 else if j < 16 then 0 else x1[j - 16]
      invariant forall j {:trigger xs[j]} :: 24 <= j < 32 ==> xs[j] == if j == 24 then 1 else 0
    {
      xs[16 + i] := x1[i];
    }
    ghost var s := xs[..];
    assert s[16..24] == x1[..];
    OneLimb(s[0..8]);
    ValZeros(s[8..16]);
    OneLimb(s[24..32]);
  }

  lemma OneLimb(s: seq<u32>)
    requires |s| == 8 && s[0] == 1 && forall k :: 1 <= k < 8 ==> s[k] == 0
    ensures Val(s) == 1
  {
    ValZeros(s[1..]);
  }
}

/** Raising to p - 2 by the table of x25519.c, and the function as a whole. */
module X25519 {
  import opened Words
  import opened Bits
  import opened Bytes
  import opened Limbs256
  import opened Field25519
  import opened X25519Spec
  import opened X25519Ladder

  /** The table: target slot, slot to multiply by, number of squarings. */
  const STEPS: seq<(nat, nat, nat)> := [
    (2, 1, 1), (2, 1, 1), (4, 2, 3), (2, 4, 6), (3, 1, 1),
    (3, 2, 12), (4, 3, 25), (2, 3, 25), (2, 4, 50), (3, 2, 125),
    (3, 1, 2), (3, 1, 2), (3, 1, 1)]

  /** The exponent of z2 that each slot holds before row i; -1 where it holds none. */
  function Exponents(i: nat): (e: seq<int>)
    ensures |e| == 5
  {
    if i == 0 then [-1, 1, -1, -1, -1]
    else if i == 1 then [-1, 1, 3, -1, -1]
    else if i == 2 then [-1, 1, 7, -1, -1]
    else if i == 3 then [-1, 1, 7, -1, 63]
    else if i == 4 then [-1, 1, 0xfff, -1, 63]
    else if i == 5 then [-1, 1, 0xfff, 0x1fff, 63]
    else if i == 6 then [-1, 1, 0xfff, 0x1ffffff, 63]
    else if i == 7 then [-1, 1, 0xfff, 0x1ffffff, 0x3ffffffffffff]
    else if i == 8 then [-1, 1, 0x7ffffffffffffffffff, 0x1ffffff, 0x3ffffffffffff]
    else if i == 9 then [-1, 1, 0x1fffffffffffffffffffffffffffffff, 0x1ffffff, 0x3ffffffffffff]
    else if i == 10 then [-1, 1, 0x1fffffffffffffffffffffffffffffff, 0x3ffffffffffffffffffffffffffffffffffffffffffffffffffffffffffffff, 0x3ffffffffffff]
    else if i == 11 then [-1, 1, 0x1fffffffffffffffffffffffffffffff, 0xffffffffffffffffffffffffffffffffffffffffffffffffffffffffffffffd, 0x3ffffffffffff]
    else if i == 12 then [-1, 1, 0x1fffffffffffffffffffffffffffffff, 0x3ffffffffffffffffffffffffffffffffffffffffffffffffffffffffffffff5, 0x3ffffffffffff]
    else [-1, 1, 0x1fffffffffffffffffffffffffffffff, 0x7fffffffffffffffffffffffffffffffffffffffffffffffffffffffffffffeb, 0x3ffffffffffff]
  }

  /** The slot `prev` points to before row i. */
  function Previous(i: nat): nat
    requires i <= 13
  {
    if i == 0 then 1 else STEPS[i - 1].0
  }

  lemma FirstPowers()
    ensures Pow2(1) == 2 && Pow2(2) == 4 && Pow2(3) == 8
  {
  }

  lemma ChainPowers()
    ensures Pow2(1) == 2 && Pow2(2) == 4 && Pow2(3) == 8 && Pow2(6) == 64 && Pow2(12) == 0x1000
    ensures Pow2(25) == 0x200_0000 && Pow2(50) == 0x4_0000_0000_0000
    ensures Pow2(125) == 0x2000_0000_0000_0000_0000_0000_0000_0000
  {
    hide Pow2;
    Pow2Values();
    FirstPowers();
    Pow2Add(24, 1);
    Pow2Add(25, 25);
    Pow2Add(50, 50);
    Pow2Add(100, 25);
  }

  /** Row i of the table does what Exponents says, and never reads a slot that holds no power. */
  lemma RowExponents(i: nat)
    requires i < 13
    ensures var (a, c, n) := STEPS[i]; var e := Exponents(i);
      && 2 <= a < 5 && 1 <= c < 5 && a != c && n >= 1 && 1 <= Previous(i) < 5
      && e[Previous(i)] >= 0 && e[c] >= 0
      && Exponents(i + 1) == e[a := e[Previous(i)] * Pow2(n) + e[c]]
  {
    ChainPowers();
    hide Pow2;
    if i == 0 {
      assert STEPS[0] == STEPS[i];
    } else if i == 1 {
      assert STEPS[1] == STEPS[i];
    } else if i == 2 {
      assert STEPS[2] == STEPS[i];
    } else if i == 3 {
      assert STEPS[3] == STEPS[i];
    } else if i == 4 {
      assert STEPS[4] == STEPS[i];
    } else if i == 5 {
      assert STEPS[5] == STEPS[i];
    } else if i == 6 {
      assert STEPS[6] == STEPS[i];
    } else if i == 7 {
      assert STEPS[7] == STEPS[i];
    } else if i == 8 {
      assert STEPS[8] == STEPS[i];
    } else if i == 9 {
      assert STEPS[9] == STEPS[i];
    } else if i == 10 {
      assert STEPS[10] == STEPS[i];
    } else if i == 11 {
      assert STEPS[11] == STEPS[i];
    } else if i == 12 {
      assert STEPS[12] == STEPS[i];
    }
  }

  lemma {:induction false} PowerAdd(z: Residue, e: nat, f: nat)
    ensures Power(z, e + f) == FMul(Power(z, e), Power(z, f))
  {
    hide FMul, FMul3;
    if e == 0 {
      FMulOne(Power(z, f));
    } else {
      PowerAdd(z, e - 1, f);
      FMulLeftmost(z, Power(z, e - 1), Power(z, f));
      FMulRightmost(z, Power(z, e - 1), Power(z, f));
    }
  }

  /** The inner loop: n squarings, the first from `prev` into a, the rest of a in place. */
  method SquareRow(xs: array<u32>, a: nat, prev: nat, n: nat, ghost z: Residue, ghost e: nat) returns (prev': nat)
    requires xs.Length == 40 && a < 5 && prev < 5 && n >= 1
    requires R(xs[..], prev) == Power(z, e)
    modifies xs
    ensures prev' == a && R(xs[..], a) == Power(z, e * Pow2(n))
    ensures OnlySlot(old(xs[..]), xs[..], a)
  {
    hide FMul, Slot, Power;
    prev' := prev;
    var j := n;
    assert e * Pow2(0) == e;
    while j > 0
      invariant 0 <= j <= n && prev' < 5 && (j < n ==> prev' == a)
      invariant R(xs[..], prev') == Power(z, e * Pow2(n - j))
      invariant OnlySlot(old(xs[..]), xs[..], a)
    {
      MulS(xs, a, prev', prev');
      prev' := a;
      j := j - 1;
      ghost var h := e * Pow2(n - j - 1);
      TwiceMore(e, n - j);
      PowerAdd(z, h, h);
    }
  }

  lemma TwiceMore(e: nat, m: nat)
    requires m >= 1
    ensures e * Pow2(m) == e * Pow2(m - 1) + e * Pow2(m - 1)
  {
  }

  /** The slots hold the powers that Exponents names, before row i. */
  ghost predicate InChain(s: Area, z: Residue, i: nat)
  {
    HasPowers(s, z, Exponents(i))
  }

  ghost predicate HasPowers(s: Area, z: Residue, e: seq<int>)
    requires |e| == 5
  {
    forall t {:trigger R(s, t)} :: 1 <= t < 5 && e[t] >= 0 ==> R(s, t) == Power(z, e[t])
  }

  /** The table-driven loop: slot 3 ends with z2^(p - 2), slots 0 and 1 are untouched. */
  method RaiseToPMinus2(xs: array<u32>)
    requires xs.Length == 40
    modifies xs
    ensures R(xs[..], 3) == Power(old(R(xs[..], 1)), P - 2)
    ensures Slot(xs[..], 0) == old(Slot(xs[..], 0)) && Slot(xs[..], 1) == old(Slot(xs[..], 1))
  {
    hide Slot, Power;
    ghost var z := R(xs[..], 1);
    var prev := 1;
    PowerOne(z);
    for i := 0 to 13
      invariant prev == Previous(i)
      invariant InChain(xs[..], z, i)
      invariant Slot(xs[..], 0) == old(Slot(xs[..], 0)) && Slot(xs[..], 1) == old(Slot(xs[..], 1))
    {
      prev := ChainRow(xs, i, prev, z);
    }
    assert Exponents(13)[3] == P - 2;
  }

  lemma PowerOne(z: Residue)
    ensures Power(z, 1) == z
  {
  }

  method ChainRow(xs: array<u32>, i: nat, prev: nat, ghost z: Residue) returns (prev': nat)
    requires xs.Length == 40 && i < 13 && prev == Previous(i) && InChain(xs[..], z, i)
    modifies xs
    ensures prev' == Previous(i + 1)
    ensures InChain(xs[..], z, i + 1)
    ensures Slot(xs[..], 0) == old(Slot(xs[..], 0)) && Slot(xs[..], 1) == old(Slot(xs[..], 1))
  {
    RowExponents(i);
    hide Slot, Power, FMul, Exponents, Pow2, InChain, OnlySlot;
    var (a, c, n) := STEPS[i];
    ghost var s0, e := xs[..], Exponents(i)[prev];
    SlotPower(s0, z, i, prev);
    prev' := SquareRow(xs, a, prev, n, z, e);
    ghost var s1 := xs[..];
    MulS(xs, a, c, a);
    ChainNext(s0, s1, xs[..], z, i, a, c, n);
  }

  lemma SlotPower(s: Area, z: Residue, i: nat, t: nat)
    requires InChain(s, z, i) && 1 <= t < 5 && Exponents(i)[t] >= 0
    ensures R(s, t) == Power(z, Exponents(i)[t])
  {
  }

  /** Two writes to slot a leave every other slot as it was. */
  lemma OthersKept(s0: Area, s1: Area, s2: Area, a: nat)
    requires 2 <= a < 5 && OnlySlot(s0, s1, a) && OnlySlot(s1, s2, a)
    ensures forall t :: 0 <= t < 5 && t != a ==> R(s1, t) == R(s0, t) && R(s2, t) == R(s0, t)
    ensures Slot(s2, 0) == Slot(s0, 0) && Slot(s2, 1) == Slot(s0, 1)
  {
  }

  lemma ChainNext(s0: Area, s1: Area, s2: Area, z: Residue, i: nat, a: nat, c: nat, n: nat)
    requires i < 13 && STEPS[i] == (a, c, n) && 2 <= a < 5 && 1 <= c < 5 && a != c && InChain(s0, z, i)
    requires OnlySlot(s0, s1, a) && OnlySlot(s1, s2, a)
    requires Exponents(i)[Previous(i)] >= 0 && R(s1, a) == Power(z, Exponents(i)[Previous(i)] * Pow2(n))
    requires R(s2, a) == FMul(R(s1, c), R(s1, a))
    ensures InChain(s2, z, i + 1)
    ensures Slot(s2, 0) == Slot(s0, 0) && Slot(s2, 1) == Slot(s0, 1)
  {
    hide Slot, R, Power, FMul, Exponents, Previous, Pow2, OnlySlot, HasPowers;
    RowExponents(i);
    OthersKept(s0, s1, s2, a);
    var e, m := Exponents(i), Exponents(i)[Previous(i)] * Pow2(n);
    PowerAdd(z, e[c], m);
    ChainStep(s0, s1, s2, z, e, Exponents(i + 1), a, c, m);
  }

  lemma ChainStep(s0: Area, s1: Area, s2: Area, z: Residue, e: seq<int>, e': seq<int>, a: nat, c: nat, m: nat)
    requires 2 <= a < 5 && 1 <= c < 5 && a != c && |e| == 5 && e[c] >= 0 && e' == e[a := m + e[c]]
    requires HasPowers(s0, z, e) && (forall t :: 0 <= t < 5 && t != a ==> R(s1, t) == R(s0, t) && R(s2, t) == R(s0, t))
    requires R(s1, a) == Power(z, m) && R(s2, a) == FMul(R(s1, c), R(s1, a)) && FMul(Power(z, e[c]), Power(z, m)) == Power(z, m + e[c])
    ensures HasPowers(s2, z, e')
  {
    hide R, Power, FMul;
    assert R(s1, c) == R(s0, c);
    forall t {:trigger R(s2, t)} | 1 <= t < 5 && e'[t] >= 0
      ensures R(s2, t) == Power(z, e'[t])
    {
      if t != a {
        assert R(s2, t) == R(s0, t);
      }
    }
  }

  /** x25519: the least residue of x2 * z2^(p - 2) in little-endian bytes, and -1 exactly
      when it is zero and the scalar was clamped. Bit 255 of the base point is not masked. */
  method ScalarMultiply(out: array<u8>, scalar: seq<u8>, base: seq<u8>, clamp: bool) returns (ret: int)
    requires out.Length == 32 && |scalar| == 32 && |base| == 32
    modifies out
    ensures out[..] == ToLe(ScalarMult(Le(Scalar(scalar, clamp)), Le(base) % P, 256), 32)
    ensures ret == if clamp && ScalarMult(Le(Scalar(scalar, clamp)), Le(base) % P, 256) == 0 then -1 else 0
  {
    hide Slot, Power, FMul, LadderResult, Scalar, Le, ToLe, Val;
    var xs := new u32[40];
    Core(xs, scalar, base, clamp);
    ghost var p := PairOf(xs[..]);
    RaiseToPMinus2(xs);
    MulS(xs, X2, Z3, X2);
    FMulComm(Power(p.z2, P - 2), p.x2);
    var r := CanonSlot0(xs);
    SwapOut(out, xs);
    ret := if clamp && r == 0xffff_ffff then -1 else 0;
  }

  method CanonSlot0(xs: array<u32>) returns (r: u32)
    requires xs.Length == 40 && Slot(xs[..], 0) < BOUND
    modifies xs
    ensures Slot(xs[..], 0) == old(R(xs[..], 0))
    ensures r == if old(R(xs[..], 0)) == 0 then 0xffff_ffff else 0
  {
    hide Val;
    assert xs[..][0..8] == Fe(xs, 0);
    r := Canon(xs, 0);
    assert xs[..][0..8] == Fe(xs, 0);
  }

  /** swapout: the limbs of slot 0 copied into bytes. */
  method SwapOut(out: array<u8>, xs: array<u32>)
    requires out.Length == 32 && xs.Length == 40
    modifies out
    ensures out[..] == ToLe(Slot(xs[..], 0), 32)
  {
    hide Le, ToLe, Val, Splice;
    ghost var s := xs[0..8];
    NothingYet(out[..0], s[..0]);
    for i := 0 to 8
      invariant Le(out[..4 * i]) == Val(s[..i])
    {
      ghost var done := out[..4 * i];
      SpliceGrows(out[..], 4 * i, ToLe(xs[i], 4));
      U32To8(out, 4 * i, xs[i]);
      assert out[..4 * (i + 1)] == done + ToLe(s[i], 4);
      NextLimb(done, s, i);
    }
    assert s[..8] == s && xs[..][0..8] == s && out[..4 * 8] == out[..];
    ToLeOfLe(out[..]);
  }

  lemma NothingYet(a: seq<u8>, b: seq<u32>)
    requires a == [] && b == []
    ensures Le(a) == Val(b)
  {
  }

  lemma NextLimb(done: seq<u8>, s: seq<u32>, i: nat)
    requires i < |s| && |done| == 4 * i && Le(done) == Val(s[..i])
    ensures Le(done + ToLe(s[i], 4)) == Val(s[..i + 1])
  {
    hide Le, ToLe, Val, B, Pow2;
    Pow2Values();
    LeToLe(s[i], 4);
    LeConcat(done, ToLe(s[i], 4));
    ValPush(s, i);
    WeightIsPow2(i);
  }

  lemma {:induction false} WeightIsPow2(i: nat)
    ensures B(i) == Pow2(32 * i)
  {
    if i > 0 {
      WeightIsPow2(i - 1);
      Pow2Values();
      Pow2Add(32, 32 * (i - 1));
    }
  }
}
