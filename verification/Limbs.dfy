/** 256-bit integers as eight 32-bit limbs, least significant first. */
module Limbs256 {
  import opened Words
  import opened Bits

  function Val(s: seq<u32>): (v: nat)
  {
    if |s| == 0 then 0 else s[0] as nat + W32 * Val(s[1..])
  }

  /** The weight of limb n. */
  function B(n: nat): (w: nat)
    ensures w > 0
  {
    if n == 0 then 1 else W32 * B(n - 1)
  }

  const P: nat := 0x7fff_ffff_ffff_ffff_ffff_ffff_ffff_ffff_ffff_ffff_ffff_ffff_ffff_ffff_ffff_ffed // 2^255 - 19
  const TWO255: nat := 0x8000_0000_0000_0000_0000_0000_0000_0000_0000_0000_0000_0000_0000_0000_0000_0000
  const TWO256: nat := 0x1_0000_0000_0000_0000_0000_0000_0000_0000_0000_0000_0000_0000_0000_0000_0000_0000

  lemma B8()
    ensures B(8) == TWO256
  {
  }

  lemma {:induction false} ValConcat(a: seq<u32>, b: seq<u32>)
    ensures Val(a + b) == Val(a) + B(|a|) * Val(b)
  {
    if |a| == 0 {
      assert a + b == b;
    } else {
      assert (a + b)[1..] == a[1..] + b;
      ValConcat(a[1..], b);
      Scale(W32, B(|a| - 1), Val(b));
    }
  }

  lemma Scale(w: nat, m: nat, v: nat)
    ensures w * (m * v) == (w * m) * v
  {
  }

  lemma ValOne(x: u32)
    ensures Val([x]) == x
  {
  }

  /** One more limb at the top. */
  lemma ValPush(s: seq<u32>, i: nat)
    requires i < |s|
    ensures Val(s[..i + 1]) == Val(s[..i]) + B(i) * s[i]
  {
    hide Val, B;
    assert s[..i + 1] == s[..i] + [s[i]];
    ValConcat(s[..i], [s[i]]);
    ValOne(s[i]);
  }

  lemma {:induction false} ValBound(s: seq<u32>)
    ensures Val(s) < B(|s|)
  {
    if |s| > 0 {
      ValBound(s[1..]);
    }
  }

  /** Numbers that differ by a multiple of P leave the same remainder. */
  lemma Congruent(x: int, y: int, k: int)
    requires x == y + P * k
    ensures x % P == y % P
  {
  }

  /** A limb-by-limb sum with carries: one step of the running identity. */
  lemma CarryStep(b: nat, bNext: nat, x: int, carry': int, y: int, carry: int)
    requires bNext == W32 * b && x + W32 * carry' == y + carry
    ensures b * x + bNext * carry' == b * y + b * carry
  {
  }
}

/** Field arithmetic of x25519.c: in place over limb arrays, reduced lazily modulo 2^255 - 19.
    A pointer into an array is the array and an offset. */
module Field25519 {
  import opened Words
  import opened Bits
  import opened Limbs256

  const BOUND: nat := TWO255 + W32

  /** The eight limbs at offset i. */
  ghost function Fe(x: array<u32>, i: nat): (s: seq<u32>)
    requires i + 8 <= x.Length
    reads x
    ensures |s| == 8
  {
    x[i..i + 8]
  }

  /** Only the eight limbs at offset o differ. */
  twostate predicate Only(x: array<u32>, o: nat)
    reads x
  {
    forall k :: 0 <= k < x.Length && !(o <= k < o + 8) ==> x[k] == old(x[k])
  }

  /** `carry` after a 64-bit sum, and the limb kept. */
  function Lo(t: u64): u32 { t % W32 }
  function Hi(t: u64): u32 { t / W32 }

  /** umaal: the product plus both addends never exceeds 64 bits. */
  method Umaal(carry: u32, acc: u32, mand: u32, mier: u32) returns (r: u32, carry': u32)
    ensures r as int + W32 * carry' as int == mand as int * mier as int + acc as int + carry as int
  {
    FitsDouble(mand, mier, acc, carry);
    var tmp: u64 := mand as int * mier as int + acc as int + carry as int;
    r, carry' := SplitWord(tmp);
  }

  lemma FitsDouble(a: nat, b: nat, c: nat, d: nat)
    requires a < W32 && b < W32 && c < W32 && d < W32
    ensures a * b + c + d < W64
  {
    MulLe(a, 0xffff_ffff, b);
  }

  /** `*carry = tmp >> 32` and the word that is returned. */
  method SplitWord(t: u64) returns (r: u32, carry: u32)
    ensures r as int + W32 * carry as int == t as int
  {
    r, carry := Lo(t), Hi(t);
  }

  method Adc(carry: u32, acc: u32, mand: u32) returns (r: u32, carry': u32)
    ensures r as int + W32 * carry' as int == carry as int + acc as int + mand as int
    ensures carry <= 1 ==> carry' <= 1
  {
    var total: u64 := carry as int + acc as int + mand as int;
    r, carry' := Lo(total), Hi(total);
  }

  method Adc0(carry: u32, acc: u32) returns (r: u32, carry': u32)
    ensures r as int + W32 * carry' as int == carry as int + acc as int
    ensures carry' <= 1
  {
    var total: u64 := carry as int + acc as int;
    r, carry' := Lo(total), Hi(total);
  }

  /** Adds a small number into the eight limbs, as the loop of `propagate` and `canon` does. */
  method AddSmall(x: array<u32>, o: nat, small: u32) returns (carry: u32)
    requires o + 8 <= x.Length
    modifies x
    ensures Only(x, o)
    ensures Val(Fe(x, o)) + TWO256 * carry as nat == old(Val(Fe(x, o))) + small as nat
    ensures carry <= 1
  {
    hide Val, B;
    ghost var a := Fe(x, o);
    carry := small;
    ValStart();
    assert x[o..o + 0] == [] && a[..0] == [];
    for i := 0 to 8
      invariant Only(x, o)
      invariant x[o + i..o + 8] == a[i..]
      invariant Val(x[o..o + i]) + B(i) * carry as nat == Val(a[..i]) + small as nat
      invariant i > 0 ==> carry <= 1
    {
      ghost var pre, c, s := x[o..o + i], carry, x[o + i];
      x[o + i], carry := Adc0(carry, x[o + i]);
      assert x[o..o + i + 1] == pre + [x[o + i]];
      AddSmallStep(a, i, pre, x[o + i], carry, c, small);
    }
    B8();
    assert a[..8] == a;
  }

  lemma ValStart()
    ensures Val([]) == 0 && B(0) == 1
  {
  }

  lemma AddSmallStep(a: seq<u32>, i: nat, pre: seq<u32>, r: u32, carry': u32, carry: u32, small: u32)
    requires i < |a| && |pre| == i
    requires Val(pre) + B(i) * carry as nat == Val(a[..i]) + small as nat
    requires r as int + W32 * carry' as int == carry as int + a[i] as int
    ensures Val(pre + [r]) + B(i + 1) * carry' as nat == Val(a[..i + 1]) + small as nat
  {
    BNext(i);
    hide Val, B;
    ValConcat(pre, [r]);
    ValOne(r);
    ValPush(a, i);
    CarryStep(B(i), B(i + 1), r, carry', a[i], carry);
  }

  lemma BNext(i: nat)
    ensures B(i + 1) == W32 * B(i)
  {
  }

  /** What lay at and above bit 255 of v is folded back in: r is congruent and small. */
  ghost predicate Folded(v: nat, r: nat)
  {
    r < BOUND && r % P == v % P && r == v % TWO255 + 19 * (v / TWO255)
  }

  /** Folds what lies at and above bit 255 back in, times 19.
      The source's precondition "carry is small" is what keeps `over << 1` and `over * 19` in 32 bits. */
  method Propagate(x: array<u32>, o: nat, over: u32)
    requires o + 8 <= x.Length && over < 0x6bc_a1af
    modifies x
    ensures Only(x, o)
    ensures Folded(old(Val(Fe(x, o))) + TWO256 * over as nat, Val(Fe(x, o)))
  {
    hide Val, B, Folded;
    ghost var a := Fe(x, o);
    TopLimb(a);
    var over' := ClearTop(x, o, over);
    ghost var b := Fe(x, o);
    TopLimb(b);
    assert b[..7] == a[..7];
    var carry := AddSmall(x, o, over' * 19);
    ghost var r := Fe(x, o);
    LimbsBelow(r);
    FoldTop(Val(a), over, Val(a[..7]), a[7] / 0x8000_0000, a[7] % 0x8000_0000, Val(b), over', Val(r), carry);
  }

  /** Takes out what lies at and above bit 255. */
  method ClearTop(x: array<u32>, o: nat, over: u32) returns (over': u32)
    requires o + 8 <= x.Length && over < 0x6bc_a1af
    modifies x
    ensures Only(x, o) && x[o..o + 7] == old(x[o..o + 7]) && x[o + 7] == old(x[o + 7]) % 0x8000_0000
    ensures over' as int == old(x[o + 7]) as int / 0x8000_0000 + 2 * over as int
  {
    PropagateOver(x[o + 7], over);
    hide Or, And;
    over' := Or(x[o + 7] / 0x8000_0000, over * 2);
    x[o + 7] := And(x[o + 7], Not32(0x8000_0000));
  }

  lemma PropagateOver(top: u32, over: u32)
    requires over < 0x4000_0000
    ensures Or(top / 0x8000_0000, over * 2) == top as int / 0x8000_0000 + 2 * over as int
    ensures And(top, Not32(0x8000_0000)) == top % 0x8000_0000
  {
    assert Pow2(1) == 2;
    OrDisjoint(top / 0x8000_0000, over, 1);
    Pow2Values();
    Pow2Add(24, 7);
    assert Pow2(7) == 128;
    AndMask(top, 31);
  }

  lemma TopLimb(a: seq<u32>)
    requires |a| == 8
    ensures Val(a) == Val(a[..7]) + 0x1_0000_0000_0000_0000_0000_0000_0000_0000_0000_0000_0000_0000_0000_0000 * a[7] as nat
    ensures Val(a[..7]) < 0x1_0000_0000_0000_0000_0000_0000_0000_0000_0000_0000_0000_0000_0000_0000
  {
    assert B(7) == 0x1_0000_0000_0000_0000_0000_0000_0000_0000_0000_0000_0000_0000_0000_0000 by {
      assert B(3) == 0x1_0000_0000_0000_0000_0000_0000;
      assert B(5) == 0x1_0000_0000_0000_0000_0000_0000_0000_0000_0000_0000;
    }
    hide Val, B;
    ValPush(a, 7);
    assert a[..8] == a;
    ValBound(a[..7]);
  }

  lemma LimbsBelow(a: seq<u32>)
    requires |a| == 8
    ensures Val(a) < TWO256
  {
    ValBound(a);
    B8();
  }

  /** 2^255 is congruent to 19. */
  lemma FoldTop(va: nat, over: nat, low: nat, q: nat, r: nat, v: nat, over': nat, vr: nat, carry: nat)
    requires low < 0x1_0000_0000_0000_0000_0000_0000_0000_0000_0000_0000_0000_0000_0000_0000
    requires r < 0x8000_0000 && q <= 1 && over < 0x6bc_a1af && carry <= 1
    requires va == low + 0x1_0000_0000_0000_0000_0000_0000_0000_0000_0000_0000_0000_0000_0000_0000 * (0x8000_0000 * q + r)
    requires v == low + 0x1_0000_0000_0000_0000_0000_0000_0000_0000_0000_0000_0000_0000_0000_0000 * r
    requires over' == q + 2 * over && vr + TWO256 * carry == v + over' * 19
    ensures Folded(va + TWO256 * over, vr)
  {
    assert va + TWO256 * over == v + TWO255 * over' && v < TWO255;
    assert carry == 0;
    DivModUnique(va + TWO256 * over, TWO255, over', v);
    Congruent(va + TWO256 * over, vr, over');
  }

  /** An input may be the output itself, but may not overlap it partly. */
  ghost predicate Apart(out: array<u32>, o: nat, a: array<u32>, i: nat, n: nat)
  {
    out == a ==> i == o || i + n <= o || o + 8 <= i
  }

  /** out := a + b */
  method Add(out: array<u32>, o: nat, a: array<u32>, ai: nat, b: array<u32>, bi: nat)
    requires o + 8 <= out.Length && ai + 8 <= a.Length && bi + 8 <= b.Length
    requires Apart(out, o, a, ai, 8) && Apart(out, o, b, bi, 8)
    modifies out
    ensures Only(out, o)
    ensures Val(Fe(out, o)) < BOUND
    ensures Val(Fe(out, o)) % P == (old(Val(Fe(a, ai))) + old(Val(Fe(b, bi)))) % P
  {
    var carry := AddLimbs(out, o, a, ai, b, bi);
    hide Val;
    Propagate(out, o, carry);
  }

  method AddLimbs(out: array<u32>, o: nat, a: array<u32>, ai: nat, b: array<u32>, bi: nat) returns (carry: u32)
    requires o + 8 <= out.Length && ai + 8 <= a.Length && bi + 8 <= b.Length
    requires Apart(out, o, a, ai, 8) && Apart(out, o, b, bi, 8)
    modifies out
    ensures Only(out, o)
    ensures Val(Fe(out, o)) + TWO256 * carry as nat == old(Val(Fe(a, ai))) + old(Val(Fe(b, bi)))
    ensures carry <= 1
  {
    hide Val, B;
    ghost var x, y := Fe(a, ai), Fe(b, bi);
    carry := 0;
    ValStart();
    assert out[o..o + 0] == [] && x[..0] == [] && y[..0] == [];
    for i := 0 to 8
      invariant Only(out, o)
      invariant forall k {:trigger x[k]} :: i <= k < 8 ==> a[ai + k] == x[k]
      invariant forall k {:trigger y[k]} :: i <= k < 8 ==> b[bi + k] == y[k]
      invariant Val(out[o..o + i]) + B(i) * carry as nat == Val(x[..i]) + Val(y[..i])
      invariant carry <= 1
    {
      assert a[ai + i] == x[i] && b[bi + i] == y[i];
      ghost var pre, c := out[o..o + i], carry;
      out[o + i], carry := Adc(carry, a[ai + i], b[bi + i]);
      assert out[o..o + i + 1] == pre + [out[o + i]];
      AddStep(x, y, i, pre, out[o + i], carry, c);
    }
    B8();
    assert x[..8] == x && y[..8] == y;
  }

  lemma AddStep(x: seq<u32>, y: seq<u32>, i: nat, pre: seq<u32>, r: u32, carry': u32, carry: u32)
    requires i < |x| && i < |y| && |pre| == i
    requires Val(pre) + B(i) * carry as nat == Val(x[..i]) + Val(y[..i])
    requires r as int + W32 * carry' as int == carry as int + x[i] as int + y[i] as int
    ensures Val(pre + [r]) + B(i + 1) * carry' as nat == Val(x[..i + 1]) + Val(y[..i + 1])
  {
    BNext(i);
    hide Val, B;
    ValConcat(pre, [r]);
    ValOne(r);
    ValPush(x, i);
    ValPush(y, i);
    CarryStep(B(i), B(i + 1), r, carry', x[i] as int + y[i] as int, carry);
    assert B(i) * (x[i] as int + y[i] as int) == B(i) * x[i] as int + B(i) * y[i] as int;
  }

  /** out := a - b, by way of adding 2 * P; b must stay below 2^256 - 38. */
  method Sub(out: array<u32>, o: nat, a: array<u32>, ai: nat, b: array<u32>, bi: nat)
    requires o + 8 <= out.Length && ai + 8 <= a.Length && bi + 8 <= b.Length
    requires Apart(out, o, a, ai, 8) && Apart(out, o, b, bi, 8)
    requires Val(Fe(b, bi)) < TWO256 - 38
    modifies out
    ensures Only(out, o)
    ensures Val(Fe(out, o)) < BOUND
    ensures Val(Fe(out, o)) % P == (old(Val(Fe(a, ai))) - old(Val(Fe(b, bi)))) % P
  {
    ghost var va, vb := Val(Fe(a, ai)), Val(Fe(b, bi));
    LimbsBelow(Fe(a, ai));
    var carry := SubLimbs(out, o, a, ai, b, bi);
    hide Val;
    LimbsBelow(Fe(out, o));
    ghost var v := Val(Fe(out, o));
    BorrowRange(v, carry, va, vb);
    Propagate(out, o, 1 + carry);
    Congruent(v + TWO256 * (1 + carry), va as int - vb as int, 2);
  }

  lemma BorrowRange(v: nat, carry: int, va: nat, vb: nat)
    requires v < TWO256 && va < TWO256 && vb < TWO256 - 38 && v + TWO256 * carry == va - vb - 38
    ensures -1 <= carry <= 0
  {
  }

  type s64 = x: int | -0x8000_0000_0000_0000 <= x < 0x8000_0000_0000_0000

  method SubLimbs(out: array<u32>, o: nat, a: array<u32>, ai: nat, b: array<u32>, bi: nat) returns (carry: s64)
    requires o + 8 <= out.Length && ai + 8 <= a.Length && bi + 8 <= b.Length
    requires Apart(out, o, a, ai, 8) && Apart(out, o, b, bi, 8)
    modifies out
    ensures Only(out, o)
    ensures Val(Fe(out, o)) + TWO256 * carry == old(Val(Fe(a, ai))) - old(Val(Fe(b, bi))) - 38
  {
    hide Val, B;
    ghost var x, y := Fe(a, ai), Fe(b, bi);
    carry := -38;
    ValStart();
    assert out[o..o + 0] == [] && x[..0] == [] && y[..0] == [];
    for i := 0 to 8
      invariant Only(out, o)
      invariant forall k {:trigger x[k]} :: i <= k < 8 ==> a[ai + k] == x[k]
      invariant forall k {:trigger y[k]} :: i <= k < 8 ==> b[bi + k] == y[k]
      invariant Val(out[o..o + i]) + B(i) * carry == Val(x[..i]) - Val(y[..i]) - 38
      invariant -38 <= carry <= 0
    {
      assert a[ai + i] == x[i] && b[bi + i] == y[i];
      ghost var pre, c := out[o..o + i], carry;
      carry := carry as int + a[ai + i] as int - b[bi + i] as int;
      out[o + i] := carry % W32;
      carry := carry / W32;
      assert out[o..o + i + 1] == pre + [out[o + i]];
      SubStep(x, y, i, pre, out[o + i], carry, c);
    }
    B8();
    assert x[..8] == x && y[..8] == y;
  }

  lemma SubStep(x: seq<u32>, y: seq<u32>, i: nat, pre: seq<u32>, r: u32, carry': int, carry: int)
    requires i < |x| && i < |y| && |pre| == i
    requires Val(pre) + B(i) * carry == Val(x[..i]) - Val(y[..i]) - 38
    requires r as int + W32 * carry' == carry + x[i] as int - y[i] as int
    ensures Val(pre + [r]) + B(i + 1) * carry' == Val(x[..i + 1]) - Val(y[..i + 1]) - 38
  {
    BNext(i);
    hide Val, B;
    ValConcat(pre, [r]);
    ValOne(r);
    ValPush(x, i);
    ValPush(y, i);
    CarryStep(B(i), B(i + 1), r, carry', x[i] as int - y[i] as int, carry);
    assert B(i) * (x[i] as int - y[i] as int) == B(i) * x[i] as int - B(i) * y[i] as int;
  }

  /* ---- mul ---- */

  /** One row of the schoolbook product: accum += mand * a, shifted by i limbs. */
  method MulRow(accum: array<u32>, i: nat, a: array<u32>, ai: nat, mand: u32)
    requires i < 8 && accum.Length == 16 && ai + 8 <= a.Length && accum != a
    modifies accum
    ensures Val(accum[..i + 9]) == old(Val(accum[..i + 8])) + B(i) * (mand as nat * Val(Fe(a, ai)))
    ensures accum[i + 9..] == old(accum[i + 9..])
  {
    hide Val, B;
    ghost var x, acc := Fe(a, ai), accum[..i + 8];
    var carry: u32 := 0;
    ValStart();
    RowStart(i, mand);
    assert acc[..i + 0] == acc[..i] && x[..0] == [] && accum[..i + 0] == acc[..i];
    for j := 0 to 8
      invariant accum[i + j..i + 8] == acc[i + j..] && accum[i + 9..] == old(accum[i + 9..])
      invariant Val(accum[..i + j]) + B(i + j) * carry as nat == Val(acc[..i + j]) + B(i) * (mand as nat * Val(x[..j]))
    {
      assert accum[i + j] == acc[i + j] && a[ai + j] == x[j];
      ghost var pre, c := accum[..i + j], carry;
      accum[i + j], carry := Umaal(carry, accum[i + j], mand, a[ai + j]);
      assert accum[..i + j + 1] == pre + [accum[i + j]];
      RowStep(acc, x, i, j, mand, pre, accum[i + j], carry, c);
    }
    ghost var pre := accum[..i + 8];
    accum[i + 8] := carry;
    assert accum[..i + 9] == pre + [carry] && acc[..i + 8] == acc && x[..8] == x;
    ValConcat(pre, [carry]);
    ValOne(carry);
  }

  lemma RowStart(i: nat, mand: u32)
    ensures B(i + 0) * 0 == B(i) * (mand as nat * Val([]))
  {
  }

  lemma RowStep(acc: seq<u32>, x: seq<u32>, i: nat, j: nat, mand: u32, pre: seq<u32>, r: u32, carry': u32, carry: u32)
    requires j < 8 && |x| == 8 && |acc| == i + 8 && |pre| == i + j
    requires Val(pre) + B(i + j) * carry as nat == Val(acc[..i + j]) + B(i) * (mand as nat * Val(x[..j]))
    requires r as int + W32 * carry' as int == mand as int * x[j] as int + acc[i + j] as int + carry as int
    ensures Val(pre + [r]) + B(i + j + 1) * carry' as nat == Val(acc[..i + j + 1]) + B(i) * (mand as nat * Val(x[..j + 1]))
  {
    BNext(i + j);
    BAdd(i, j);
    hide Val, B;
    ValConcat(pre, [r]);
    ValOne(r);
    ValPush(acc, i + j);
    ValPush(x, j);
    var t := mand as int * x[j] as int;
    CarryStep(B(i + j), B(i + j + 1), r, carry', t + acc[i + j] as int, carry);
    assert B(i + j) * (t + acc[i + j] as int) == B(i + j) * t + B(i + j) * acc[i + j] as int;
    RowGrow(B(i), B(j), mand, Val(x[..j]), x[j]);
  }

  lemma RowGrow(bi: nat, bj: nat, mand: nat, v: nat, x: nat)
    ensures bi * (mand * (v + bj * x)) == bi * (mand * v) + (bi * bj) * (mand * x)
  {
  }

  lemma {:induction false} BAdd(i: nat, j: nat)
    ensures B(i + j) == B(i) * B(j)
  {
    if i > 0 {
      BAdd(i - 1, j);
      Scale(W32, B(i - 1), B(j));
    }
  }

  /** The double-width product of a and the nb limbs at bi. */
  method Product(a: array<u32>, ai: nat, b: array<u32>, bi: nat, nb: nat) returns (accum: array<u32>)
    requires nb <= 8 && ai + 8 <= a.Length && bi + nb <= b.Length
    ensures fresh(accum) && accum.Length == 16
    ensures Val(accum[..8]) + TWO256 * Val(accum[8..16]) == Val(Fe(a, ai)) * Val(b[bi..bi + nb])
  {
    hide Val, B;
    accum := new u32[16](_ => 0);
    ghost var x, y := Fe(a, ai), b[bi..bi + nb];
    ValZeros(accum[..8]);
    ValZeros([]);
    for i := 0 to nb
      invariant accum[i + 8..] == seq(8 - i, _ => 0)
      invariant Val(accum[..i + 8]) == Val(x) * Val(y[..i])
      invariant fresh(accum)
    {
      ghost var acc := accum[..];
      MulRow(accum, i, a, ai, b[bi + i]);
      assert accum[i + 9..] == acc[i + 9..];
      RowAdded(x, y, i);
    }
    assert y[..nb] == y;
    ProductHalves(accum[..], nb);
    assert accum[..][..nb + 8] == accum[..nb + 8] && accum[..][8..] == accum[8..16];
  }

  lemma RowAdded(x: seq<u32>, y: seq<u32>, i: nat)
    requires i < |y|
    ensures Val(x) * Val(y[..i + 1]) == Val(x) * Val(y[..i]) + B(i) * (y[i] as nat * Val(x))
  {
    ValPush(y, i);
    Grow(Val(x), Val(y[..i]), B(i), y[i]);
  }

  lemma Grow(x: nat, v: nat, b: nat, y: nat)
    ensures x * (v + b * y) == x * v + b * (y * x)
  {
  }

  lemma {:induction false} ValZeros(s: seq<u32>)
    requires forall k :: 0 <= k < |s| ==> s[k] == 0
    ensures Val(s) == 0
  {
    if |s| > 0 {
      ValZeros(s[1..]);
    }
  }

  lemma ProductHalves(s: seq<u32>, nb: nat)
    requires |s| == 16 && nb <= 8 && s[nb + 8..] == seq(8 - nb, _ => 0)
    ensures Val(s[..8]) + TWO256 * Val(s[8..]) == Val(s[..nb + 8])
  {
    B8();
    hide Val, B;
    ValZeros(s[nb + 8..]);
    assert s == s[..nb + 8] + s[nb + 8..] && s == s[..8] + s[8..];
    ValConcat(s[..nb + 8], s[nb + 8..]);
    ValConcat(s[..8], s[8..]);
  }

  /** out := low half + 38 * high half, since 2^256 is congruent to 38. */
  method FoldHigh(out: array<u32>, o: nat, accum: array<u32>) returns (carry: u32)
    requires o + 8 <= out.Length && accum.Length == 16 && out != accum
    modifies out
    ensures Only(out, o)
    ensures Val(Fe(out, o)) + TWO256 * carry as nat == Val(accum[..8]) + 38 * Val(accum[8..16])
    ensures carry <= 38
  {
    hide Val, B;
    ghost var x, y := accum[..8], accum[8..16];
    carry := 0;
    ValStart();
    assert out[o..o + 0] == [] && x[..0] == [] && y[..0] == [];
    for j := 0 to 8
      invariant Only(out, o)
      invariant Val(out[o..o + j]) + B(j) * carry as nat == Val(x[..j]) + 38 * Val(y[..j])
    {
      assert accum[j] == x[j] && accum[j + 8] == y[j];
      ghost var pre, c := out[o..o + j], carry;
      out[o + j], carry := Umaal(carry, accum[j], 38, accum[j + 8]);
      assert out[o..o + j + 1] == pre + [out[o + j]];
      FoldStep(x, y, j, pre, out[o + j], carry, c);
    }
    B8();
    assert x[..8] == x && y[..8] == y;
    FoldCarry(Fe(out, o), x, y, carry);
  }

  lemma FoldStep(x: seq<u32>, y: seq<u32>, j: nat, pre: seq<u32>, r: u32, carry': u32, carry: u32)
    requires j < |x| && j < |y| && |pre| == j
    requires Val(pre) + B(j) * carry as nat == Val(x[..j]) + 38 * Val(y[..j])
    requires r as int + W32 * carry' as int == 38 * y[j] as int + x[j] as int + carry as int
    ensures Val(pre + [r]) + B(j + 1) * carry' as nat == Val(x[..j + 1]) + 38 * Val(y[..j + 1])
  {
    BNext(j);
    hide Val, B;
    ValConcat(pre, [r]);
    ValOne(r);
    ValPush(x, j);
    ValPush(y, j);
    CarryStep(B(j), B(j + 1), r, carry', 38 * y[j] as int + x[j] as int, carry);
    assert B(j) * (38 * y[j] as int + x[j] as int) == 38 * (B(j) * y[j] as int) + B(j) * x[j] as int;
  }

  lemma FoldCarry(r: seq<u32>, x: seq<u32>, y: seq<u32>, carry: u32)
    requires |r| == 8 && |x| == 8 && |y| == 8
    requires Val(r) + TWO256 * carry as nat == Val(x) + 38 * Val(y)
    ensures carry <= 38
  {
    hide Val;
    LimbsBelow(x);
    LimbsBelow(y);
  }

  /** out := a * b, where b has nb limbs; out may be a or b. */
  method Mul(out: array<u32>, o: nat, a: array<u32>, ai: nat, b: array<u32>, bi: nat, nb: nat)
    requires o + 8 <= out.Length && nb <= 8 && ai + 8 <= a.Length && bi + nb <= b.Length
    modifies out
    ensures Only(out, o)
    ensures Val(Fe(out, o)) < BOUND
    ensures Val(Fe(out, o)) % P == old(Val(Fe(a, ai))) * old(Val(b[bi..bi + nb])) % P
  {
    hide Val;
    ghost var va, vb := Val(Fe(a, ai)), Val(b[bi..bi + nb]);
    var accum := Product(a, ai, b, bi, nb);
    ghost var low, high := Val(accum[..8]), Val(accum[8..16]);
    var carry := FoldHigh(out, o, accum);
    Finish(out, o, carry, low, high, va * vb);
  }

  /** The end of mul: what FoldHigh left is reduced. */
  method Finish(out: array<u32>, o: nat, carry: u32, ghost low: nat, ghost high: nat, ghost product: nat)
    requires o + 8 <= out.Length && carry <= 38 && low + TWO256 * high == product
    requires Val(Fe(out, o)) + TWO256 * carry as nat == low + 38 * high
    modifies out
    ensures Only(out, o) && Val(Fe(out, o)) < BOUND && Val(Fe(out, o)) % P == product % P
  {
    hide Val;
    Propagate(out, o, carry);
    FoldedProduct(product, low, high);
  }

  /** 2^256 is congruent to 38. */
  lemma FoldedProduct(product: nat, low: nat, high: nat)
    requires low + TWO256 * high == product
    ensures (low + 38 * high) % P == product % P
  {
    Congruent(low + TWO256 * high, low + 38 * high, 2 * high);
  }

  /* ---- canon, condswap ---- */

  /** The least residue, for x below 2^255 plus one word; -1 (as a word) exactly when it is zero. */
  method Canon(x: array<u32>, o: nat) returns (ret: u32)
    requires o + 8 <= x.Length && Val(Fe(x, o)) < BOUND
    modifies x
    ensures Only(x, o)
    ensures Val(Fe(x, o)) == old(Val(Fe(x, o))) % P
    ensures ret == if old(Val(Fe(x, o))) % P == 0 then 0xffff_ffff else 0
  {
    hide Val;
    ghost var v := Val(Fe(x, o));
    var carry0 := AddSmall(x, o, 19);
    ghost var w := Val(Fe(x, o));
    LimbsBelow(Fe(x, o));
    Propagate(x, o, carry0);
    CanonRange(v, w, carry0, Val(Fe(x, o)));
    var res := SubtractNineteen(x, o);
    ret := ((res as int - 1) % W64) / W32;
  }

  /** After adding 19 and folding, the value is 19 more than the least residue. */
  lemma CanonRange(v: nat, w: nat, carry: nat, r: nat)
    requires v < BOUND && w < TWO256 && w + TWO256 * carry == v + 19
    requires r == (v + 19) % TWO255 + 19 * ((v + 19) / TWO255)
    ensures r == v % P + 19
  {
  }

  /** The last loop of `canon`: subtracts 19 and ors the limbs together. */
  method SubtractNineteen(x: array<u32>, o: nat) returns (res: u32)
    requires o + 8 <= x.Length && Val(Fe(x, o)) >= 19
    modifies x
    ensures Only(x, o)
    ensures Val(Fe(x, o)) == old(Val(Fe(x, o))) - 19
    ensures res == 0 <==> Val(Fe(x, o)) == 0
  {
    hide Val, B, Or;
    ghost var a := Fe(x, o);
    var carry: s64 := -19;
    res := 0;
    ValStart();
    assert x[o..o + 0] == [] && a[..0] == [];
    for i := 0 to 8
      invariant Only(x, o)
      invariant forall k {:trigger a[k]} :: i <= k < 8 ==> x[o + k] == a[k]
      invariant Val(x[o..o + i]) + B(i) * carry == Val(a[..i]) - 19
      invariant -19 <= carry <= 0
      invariant res == 0 <==> Val(x[o..o + i]) == 0
    {
      assert x[o + i] == a[i];
      ghost var pre, c := x[o..o + i], carry;
      carry := carry as int + x[o + i] as int;
      x[o + i] := carry % W32;
      OrIsZero(res, x[o + i]);
      OrBound32(res, x[o + i]);
      res := Or(res, x[o + i]);
      carry := carry / W32;
      assert x[o..o + i + 1] == pre + [x[o + i]];
      SubtractStep(a, i, pre, x[o + i], carry, c);
      ZeroPush(pre, x[o + i]);
    }
    B8();
    assert a[..8] == a;
    LimbsBelow(Fe(x, o));
    LimbsBelow(a);
  }

  lemma OrBound32(a: u32, b: u32)
    ensures Or(a, b) < W32
  {
    Pow2Values();
    OrBound(a, b, 32);
  }

  lemma ZeroPush(pre: seq<u32>, r: u32)
    ensures Val(pre + [r]) == 0 <==> Val(pre) == 0 && r == 0
  {
    hide Val, B;
    ValConcat(pre, [r]);
    ValOne(r);
    if r > 0 {
      MulLe(1, r, B(|pre|));
    }
  }

  lemma SubtractStep(a: seq<u32>, i: nat, pre: seq<u32>, r: u32, carry': int, carry: int)
    requires i < |a| && |pre| == i
    requires Val(pre) + B(i) * carry == Val(a[..i]) - 19
    requires r as int + W32 * carry' == carry + a[i] as int
    ensures Val(pre + [r]) + B(i + 1) * carry' == Val(a[..i + 1]) - 19
  {
    BNext(i);
    hide Val, B;
    ValConcat(pre, [r]);
    ValOne(r);
    ValPush(a, i);
    CarryStep(B(i), B(i + 1), r, carry', a[i], carry);
  }
}
