/** Machine words of the ESP32 as bounded integers, and C's bitwise operators on them.
    Assigning to a `u32` or `u64` obliges the verifier to prove that the value fits;
    where C wraps on purpose the model writes the remainder. */
module Words {
  type u8 = x: int | 0 <= x < 0x100
  type u16 = x: int | 0 <= x < 0x1_0000
  type u32 = x: int | 0 <= x < 0x1_0000_0000
  type u64 = x: int | 0 <= x < 0x1_0000_0000_0000_0000

  const W32 := 0x1_0000_0000
  const W64 := 0x1_0000_0000_0000_0000
}

/** C's `&`, `|`, `^` on non-negative integers, bit by bit. */
module Bits {
  import opened Words

  function Pow2(n: nat): (r: nat)
    ensures r >= 1
  {
    if n == 0 then 1 else 2 * Pow2(n - 1)
  }

  function AndBit(a: nat, b: nat): (r: nat)
    ensures r <= a && r <= b && r <= 1
  {
    if a % 2 == 1 && b % 2 == 1 then 1 else 0
  }

  function And(a: nat, b: nat): (r: nat)
    ensures r <= a && r <= b
  {
    if a == 0 then 0 else AndBit(a, b) + 2 * And(a / 2, b / 2)
  }

  function Or(a: nat, b: nat): (r: nat)
    ensures r >= a && r >= b
    ensures r <= a + b
    decreases a + b
  {
    if a == 0 then b
    else if b == 0 then a
    else (if a % 2 + b % 2 == 0 then 0 else 1) + 2 * Or(a / 2, b / 2)
  }

  function XorBit(a: nat, b: nat): (r: nat)
    ensures r == (a + b) % 2 && r <= a % 2 + b % 2
  {
    if a % 2 == b % 2 then 0 else 1
  }

  function Xor(a: nat, b: nat): (r: nat)
    ensures r <= a + b
    decreases a + b
  {
    if a == 0 then b
    else if b == 0 then a
    else XorBit(a, b) + 2 * Xor(a / 2, b / 2)
  }

  lemma {:induction false} Pow2Add(m: nat, n: nat)
    ensures Pow2(m + n) == Pow2(m) * Pow2(n)
  {
    if m > 0 {
      Pow2Add(m - 1, n);
    }
  }

  lemma {:induction false} Pow2Grows(m: nat, n: nat)
    requires m < n
    ensures Pow2(m) < Pow2(n)
    decreases n
  {
    if m < n - 1 {
      Pow2Grows(m, n - 1);
    }
  }

  lemma Pow2Values()
    ensures Pow2(4) == 16 && Pow2(6) == 0x40 && Pow2(8) == 0x100 && Pow2(12) == 0x1000 && Pow2(14) == 0x4000
    ensures Pow2(16) == 0x1_0000 && Pow2(20) == 0x10_0000 && Pow2(24) == 0x100_0000
    ensures Pow2(26) == 0x400_0000 && Pow2(28) == 0x1000_0000 && Pow2(32) == W32 && Pow2(64) == W64
  {
    assert Pow2(4) == 16 && Pow2(6) == 64;
    Pow2Add(4, 4);
    Pow2Add(8, 4);
    Pow2Add(8, 6);
    Pow2Add(8, 8);
    Pow2Add(16, 4);
    Pow2Add(16, 8);
    Pow2Add(20, 6);
    Pow2Add(24, 4);
    Pow2Add(16, 16);
    Pow2Add(32, 32);
  }

  lemma {:induction false} XorBound(a: nat, b: nat, n: nat)
    requires a < Pow2(n) && b < Pow2(n)
    ensures Xor(a, b) < Pow2(n)
  {
    if n > 0 && a > 0 && b > 0 {
      XorBound(a / 2, b / 2, n - 1);
    }
  }

  lemma {:induction false} OrBound(a: nat, b: nat, n: nat)
    requires a < Pow2(n) && b < Pow2(n)
    ensures Or(a, b) < Pow2(n)
  {
    if n > 0 && a > 0 && b > 0 {
      OrBound(a / 2, b / 2, n - 1);
    }
  }

  lemma Mask32(a: nat)
    ensures And(a, 0xffff_ffff) == a % W32
  {
    Pow2Values();
    AndMask(a, 32);
  }

  /** 32-bit subtraction, wrapping below zero. */
  function Sub32(a: nat, b: nat): (r: u32)
    requires a < W32 && b < W32
    ensures r == if a >= b then a - b else W32 + a - b
  {
    (a - b) % W32
  }

  /** `~x` on 32 bits. */
  function Not32(x: u32): (r: u32)
  {
    0xffff_ffff - x
  }

  /** Masking with 2^n - 1 is the remainder modulo 2^n. */
  lemma {:induction false} AndMask(a: nat, n: nat)
    ensures And(a, Pow2(n) - 1) == a % Pow2(n)
  {
    hide And, Pow2;
    if a > 0 && n > 0 {
      var m := Pow2(n - 1);
      Pow2Next(n);
      AndMask(a / 2, n - 1);
      AndMaskStep(a, m);
    } else if n == 0 {
      Pow2Zero();
      AndZero(a);
    } else {
      AndNothing(Pow2(n) - 1);
    }
  }

  lemma Pow2Next(n: nat)
    requires n > 0
    ensures Pow2(n) == 2 * Pow2(n - 1)
  {
  }

  lemma Pow2Zero()
    ensures Pow2(0) == 1
  {
  }

  lemma AndNothing(b: nat)
    ensures And(0, b) == 0
  {
  }

  lemma AndMaskStep(a: nat, m: nat)
    requires m > 0 && And(a / 2, m - 1) == (a / 2) % m
    ensures And(a, 2 * m - 1) == a % (2 * m)
  {
    hide And;
    AndStep(a, 2 * m - 1);
    OddHalf(a, m);
    ModDouble(a, m);
  }

  lemma OddHalf(a: nat, m: nat)
    requires m > 0
    ensures (2 * m - 1) / 2 == m - 1 && AndBit(a, 2 * m - 1) == a % 2
  {
  }

  lemma {:induction false} AndZero(a: nat)
    ensures And(a, 0) == 0
  {
  }

  lemma ModDouble(a: nat, m: nat)
    requires m > 0
    ensures a % (2 * m) == a % 2 + 2 * ((a / 2) % m)
    ensures (a % (2 * m)) % 2 == a % 2 && (a % (2 * m)) / 2 == (a / 2) % m
  {
    var q, r := (a / 2) / m, (a / 2) % m;
    assert a / 2 == q * m + r;
    assert a == q * (2 * m) + (a % 2 + 2 * r) by {
      assert a == 2 * (a / 2) + a % 2;
      assert 2 * (q * m) == q * (2 * m);
    }
    DivModUnique(a, 2 * m, q, a % 2 + 2 * r);
  }

  lemma DivModUnique(a: int, m: int, q: int, r: int)
    requires m > 0 && 0 <= r < m && a == q * m + r
    ensures a / m == q && a % m == r
  {
    var q', r' := a / m, a % m;
    assert a == q' * m + r';
    assert (q - q') * m == r' - r;
    if q' < q {
      MulLe(1, q - q', m);
    } else if q' > q {
      MulLe(1, q' - q, m);
    }
  }

  lemma DivNonNegative(a: nat, m: nat)
    requires m > 0
    ensures a / m >= 0
  {
  }

  lemma DivDiv(a: nat, m: nat, n: nat)
    requires m > 0 && n > 0
    ensures m * n > 0 && a / (m * n) == a / m / n
  {
    DivDivValue(a, m, n, a / m, a % m, a / m / n, a / m % n);
  }

  lemma DivDivValue(a: nat, m: nat, n: nat, x: nat, s: nat, q: nat, r: nat)
    requires m > 0 && n > 0
    requires a == x * m + s && s < m && x == q * n + r && r < n
    ensures m * n > 0 && a / (m * n) == q
  {
    MulLe(1, m, n);
    MulLe(r, n - 1, m);
    assert x * m == (q * n) * m + r * m;
    assert (q * n) * m == q * (m * n);
    assert (n - 1) * m == m * n - m;
    DivModUnique(a, m * n, q, r * m + s);
  }

  lemma MulLe(a: int, b: int, c: int)
    requires a <= b && 0 <= c
    ensures a * c <= b * c
  {
  }

  /** The lowest n bits of x are clear. */
  predicate LowZero(x: nat, n: nat) {
    n == 0 || (x % 2 == 0 && LowZero(x / 2, n - 1))
  }

  lemma {:induction false} ShiftedLowZero(q: nat, n: nat)
    ensures LowZero(q * Pow2(n), n)
  {
    if n > 0 {
      var m := q * Pow2(n - 1);
      assert q * Pow2(n) == 2 * m;
      ShiftedLowZero(q, n - 1);
    }
  }

  /** Bitwise-and works on low and high parts separately. */
  lemma {:induction false} AndSplit(a0: nat, a1: nat, b0: nat, b1: nat, n: nat)
    requires a0 < Pow2(n) && b0 < Pow2(n) && LowZero(a1, n) && LowZero(b1, n)
    ensures And(a0 + a1, b0 + b1) == And(a0, b0) + And(a1, b1)
  {
    hide And, AndBit;
    if n == 0 {
      AndSplitBase(a0, a1, b0, b1);
    } else {
      HalfBelow(a0, n);
      HalfBelow(b0, n);
      LowZeroHalf(a1, n);
      LowZeroHalf(b1, n);
      hide Pow2, LowZero;
      AndSplit(a0 / 2, a1 / 2, b0 / 2, b1 / 2, n - 1);
      AndSplitStep(a0, a1, b0, b1);
    }
  }

  lemma AndSplitBase(a0: nat, a1: nat, b0: nat, b1: nat)
    requires a0 < Pow2(0) && b0 < Pow2(0)
    ensures And(a0 + a1, b0 + b1) == And(a0, b0) + And(a1, b1)
  {
    AndZero(0);
  }

  lemma HalfBelow(x: nat, n: nat)
    requires n > 0 && x < Pow2(n)
    ensures x / 2 < Pow2(n - 1)
  {
  }

  lemma LowZeroHalf(x: nat, n: nat)
    requires n > 0 && LowZero(x, n)
    ensures x % 2 == 0 && LowZero(x / 2, n - 1)
  {
  }

  lemma AndSplitStep(a0: nat, a1: nat, b0: nat, b1: nat)
    requires a1 % 2 == 0 && b1 % 2 == 0
    requires And(a0 / 2 + a1 / 2, b0 / 2 + b1 / 2) == And(a0 / 2, b0 / 2) + And(a1 / 2, b1 / 2)
    ensures And(a0 + a1, b0 + b1) == And(a0, b0) + And(a1, b1)
  {
    hide And;
    AndBitAddEven(a0, a1, b0, b1);
    AndStep(a0, b0);
    AndStep(a1, b1);
    AndStep(a0 + a1, b0 + b1);
  }

  lemma AndBitAddEven(a0: nat, a1: nat, b0: nat, b1: nat)
    requires a1 % 2 == 0 && b1 % 2 == 0
    ensures AndBit(a0 + a1, b0 + b1) == AndBit(a0, b0) + AndBit(a1, b1)
    ensures (a0 + a1) / 2 == a0 / 2 + a1 / 2 && (b0 + b1) / 2 == b0 / 2 + b1 / 2
  {
  }

  lemma AddEven(x: nat, y: nat)
    requires y % 2 == 0
    ensures (x + y) % 2 == x % 2 && (x + y) / 2 == x / 2 + y / 2
  {
  }

  lemma {:induction false} AndShift(a: nat, b: nat, n: nat)
    ensures And(a * Pow2(n), b * Pow2(n)) == And(a, b) * Pow2(n)
  {
    if n > 0 {
      var m := Pow2(n - 1);
      AndShift(a, b, n - 1);
      Regroup(a, m);
      Regroup(b, m);
      Regroup(And(a, b), m);
      AndEven(a * m, b * m);
    }
  }

  /** Both of the above for the shift n: the two halves of a number are masked apart. */
  lemma AndHalves(a0: nat, a1: nat, b0: nat, b1: nat, n: nat)
    requires a0 < Pow2(n) && b0 < Pow2(n)
    ensures And(a0 + a1 * Pow2(n), b0 + b1 * Pow2(n)) == And(a0, b0) + And(a1, b1) * Pow2(n)
  {
    hide And, Pow2;
    ShiftedLowZero(a1, n);
    ShiftedLowZero(b1, n);
    AndSplit(a0, a1 * Pow2(n), b0, b1 * Pow2(n), n);
    AndShift(a1, b1, n);
  }

  /** `x & ~15` rounds down to a multiple of 16. */
  lemma AlignDown16(x: u32)
    ensures And(x, 0xffff_fff0) == x - x % 16
  {
    Pow2Values();
    hide And, Pow2;
    AndHalves(x % 16, x / 16, 0, 0xfff_ffff, 4);
    AndZero(x % 16);
    AndMask(x / 16, 28);
  }

  lemma AndEven(a: nat, b: nat)
    ensures And(2 * a, 2 * b) == 2 * And(a, b)
  {
    hide And;
    AndStep(2 * a, 2 * b);
    assert 2 * a / 2 == a && 2 * b / 2 == b && AndBit(2 * a, 2 * b) == 0;
  }

  lemma Regroup(x: nat, m: nat)
    ensures x * (2 * m) == 2 * (x * m)
  {
  }

  lemma AndStep(a: nat, b: nat)
    ensures And(a, b) == AndBit(a, b) + 2 * And(a / 2, b / 2)
  {
    if a == 0 {
      assert AndBit(a, b) == 0 && And(a / 2, b / 2) == 0;
    }
  }

  /** When the operands share no bit, `|` is addition: the low one lies below 2^n
      and the high one is a multiple of 2^n. */
  lemma {:induction false} OrDisjoint(lo: nat, q: nat, n: nat)
    requires lo < Pow2(n)
    ensures Or(lo, q * Pow2(n)) == lo + q * Pow2(n)
  {
    if n > 0 && lo > 0 && q > 0 {
      var m := Pow2(n - 1);
      Regroup(q, m);
      OrDisjoint(lo / 2, q, n - 1);
      OrStep(lo, q * m);
    } else if q == 0 {
      assert q * Pow2(n) == 0;
    }
  }

  lemma OrStep(lo: nat, hi: nat)
    ensures Or(lo, 2 * hi) == lo % 2 + 2 * Or(lo / 2, hi)
  {
    AddEven(lo, 2 * hi);
  }

  lemma {:induction false} OrIsZero(a: nat, b: nat)
    ensures Or(a, b) == 0 <==> a == 0 && b == 0
  {
  }

  lemma {:induction false} XorSelf(a: nat)
    ensures Xor(a, a) == 0
  {
    if a > 0 {
      XorSelf(a / 2);
    }
  }

  lemma {:induction false} XorComm(a: nat, b: nat)
    ensures Xor(a, b) == Xor(b, a)
    decreases a + b
  {
    if a > 0 && b > 0 {
      XorComm(a / 2, b / 2);
    }
  }

  lemma XorStep(a: nat, b: nat)
    ensures Xor(a, b) == XorBit(a, b) + 2 * Xor(a / 2, b / 2)
  {
    if a == 0 {
      assert Xor(a, b) == b && Xor(a / 2, b / 2) == b / 2;
    } else if b == 0 {
      assert Xor(a, b) == a && Xor(a / 2, b / 2) == a / 2;
    }
  }

  lemma XorHalves(a: nat, b: nat)
    ensures Xor(a, b) % 2 == (a + b) % 2 && Xor(a, b) / 2 == Xor(a / 2, b / 2)
  {
    hide Xor;
    XorStep(a, b);
    OddAndEven(XorBit(a, b), Xor(a / 2, b / 2));
  }

  lemma OddAndEven(bit: nat, half: nat)
    requires bit <= 1
    ensures (bit + 2 * half) % 2 == bit && (bit + 2 * half) / 2 == half
  {
  }

  /** `(a ^ b) ^ b == a`: what makes a keystream its own inverse. */
  lemma {:induction false} XorCancel(a: nat, b: nat)
    ensures Xor(Xor(a, b), b) == a
    decreases a + b
  {
    if a == 0 {
      XorSelf(b);
    } else if b > 0 {
      hide Xor;
      var x := Xor(a, b);
      XorHalves(a, b);
      XorCancel(a / 2, b / 2);
      XorCancelStep(a, b, x);
    }
  }

  lemma XorCancelStep(a: nat, b: nat, x: nat)
    requires x % 2 == (a + b) % 2 && Xor(x / 2, b / 2) == a / 2
    ensures Xor(x, b) == a
  {
    XorStep(x, b);
    Parity(a, b, x);
  }

  lemma Parity(a: nat, b: nat, x: nat)
    requires x % 2 == (a + b) % 2
    ensures (x + b) % 2 + 2 * (a / 2) == a
  {
  }

  lemma {:induction false} XorEqualsZero(a: nat, b: nat)
    ensures Xor(a, b) == 0 <==> a == b
    decreases a + b
  {
    if a > 0 && b > 0 {
      XorEqualsZero(a / 2, b / 2);
    }
  }

  /* ---- Single bits ---- */

  /** Bit n of x. */
  predicate BitAt(x: nat, n: nat)
  {
    if n == 0 then x % 2 == 1 else BitAt(x / 2, n - 1)
  }

  lemma {:induction false} AndPow2(x: nat, d: nat)
    ensures And(x, Pow2(d)) != 0 <==> BitAt(x, d)
  {
    if x == 0 {
      NoBits(d);
    } else if d > 0 {
      AndPow2(x / 2, d - 1);
      assert Pow2(d) / 2 == Pow2(d - 1) && Pow2(d) % 2 == 0;
    } else {
      AndZero(x / 2);
    }
  }

  lemma {:induction false} NoBits(d: nat)
    ensures !BitAt(0, d)
  {
    if d > 0 {
      NoBits(d - 1);
    }
  }

  lemma {:induction false} BitOfOr(a: nat, b: nat, e: nat)
    ensures BitAt(Or(a, b), e) <==> BitAt(a, e) || BitAt(b, e)
    decreases e
  {
    if a == 0 || b == 0 {
      NoBits(e);
    } else {
      OrHalves(a, b);
      hide Or;
      if e > 0 {
        BitOfOr(a / 2, b / 2, e - 1);
      }
    }
  }

  lemma OrHalves(a: nat, b: nat)
    requires a > 0 && b > 0
    ensures Or(a, b) / 2 == Or(a / 2, b / 2)
    ensures Or(a, b) % 2 == 1 <==> a % 2 == 1 || b % 2 == 1
  {
  }

  lemma {:induction false} BitOfPow2(d: nat, e: nat)
    ensures BitAt(Pow2(d), e) <==> d == e
  {
    if d == 0 {
      if e > 0 {
        NoBits(e - 1);
      }
    } else {
      assert Pow2(d) / 2 == Pow2(d - 1) && Pow2(d) % 2 == 0;
      if e > 0 {
        BitOfPow2(d - 1, e - 1);
      }
    }
  }

  lemma {:induction false} BitOfShift(x: nat, k: nat, e: nat)
    ensures BitAt(x * Pow2(k), e) <==> e >= k && BitAt(x, e - k)
  {
    if k > 0 {
      var m := x * Pow2(k - 1);
      assert x * Pow2(k) == 2 * m;
      if e > 0 {
        BitOfShift(x, k - 1, e - 1);
      }
    }
  }

  lemma {:induction false} BitOfMod(x: nat, n: nat, e: nat)
    ensures BitAt(x % Pow2(n), e) <==> e < n && BitAt(x, e)
  {
    if n == 0 {
      NoBits(e);
    } else {
      ModDouble(x, Pow2(n - 1));
      if e > 0 {
        BitOfMod(x / 2, n - 1, e - 1);
      }
    }
  }
}
