/** The one-time authenticator of section 2.5 of RFC 7539, over plain integers. */
module Poly1305Spec {
  import opened Words
  import opened Bits
  import opened Bytes

  const P: nat := 0x3_ffff_ffff_ffff_ffff_ffff_ffff_ffff_fffb // 2^130 - 5
  const CLAMP: nat := 0x0fff_fffc_0fff_fffc_0fff_fffc_0fff_ffff
  const TWO128: nat := 0x1_0000_0000_0000_0000_0000_0000_0000_0000

  /** A block read as a number, with a one bit just above its last byte. */
  function BlockValue(block: seq<u8>): (n: nat)
  {
    Le(block + [1])
  }

  /** The accumulator after every 16-byte block of `msg`, the last possibly short. */
  function Accumulate(r: nat, msg: seq<u8>, acc: nat): (a: nat)
    decreases |msg|
  {
    if |msg| == 0 then acc
    else if |msg| <= 16 then (acc + BlockValue(msg)) * r % P
    else Accumulate(r, msg[16..], (acc + BlockValue(msg[..16])) * r % P)
  }

  function R(key: seq<u8>): nat
    requires |key| == 32
  {
    And(Le(key[..16]), CLAMP)
  }

  function Mac(key: seq<u8>, msg: seq<u8>): (tag: seq<u8>)
    requires |key| == 32
    ensures |tag| == 16
  {
    ToLe((Accumulate(R(key), msg, 0) + Le(key[16..])) % TWO128, 16)
  }

  /** Whole blocks at the front may be absorbed first. */
  lemma {:induction false} AccumulateConcat(r: nat, a: seq<u8>, b: seq<u8>, acc: nat)
    requires |a| % 16 == 0
    ensures Accumulate(r, a + b, acc) == Accumulate(r, b, Accumulate(r, a, acc))
    decreases |a|
  {
    if |a| == 0 {
      assert a + b == b;
    } else if |a| == 16 {
      if |b| == 0 {
        assert a + b == a;
      } else {
        assert (a + b)[..16] == a && (a + b)[16..] == b;
      }
    } else {
      AccumulateConcat(r, a[16..], b, (acc + BlockValue(a[..16])) * r % P);
      assert (a + b)[..16] == a[..16] && (a + b)[16..] == a[16..] + b;
    }
  }
}

/** Five 26-bit limbs: the arithmetic of poly1305-donna-32.h, stage by stage. */
module Poly1305Limbs {
  import opened Words
  import opened Bits
  import opened Bytes
  import opened Poly1305Spec

  const M26: nat := 0x3ff_ffff

  function V(a0: nat, a1: nat, a2: nat, a3: nat, a4: nat): (v: nat)
  {
    a0 + 0x400_0000 * a1 + 0x10_0000_0000_0000 * a2
       + 0x4000_0000_0000_0000_0000 * a3 + 0x100_0000_0000_0000_0000_0000_0000 * a4
  }

  datatype Limbs = Limbs(a0: u32, a1: u32, a2: u32, a3: u32, a4: u32) {
    function Value(): nat {
      V(a0, a1, a2, a3, a4)
    }
  }

  /** What holds of h between blocks. */
  predicate Carried(h: Limbs)
  {
    h.a0 <= M26 && h.a1 < 0x400_0000 + 64 && h.a2 <= M26 && h.a3 <= M26 && h.a4 <= M26
  }

  /** The bounds that clamping gives the limbs of r. */
  predicate Clamped(r: Limbs)
  {
    r.a0 <= 0x3ff_ffff && r.a1 <= 0x3ff_ff03 && r.a2 <= 0x3ff_c0ff && r.a3 <= 0x3f0_3fff && r.a4 <= 0xf_ffff
  }

  lemma Mask26(x: nat)
    ensures And(x, 0x3ff_ffff) == x % 0x400_0000
  {
    Pow2Values();
    AndMask(x, 26);
  }

  /* ---- Loading a block ---- */

  /** The five overlapping loads of a block: bits 0-25, 26-51, 52-77, 78-103 and 104-127. */
  lemma LoadLimbs(m: seq<u8>)
    requires |m| == 16
    ensures V(U8To32(m, 0) % 0x400_0000, U8To32(m, 3) / 4 % 0x400_0000, U8To32(m, 6) / 16 % 0x400_0000,
              U8To32(m, 9) / 64 % 0x400_0000, U8To32(m, 12) / 256) == Le(m)
    ensures U8To32(m, 12) / 256 < 0x100_0000
  {
    hide U8To32, Le, Word, V;
    U8To32IsLe(m, 0);
    U8To32IsLe(m, 3);
    U8To32IsLe(m, 6);
    U8To32IsLe(m, 9);
    U8To32IsLe(m, 12);
    LoadBytes(m[0], m[1], m[2], m[3], m[4], m[5], m[6], m[7], m[8], m[9], m[10], m[11], m[12], m[13], m[14], m[15]);
    Le16(m);
  }

  lemma LoadBytes(b0: nat, b1: nat, b2: nat, b3: nat, b4: nat, b5: nat, b6: nat, b7: nat, b8: nat, b9: nat,
                  b10: nat, b11: nat, b12: nat, b13: nat, b14: nat, b15: nat)
    requires b0 < 256 && b1 < 256 && b2 < 256 && b3 < 256 && b4 < 256 && b5 < 256 && b6 < 256 && b7 < 256
    requires b8 < 256 && b9 < 256 && b10 < 256 && b11 < 256 && b12 < 256 && b13 < 256 && b14 < 256 && b15 < 256
    ensures V(Word(b0, b1, b2, b3) % 0x400_0000, Word(b3, b4, b5, b6) / 4 % 0x400_0000,
              Word(b6, b7, b8, b9) / 16 % 0x400_0000, Word(b9, b10, b11, b12) / 64 % 0x400_0000,
              Word(b12, b13, b14, b15) / 256)
         == Word(b0, b1, b2, b3) + W32 * Word(b4, b5, b6, b7)
          + W64 * Word(b8, b9, b10, b11) + 0x1_0000_0000_0000_0000_0000_0000 * Word(b12, b13, b14, b15)
    ensures Word(b12, b13, b14, b15) / 256 < 0x100_0000
  {
    SplitLimb0(b0, b1, b2, b3);
    SplitLimb1(b3, b4, b5, b6);
    SplitLimb2(b6, b7, b8, b9);
    SplitLimb3(b9, b10, b11, b12);
    SplitLimb4(b12, b13, b14, b15);
    Recombine(b0, b1, b2, b3, b4, b5, b6, b7, b8, b9, b10, b11, b12, b13, b14, b15,
              b3 / 4, b3 % 4, b6 / 16, b6 % 16, b9 / 64, b9 % 64);
  }

  lemma Recombine(b0: nat, b1: nat, b2: nat, b3: nat, b4: nat, b5: nat, b6: nat, b7: nat, b8: nat, b9: nat,
                  b10: nat, b11: nat, b12: nat, b13: nat, b14: nat, b15: nat,
                  q3: nat, r3: nat, q6: nat, r6: nat, q9: nat, r9: nat)
    requires b3 == 4 * q3 + r3 && b6 == 16 * q6 + r6 && b9 == 64 * q9 + r9
    ensures V(b0 + 0x100 * b1 + 0x1_0000 * b2 + 0x100_0000 * r3,
              q3 + 0x40 * b4 + 0x4000 * b5 + 0x40_0000 * r6,
              q6 + 0x10 * b7 + 0x1000 * b8 + 0x10_0000 * r9,
              q9 + 4 * b10 + 0x400 * b11 + 0x4_0000 * b12,
              b13 + 0x100 * b14 + 0x1_0000 * b15)
         == b0 + 0x100 * b1 + 0x1_0000 * b2 + 0x100_0000 * b3
          + W32 * (b4 + 0x100 * b5 + 0x1_0000 * b6 + 0x100_0000 * b7)
          + W64 * (b8 + 0x100 * b9 + 0x1_0000 * b10 + 0x100_0000 * b11)
          + 0x1_0000_0000_0000_0000_0000_0000 * (b12 + 0x100 * b13 + 0x1_0000 * b14 + 0x100_0000 * b15)
  {
  }

  lemma Low26(w: nat, q: nat, r: nat)
    requires w == 0x400_0000 * q + r && r < 0x400_0000
    ensures w % 0x400_0000 == r
  {
  }

  lemma SplitLimb0(b0: nat, b1: nat, b2: nat, b3: nat)
    requires b0 < 256 && b1 < 256 && b2 < 256 && b3 < 256
    ensures Word(b0, b1, b2, b3) % 0x400_0000
         == b0 + 0x100 * b1 + 0x1_0000 * b2 + 0x100_0000 * (b3 % 4)
  {
    Low26(Word(b0, b1, b2, b3), b3 / 4, b0 + 0x100 * b1 + 0x1_0000 * b2 + 0x100_0000 * (b3 % 4));
  }

  lemma SplitLimb1(b3: nat, b4: nat, b5: nat, b6: nat)
    requires b3 < 256 && b4 < 256 && b5 < 256 && b6 < 256
    ensures Word(b3, b4, b5, b6) / 4 % 0x400_0000
         == b3 / 4 + 0x40 * b4 + 0x4000 * b5 + 0x40_0000 * (b6 % 16)
  {
    DivModUnique(Word(b3, b4, b5, b6), 4, b3 / 4 + 0x40 * b4 + 0x4000 * b5 + 0x40_0000 * b6, b3 % 4);
    Low26(Word(b3, b4, b5, b6) / 4, b6 / 16, b3 / 4 + 0x40 * b4 + 0x4000 * b5 + 0x40_0000 * (b6 % 16));
  }

  lemma SplitLimb2(b6: nat, b7: nat, b8: nat, b9: nat)
    requires b6 < 256 && b7 < 256 && b8 < 256 && b9 < 256
    ensures Word(b6, b7, b8, b9) / 16 % 0x400_0000
         == b6 / 16 + 0x10 * b7 + 0x1000 * b8 + 0x10_0000 * (b9 % 64)
  {
    DivModUnique(Word(b6, b7, b8, b9), 16, b6 / 16 + 0x10 * b7 + 0x1000 * b8 + 0x10_0000 * b9, b6 % 16);
    Low26(Word(b6, b7, b8, b9) / 16, b9 / 64, b6 / 16 + 0x10 * b7 + 0x1000 * b8 + 0x10_0000 * (b9 % 64));
  }

  lemma SplitLimb3(b9: nat, b10: nat, b11: nat, b12: nat)
    requires b9 < 256 && b10 < 256 && b11 < 256 && b12 < 256
    ensures Word(b9, b10, b11, b12) / 64 % 0x400_0000
         == b9 / 64 + 4 * b10 + 0x400 * b11 + 0x4_0000 * b12
  {
    DivModUnique(Word(b9, b10, b11, b12), 64, b9 / 64 + 4 * b10 + 0x400 * b11 + 0x4_0000 * b12, b9 % 64);
    Low26(Word(b9, b10, b11, b12) / 64, 0, b9 / 64 + 4 * b10 + 0x400 * b11 + 0x4_0000 * b12);
  }

  lemma SplitLimb4(b12: nat, b13: nat, b14: nat, b15: nat)
    requires b12 < 256 && b13 < 256 && b14 < 256 && b15 < 256
    ensures Word(b12, b13, b14, b15) / 256
         == b13 + 0x100 * b14 + 0x1_0000 * b15
  {
    DivModUnique(Word(b12, b13, b14, b15), 256, b13 + 0x100 * b14 + 0x1_0000 * b15, b12);
  }

  lemma Le16(m: seq<u8>)
    requires |m| == 16
    ensures Le(m) == Word(m[0], m[1], m[2], m[3]) + W32 * Word(m[4], m[5], m[6], m[7])
      + W64 * Word(m[8], m[9], m[10], m[11]) + 0x1_0000_0000_0000_0000_0000_0000 * Word(m[12], m[13], m[14], m[15])
  {
    hide Le, Word;
    LeTail(m);
    LeTail(m[4..]);
    LeTail(m[8..]);
    LeWord(m[12..]);
    assert m[4..][4..] == m[8..] && m[8..][4..] == m[12..];
  }

  /** `h += m[i]`: no 32-bit sum wraps. */
  method AddBlock(h: Limbs, m: seq<u8>, hibit: u32) returns (h': Limbs)
    requires Carried(h) && |m| == 16 && (hibit == 0 || hibit == 0x100_0000)
    ensures h'.Value() == h.Value() + Le(m) + 0x100_0000_0000_0000_0000_0000_0000 * hibit
    ensures Loaded(h')
  {
    hide Le, V;
    var l := BlockLimbs(m, hibit);
    h' := Limbs(h.a0 + l.a0, h.a1 + l.a1, h.a2 + l.a2, h.a3 + l.a3, h.a4 + l.a4);
    SumOfLimbs(h.a0, h.a1, h.a2, h.a3, h.a4, l.a0, l.a1, l.a2, l.a3, l.a4);
  }

  /** The limbs of a block with its high bit. */
  method BlockLimbs(m: seq<u8>, hibit: u32) returns (l: Limbs)
    requires |m| == 16 && (hibit == 0 || hibit == 0x100_0000)
    ensures l.Value() == Le(m) + 0x100_0000_0000_0000_0000_0000_0000 * hibit
    ensures l.a0 <= M26 && l.a1 <= M26 && l.a2 <= M26 && l.a3 <= M26 && l.a4 <= 0x1ff_ffff
  {
    hide Or, And, Le, U8To32;
    LoadLimbs(m);
    Mask26(U8To32(m, 0));
    Mask26(U8To32(m, 3) / 4);
    Mask26(U8To32(m, 6) / 16);
    Mask26(U8To32(m, 9) / 64);
    OrHibit(U8To32(m, 12) / 256, hibit);
    l := Limbs(
      And(U8To32(m, 0), 0x3ff_ffff),
      And(U8To32(m, 3) / 4, 0x3ff_ffff),
      And(U8To32(m, 6) / 16, 0x3ff_ffff),
      And(U8To32(m, 9) / 64, 0x3ff_ffff),
      Or(U8To32(m, 12) / 256, hibit));
  }

  lemma SumOfLimbs(a0: nat, a1: nat, a2: nat, a3: nat, a4: nat, b0: nat, b1: nat, b2: nat, b3: nat, b4: nat)
    ensures V(a0 + b0, a1 + b1, a2 + b2, a3 + b3, a4 + b4) == V(a0, a1, a2, a3, a4) + V(b0, b1, b2, b3, b4)
  {
  }

  lemma OrHibit(x: nat, hibit: u32)
    requires x < 0x100_0000 && (hibit == 0 || hibit == 0x100_0000)
    ensures Or(x, hibit) == x + hibit
  {
    Pow2Values();
    OrDisjoint(x, 1, 24);
    OrDisjoint(x, 0, 24);
  }

  /** Bounds after a block has been added. */
  predicate Loaded(h: Limbs)
  {
    h.a0 <= 0x7ff_fffe && h.a1 <= 0x7ff_fffe + 64 && h.a2 <= 0x7ff_fffe && h.a3 <= 0x7ff_fffe && h.a4 <= 0x5ff_fffe
  }

  /* ---- h *= r ---- */

  datatype Columns = Columns(d0: u64, d1: u64, d2: u64, d3: u64, d4: u64) {
    function Value(): nat {
      V(d0, d1, d2, d3, d4)
    }
  }

  /** Bounds on the column sums: every carry out of a column fits 32 bits, and so does
      five times the last one. */
  predicate ColumnsBounded(d: Columns)
  {
    d.d0 < 0x200_0000_0000_0000 && d.d1 < 0x200_0000_0000_0000 && d.d2 < 0x200_0000_0000_0000
      && d.d3 < 0x200_0000_0000_0000 && d.d4 < 0x80_0000_0000_0000
  }

  lemma MulBound(a: nat, b: nat, x: nat, y: nat)
    requires a <= x && b <= y
    ensures a * b <= x * y
  {
  }

  function Dot(h: Limbs, k0: nat, k1: nat, k2: nat, k3: nat, k4: nat): (d: nat)
  {
    Dot5(h.a0, h.a1, h.a2, h.a3, h.a4, k0, k1, k2, k3, k4)
  }

  function Dot5(h0: nat, h1: nat, h2: nat, h3: nat, h4: nat, k0: nat, k1: nat, k2: nat, k3: nat, k4: nat): (d: nat)
  {
    h0 * k0 + h1 * k1 + h2 * k2 + h3 * k3 + h4 * k4
  }

  lemma DotBound(h: Limbs, k0: nat, k1: nat, k2: nat, k3: nat, k4: nat, n0: nat, n1: nat, n2: nat, n3: nat, n4: nat)
    requires Loaded(h) && k0 <= n0 && k1 <= n1 && k2 <= n2 && k3 <= n3 && k4 <= n4
    ensures Dot(h, k0, k1, k2, k3, k4) <= 0x7ff_fffe * n0 + 0x800_003e * n1 + 0x7ff_fffe * n2 + 0x7ff_fffe * n3 + 0x5ff_fffe * n4
  {
    MulBound(h.a0, k0, 0x7ff_fffe, n0);
    MulBound(h.a1, k1, 0x800_003e, n1);
    MulBound(h.a2, k2, 0x7ff_fffe, n2);
    MulBound(h.a3, k3, 0x7ff_fffe, n3);
    MulBound(h.a4, k4, 0x5ff_fffe, n4);
  }

  /** No 64-bit column sum wraps. */
  lemma ColumnBounds(h: Limbs, r: Limbs, s1: nat, s2: nat, s3: nat, s4: nat)
    requires Loaded(h) && Clamped(r)
    requires s1 == 5 * r.a1 as nat && s2 == 5 * r.a2 as nat && s3 == 5 * r.a3 as nat && s4 == 5 * r.a4 as nat
    ensures Dot(h, r.a0, s4, s3, s2, s1) < 0x200_0000_0000_0000
    ensures Dot(h, r.a1, r.a0, s4, s3, s2) < 0x200_0000_0000_0000
    ensures Dot(h, r.a2, r.a1, r.a0, s4, s3) < 0x200_0000_0000_0000
    ensures Dot(h, r.a3, r.a2, r.a1, r.a0, s4) < 0x200_0000_0000_0000
    ensures Dot(h, r.a4, r.a3, r.a2, r.a1, r.a0) < 0x80_0000_0000_0000
  {
    hide Dot;
    DotBound(h, r.a0, s4, s3, s2, s1, 0x3ff_ffff, 0x4f_fffb, 0x13b1_3ffb, 0x13fe_c4fb, 0x13ff_fb0f);
    DotBound(h, r.a1, r.a0, s4, s3, s2, 0x3ff_ff03, 0x3ff_ffff, 0x4f_fffb, 0x13b1_3ffb, 0x13fe_c4fb);
    DotBound(h, r.a2, r.a1, r.a0, s4, s3, 0x3ff_c0ff, 0x3ff_ff03, 0x3ff_ffff, 0x4f_fffb, 0x13b1_3ffb);
    DotBound(h, r.a3, r.a2, r.a1, r.a0, s4, 0x3f0_3fff, 0x3ff_c0ff, 0x3ff_ff03, 0x3ff_ffff, 0x4f_fffb);
    DotBound(h, r.a4, r.a3, r.a2, r.a1, r.a0, 0xf_ffff, 0x3f0_3fff, 0x3ff_c0ff, 0x3ff_ff03, 0x3ff_ffff);
  }

  /** The schoolbook product regrouped by column, with 2^130 folded to 5. */
  lemma FoldLinear(p00: nat, p01: nat, p02: nat, p03: nat, p04: nat, p10: nat, p11: nat, p12: nat, p13: nat, p14: nat, p20: nat, p21: nat, p22: nat, p23: nat, p24: nat, p30: nat, p31: nat, p32: nat, p33: nat, p34: nat, p40: nat, p41: nat, p42: nat, p43: nat, p44: nat)
    ensures V(p00 + 5 * p14 + 5 * p23 + 5 * p32 + 5 * p41,
              p01 + p10 + 5 * p24 + 5 * p33 + 5 * p42,
              p02 + p11 + p20 + 5 * p34 + 5 * p43,
              p03 + p12 + p21 + p30 + 5 * p44,
              p04 + p13 + p22 + p31 + p40)
            + P * V(p14 + p23 + p32 + p41, p24 + p33 + p42, p34 + p43, p44, 0)
         == V(V(p00, p10, p20, p30, p40), V(p01, p11, p21, p31, p41), V(p02, p12, p22, p32, p42),
              V(p03, p13, p23, p33, p43), V(p04, p14, p24, p34, p44))
  {
  }

  lemma FiveTimes(a: nat, b: nat)
    ensures a * (5 * b) == 5 * (a * b)
  {
  }

  lemma Distribute(a: nat, b: nat, c: nat, d: nat, e: nat, k: nat)
    ensures V(a, b, c, d, e) * k == V(a * k, b * k, c * k, d * k, e * k)
  {
  }

  lemma ModPlusMultiple(x: int, y: int, q: int)
    requires x + P * q == y
    ensures x % P == y % P
  {
  }

  lemma Fold(h0: nat, h1: nat, h2: nat, h3: nat, h4: nat, r0: nat, r1: nat, r2: nat, r3: nat, r4: nat)
    ensures V(h0 * r0 + h1 * (5 * r4) + h2 * (5 * r3) + h3 * (5 * r2) + h4 * (5 * r1),
              h0 * r1 + h1 * r0 + h2 * (5 * r4) + h3 * (5 * r3) + h4 * (5 * r2),
              h0 * r2 + h1 * r1 + h2 * r0 + h3 * (5 * r4) + h4 * (5 * r3),
              h0 * r3 + h1 * r2 + h2 * r1 + h3 * r0 + h4 * (5 * r4),
              h0 * r4 + h1 * r3 + h2 * r2 + h3 * r1 + h4 * r0)
            + P * V(h1 * r4 + h2 * r3 + h3 * r2 + h4 * r1, h2 * r4 + h3 * r3 + h4 * r2, h3 * r4 + h4 * r3, h4 * r4, 0)
         == V(V(h0, h1, h2, h3, h4) * r0, V(h0, h1, h2, h3, h4) * r1, V(h0, h1, h2, h3, h4) * r2,
              V(h0, h1, h2, h3, h4) * r3, V(h0, h1, h2, h3, h4) * r4)
  {
    hide V;
    FoldLinear(h0 * r0, h0 * r1, h0 * r2, h0 * r3, h0 * r4, h1 * r0, h1 * r1, h1 * r2, h1 * r3, h1 * r4,
               h2 * r0, h2 * r1, h2 * r2, h2 * r3, h2 * r4, h3 * r0, h3 * r1, h3 * r2, h3 * r3, h3 * r4,
               h4 * r0, h4 * r1, h4 * r2, h4 * r3, h4 * r4);
    FiveTimes(h1, r4);
    FiveTimes(h2, r3);
    FiveTimes(h3, r2);
    FiveTimes(h4, r1);
    FiveTimes(h2, r4);
    FiveTimes(h3, r3);
    FiveTimes(h4, r2);
    FiveTimes(h3, r4);
    FiveTimes(h4, r3);
    FiveTimes(h4, r4);
    Distribute(h0, h1, h2, h3, h4, r0);
    Distribute(h0, h1, h2, h3, h4, r1);
    Distribute(h0, h1, h2, h3, h4, r2);
    Distribute(h0, h1, h2, h3, h4, r3);
    Distribute(h0, h1, h2, h3, h4, r4);
  }

  /** The part of the product at 2^130 and above, in multiples of 2^130. */
  function Above(h1: nat, h2: nat, h3: nat, h4: nat, r1: nat, r2: nat, r3: nat, r4: nat): (q: nat)
  {
    V(h1 * r4 + h2 * r3 + h3 * r2 + h4 * r1, h2 * r4 + h3 * r3 + h4 * r2, h3 * r4 + h4 * r3, h4 * r4, 0)
  }

  /** The five columns with 5 * r stand for h * r: they differ by a multiple of 2^130 - 5. */
  lemma FoldProduct(h0: nat, h1: nat, h2: nat, h3: nat, h4: nat, r0: nat, r1: nat, r2: nat, r3: nat, r4: nat,
                    s1: nat, s2: nat, s3: nat, s4: nat)
    requires s1 == 5 * r1 && s2 == 5 * r2 && s3 == 5 * r3 && s4 == 5 * r4
    ensures V(Dot5(h0, h1, h2, h3, h4, r0, s4, s3, s2, s1),
              Dot5(h0, h1, h2, h3, h4, r1, r0, s4, s3, s2),
              Dot5(h0, h1, h2, h3, h4, r2, r1, r0, s4, s3),
              Dot5(h0, h1, h2, h3, h4, r3, r2, r1, r0, s4),
              Dot5(h0, h1, h2, h3, h4, r4, r3, r2, r1, r0))
            + P * Above(h1, h2, h3, h4, r1, r2, r3, r4)
         == V(h0, h1, h2, h3, h4) * V(r0, r1, r2, r3, r4)
  {
    hide V;
    var h := V(h0, h1, h2, h3, h4);
    Fold(h0, h1, h2, h3, h4, r0, r1, r2, r3, r4);
    Distribute(r0, r1, r2, r3, r4, h);
    Commute(r0, r1, r2, r3, r4, h);
  }

  lemma Commute(r0: nat, r1: nat, r2: nat, r3: nat, r4: nat, h: int)
    ensures h * r0 == r0 * h && h * r1 == r1 * h && h * r2 == r2 * h && h * r3 == r3 * h && h * r4 == r4 * h
    ensures V(r0, r1, r2, r3, r4) * h == h * V(r0, r1, r2, r3, r4)
  {
  }

  /** The column sums are congruent to h times r, and no word wraps in computing them. */
  method Multiply(h: Limbs, r: Limbs) returns (d: Columns)
    requires Loaded(h) && Clamped(r)
    ensures d.Value() % P == h.Value() * r.Value() % P
    ensures ColumnsBounded(d)
  {
    hide Dot5, V, Above;
    var s1: u32, s2: u32, s3: u32, s4: u32 := r.a1 * 5, r.a2 * 5, r.a3 * 5, r.a4 * 5;
    ColumnBounds(h, r, s1, s2, s3, s4);
    FoldProduct(h.a0, h.a1, h.a2, h.a3, h.a4, r.a0, r.a1, r.a2, r.a3, r.a4, s1, s2, s3, s4);
    d := Columns(
      Dot(h, r.a0, s4, s3, s2, s1),
      Dot(h, r.a1, r.a0, s4, s3, s2),
      Dot(h, r.a2, r.a1, r.a0, s4, s3),
      Dot(h, r.a3, r.a2, r.a1, r.a0, s4),
      Dot(h, r.a4, r.a3, r.a2, r.a1, r.a0));
    ModPlusMultiple(d.Value(), h.Value() * r.Value(), Above(h.a1, h.a2, h.a3, h.a4, r.a1, r.a2, r.a3, r.a4));
  }

  /* ---- (partial) h %= p ---- */

  /** The carry chain, with the carry out of the top limb folded back in as five times itself. */
  method PartialReduce(d: Columns) returns (h: Limbs)
    requires ColumnsBounded(d)
    ensures Carried(h)
    ensures h.Value() % P == d.Value() % P
  {
    ghost var was := d;
    var c: u32 := d.d0 / 0x400_0000;
    var h0: u32 := Mask(d.d0);
    var d1: u64 := d.d1 + c;
    c := d1 / 0x400_0000;
    var h1: u32 := Mask(d1);
    var d2: u64 := d.d2 + c;
    c := d2 / 0x400_0000;
    var h2: u32 := Mask(d2);
    var d3: u64 := d.d3 + c;
    c := d3 / 0x400_0000;
    var h3: u32 := Mask(d3);
    var d4: u64 := d.d4 + c;
    c := d4 / 0x400_0000;
    var h4: u32 := Mask(d4);
    ghost var top := c;
    h0 := h0 + c * 5;
    c := h0 / 0x400_0000;
    h0 := Mask(h0);
    h1 := h1 + c;
    h := Limbs(h0, h1, h2, h3, h4);
    assert h.Value() + P * top == was.Value();
    ModPlusMultiple(h.Value(), was.Value(), top);
  }

  /** `x & 0x3ffffff` */
  function Mask(x: nat): (m: u32)
    ensures m == x % 0x400_0000
  {
    Mask26(x);
    And(x, 0x3ff_ffff)
  }

  /* ---- Finishing ---- */

  predicate Tight(h: Limbs)
  {
    h.a0 <= M26 && h.a1 <= M26 && h.a2 <= M26 && h.a3 <= M26 && h.a4 <= M26
  }

  /** One carry pass suffices: were the top carry 1, the first carry emptied h1. */
  method FullCarry(h: Limbs) returns (t: Limbs)
    requires Carried(h)
    ensures Tight(t)
    ensures t.Value() % P == h.Value() % P
  {
    var c1: u32 := h.a1 / 0x400_0000;
    var h1: u32 := Mask(h.a1);
    var h2: u32 := h.a2 + c1;
    var c2: u32 := h2 / 0x400_0000;
    h2 := Mask(h2);
    var h3: u32 := h.a3 + c2;
    var c3: u32 := h3 / 0x400_0000;
    h3 := Mask(h3);
    var h4: u32 := h.a4 + c3;
    var c4: u32 := h4 / 0x400_0000;
    h4 := Mask(h4);
    var h0: u32 := h.a0 + c4 * 5;
    var c0: u32 := h0 / 0x400_0000;
    h0 := Mask(h0);
    FullCarryValue(h.a0, h.a1, h.a2, h.a3, h.a4, c1, c2, c3, c4, c0, h0, h1, h2, h3, h4);
    h1 := h1 + c0;
    t := Limbs(h0, h1, h2, h3, h4);
    ModPlusMultiple(t.Value(), h.Value(), c4);
  }

  lemma FullCarryValue(a0: nat, a1: nat, a2: nat, a3: nat, a4: nat, c1: nat, c2: nat, c3: nat, c4: nat, c0: nat,
                       t0: nat, t1: nat, t2: nat, t3: nat, t4: nat)
    requires a0 <= M26 && a1 < 0x400_0000 + 64 && a2 <= M26 && a3 <= M26 && a4 <= M26
    requires t0 <= M26 && t1 <= M26 && t2 <= M26 && t3 <= M26 && t4 <= M26
    requires a1 == 0x400_0000 * c1 + t1 && a2 + c1 == 0x400_0000 * c2 + t2 && a3 + c2 == 0x400_0000 * c3 + t3
    requires a4 + c3 == 0x400_0000 * c4 + t4 && a0 + 5 * c4 == 0x400_0000 * c0 + t0
    ensures c0 <= 1 && c4 <= 1 && t1 + c0 <= M26
    ensures V(t0, t1 + c0, t2, t3, t4) + P * c4 == V(a0, a1, a2, a3, a4)
  {
  }

  /** `h + 5 - 2^130`, with the borrow left in the wrapped sign bit of the top limb. */
  method MinusP(h: Limbs) returns (g: Limbs)
    requires Tight(h)
    ensures g.a0 <= M26 && g.a1 <= M26 && g.a2 <= M26 && g.a3 <= M26
    ensures h.Value() >= P ==> g.a4 <= M26 && g.Value() == h.Value() - P
    ensures h.Value() < P <==> g.a4 >= 0x8000_0000
  {
    hide V, Mask, Carry;
    var g0: u32 := h.a0 + 5;
    var c0: u32 := Carry(g0);
    var g1: u32 := h.a1 + c0;
    var c1: u32 := Carry(g1);
    var g2: u32 := h.a2 + c1;
    var c2: u32 := Carry(g2);
    var g3: u32 := h.a3 + c2;
    var c3: u32 := Carry(g3);
    MinusPValue(h.a0, h.a1, h.a2, h.a3, h.a4, c0, c1, c2, c3, Mask(g0), Mask(g1), Mask(g2), Mask(g3));
    g := Limbs(Mask(g0), Mask(g1), Mask(g2), Mask(g3), Sub32(h.a4 as int + c3, 0x400_0000));
  }

  function Carry(x: u32): (c: u32)
    ensures x == 0x400_0000 * c as int + Mask(x)
    ensures x < 0x800_0000 ==> c <= 1
  {
    x / 0x400_0000
  }

  lemma MinusPValue(a0: nat, a1: nat, a2: nat, a3: nat, a4: nat, c0: nat, c1: nat, c2: nat, c3: nat,
                    g0: nat, g1: nat, g2: nat, g3: nat)
    requires a0 <= M26 && a1 <= M26 && a2 <= M26 && a3 <= M26 && a4 <= M26
    requires g0 <= M26 && g1 <= M26 && g2 <= M26 && g3 <= M26
    requires a0 + 5 == 0x400_0000 * c0 + g0 && a1 + c0 == 0x400_0000 * c1 + g1
    requires a2 + c1 == 0x400_0000 * c2 + g2 && a3 + c2 == 0x400_0000 * c3 + g3
    ensures c3 <= 1
    ensures V(a0, a1, a2, a3, a4) >= P <==> a4 + c3 >= 0x400_0000
    ensures a4 + c3 >= 0x400_0000 ==> V(g0, g1, g2, g3, a4 + c3 - 0x400_0000) == V(a0, a1, a2, a3, a4) - P
  {
  }

  /** `(h & mask) | g` with `g` masked by the complement: a branch-free choice. */
  function Choose(h: u32, g: u32, mask: u32): (r: nat)
  {
    Or(And(h, mask), And(g, Not32(mask)))
  }

  lemma ChooseIs(h: u32, g: u32)
    ensures Choose(h, g, 0xffff_ffff) == h
    ensures Choose(h, g, 0) == g
  {
    hide And, Or;
    Mask32(h);
    Mask32(g);
    AndZero(h);
    AndZero(g);
    OrNothing(h);
    OrNothing(g);
  }

  lemma OrNothing(x: nat)
    ensures Or(x, 0) == x && Or(0, x) == x
  {
  }

  /** Selects h when h < P and h - P otherwise, by a mask made from the sign bit. */
  method Select(h: Limbs) returns (s: Limbs)
    requires Tight(h)
    ensures Tight(s)
    ensures s.Value() == h.Value() % P
  {
    hide Choose, V;
    var g := MinusP(h);
    var mask: u32 := Sub32(g.a4 as int / 0x8000_0000, 1);
    mask := Not32(mask);
    ChooseIs(h.a0, g.a0);
    ChooseIs(h.a1, g.a1);
    ChooseIs(h.a2, g.a2);
    ChooseIs(h.a3, g.a3);
    ChooseIs(h.a4, g.a4);
    assert mask == if h.Value() < P then 0xffff_ffff else 0;
    s := Limbs(Choose(h.a0, g.a0, mask), Choose(h.a1, g.a1, mask), Choose(h.a2, g.a2, mask),
      Choose(h.a3, g.a3, mask), Choose(h.a4, g.a4, mask));
    BelowTwoP(h);
  }

  lemma BelowTwoP(h: Limbs)
    requires Tight(h)
    ensures h.Value() % P == if h.Value() < P then h.Value() else h.Value() - P
  {
  }

  datatype Quad = Quad(w0: u32, w1: u32, w2: u32, w3: u32) {
    function Value(): nat {
      V4(w0, w1, w2, w3)
    }
  }

  /** `h % 2^128`, moved from 26-bit limbs to 32-bit words. */
  method Repack(h: Limbs) returns (q: Quad)
    requires Tight(h)
    ensures q.Value() == h.Value() % TWO128
  {
    var y1, y2, y3, y4 := h.a1 as nat % 0x40, h.a2 as nat % 0x1000, h.a3 as nat % 0x4_0000, h.a4 as nat % 0x100_0000;
    RepackWords(h.a0, h.a1, h.a2, h.a3, h.a4);
    hide Or, V;
    q := Quad(Or(h.a0, h.a1 as nat * 0x400_0000 % W32), Or(h.a1 / 0x40, h.a2 as nat * 0x10_0000 % W32),
      Or(h.a2 / 0x1000, h.a3 as nat * 0x4000 % W32), Or(h.a3 / 0x4_0000, h.a4 as nat * 0x100 % W32));
    RepackValue(h.a0, h.a1, h.a2, h.a3, h.a4, h.a1 / 0x40, y1, h.a2 / 0x1000, y2, h.a3 / 0x4_0000, y3, h.a4 / 0x100_0000, y4);
  }

  lemma RepackWords(a0: nat, a1: nat, a2: nat, a3: nat, a4: nat)
    requires a0 <= M26 && a1 <= M26 && a2 <= M26 && a3 <= M26 && a4 <= M26
    ensures Or(a0, a1 * 0x400_0000 % W32) == a0 + 0x400_0000 * (a1 % 0x40)
    ensures Or(a1 / 0x40, a2 * 0x10_0000 % W32) == a1 / 0x40 + 0x10_0000 * (a2 % 0x1000)
    ensures Or(a2 / 0x1000, a3 * 0x4000 % W32) == a2 / 0x1000 + 0x4000 * (a3 % 0x4_0000)
    ensures Or(a3 / 0x4_0000, a4 * 0x100 % W32) == a3 / 0x4_0000 + 0x100 * (a4 % 0x100_0000)
  {
    Pow2Values();
    hide Or, Pow2;
    OrDisjoint(a0, a1 % 0x40, 26);
    OrDisjoint(a1 / 0x40, a2 % 0x1000, 20);
    OrDisjoint(a2 / 0x1000, a3 % 0x4_0000, 14);
    OrDisjoint(a3 / 0x4_0000, a4 % 0x100_0000, 8);
    ShiftOut(a1, a2, a3, a4);
  }

  /** A 32-bit left shift drops the bits shifted past the top. */
  lemma ShiftOut(a1: nat, a2: nat, a3: nat, a4: nat)
    ensures a1 * 0x400_0000 % W32 == a1 % 0x40 * 0x400_0000
    ensures a2 * 0x10_0000 % W32 == a2 % 0x1000 * 0x10_0000
    ensures a3 * 0x4000 % W32 == a3 % 0x4_0000 * 0x4000
    ensures a4 * 0x100 % W32 == a4 % 0x100_0000 * 0x100
  {
  }

  lemma RepackValue(a0: nat, a1: nat, a2: nat, a3: nat, a4: nat, x1: nat, y1: nat, x2: nat, y2: nat, x3: nat, y3: nat, x4: nat, y4: nat)
    requires a0 <= M26 && a1 == 0x40 * x1 + y1 && a2 == 0x1000 * x2 + y2
    requires a3 == 0x4_0000 * x3 + y3 && a4 == 0x100_0000 * x4 + y4
    requires y1 < 0x40 && y2 < 0x1000 && y3 < 0x4_0000 && y4 < 0x100_0000
    requires x1 < 0x10_0000 && x2 < 0x4000 && x3 < 0x100
    ensures a0 + 0x400_0000 * y1 + W32 * (x1 + 0x10_0000 * y2) + W64 * (x2 + 0x4000 * y3)
            + 0x1_0000_0000_0000_0000_0000_0000 * (x3 + 0x100 * y4)
         == V(a0, a1, a2, a3, a4) % TWO128
  {
    DivModUnique(V(a0, a1, a2, a3, a4), TWO128, x4,
      a0 + 0x400_0000 * y1 + W32 * (x1 + 0x10_0000 * y2) + W64 * (x2 + 0x4000 * y3)
      + 0x1_0000_0000_0000_0000_0000_0000 * (x3 + 0x100 * y4));
  }

  /** `mac = (h + pad) % 2^128` by 64-bit sums. */
  method AddPad(h: Quad, pad: Quad) returns (q: Quad)
    ensures q.Value() == (h.Value() + pad.Value()) % TWO128
  {
    var f0: u64 := h.w0 as int + pad.w0;
    var f1: u64 := h.w1 as int + pad.w1 + f0 / W32;
    var f2: u64 := h.w2 as int + pad.w2 + f1 / W32;
    var f3: u64 := h.w3 as int + pad.w3 + f2 / W32;
    q := Quad(f0 % W32, f1 % W32, f2 % W32, f3 % W32);
    AddPadValue(h.w0, h.w1, h.w2, h.w3, pad.w0, pad.w1, pad.w2, pad.w3, q.w0, q.w1, q.w2, q.w3,
      f0 / W32, f1 / W32, f2 / W32, f3 / W32);
    TwoPow128(q.Value(), f3 / W32);
  }

  function V4(a0: nat, a1: nat, a2: nat, a3: nat): (v: nat)
  {
    a0 + W32 * a1 + W64 * a2 + 0x1_0000_0000_0000_0000_0000_0000 * a3
  }

  lemma AddPadValue(h0: nat, h1: nat, h2: nat, h3: nat, p0: nat, p1: nat, p2: nat, p3: nat,
                    q0: nat, q1: nat, q2: nat, q3: nat, c0: nat, c1: nat, c2: nat, c3: nat)
    requires h0 + p0 == W32 * c0 + q0 && h1 + p1 + c0 == W32 * c1 + q1
    requires h2 + p2 + c1 == W32 * c2 + q2 && h3 + p3 + c2 == W32 * c3 + q3
    ensures V4(h0, h1, h2, h3) + V4(p0, p1, p2, p3) == TWO128 * c3 + V4(q0, q1, q2, q3)
  {
  }

  lemma TwoPow128(x: nat, c: nat)
    requires x < TWO128
    ensures (TWO128 * c + x) % TWO128 == x
  {
  }

  /* ---- Clamping ---- */

  function Cons26(a: nat, rest: nat): (v: nat)
  {
    a + 0x400_0000 * rest
  }

  lemma AndHalves26(a0: nat, a1: nat, b0: nat, b1: nat)
    requires a0 < 0x400_0000 && b0 < 0x400_0000
    ensures And(Cons26(a0, a1), Cons26(b0, b1)) == Cons26(And(a0, b0), And(a1, b1))
  {
    hide And, Pow2;
    Pow2Values();
    AndHalves(a0, a1, b0, b1, 26);
  }

  /** A mask below 2^26 reads only the low 26 bits. */
  lemma AndLow26(x: nat, c: nat)
    requires c < 0x400_0000
    ensures And(x, c) == And(x % 0x400_0000, c)
  {
    AndZero(x / 0x400_0000);
    hide And;
    AndHalves26(x % 0x400_0000, x / 0x400_0000, c, 0);
  }

  lemma Nest(a0: nat, a1: nat, a2: nat, a3: nat, a4: nat)
    ensures V(a0, a1, a2, a3, a4) == Cons26(a0, Cons26(a1, Cons26(a2, Cons26(a3, a4))))
  {
  }

  lemma AndLimbs(a0: nat, a1: nat, a2: nat, a3: nat, a4: nat, c0: nat, c1: nat, c2: nat, c3: nat, c4: nat)
    requires a0 <= M26 && a1 <= M26 && a2 <= M26 && a3 <= M26
    requires c0 <= M26 && c1 <= M26 && c2 <= M26 && c3 <= M26
    ensures And(V(a0, a1, a2, a3, a4), V(c0, c1, c2, c3, c4)) == V(And(a0, c0), And(a1, c1), And(a2, c2), And(a3, c3), And(a4, c4))
  {
    hide And, V, Cons26;
    Nest(a0, a1, a2, a3, a4);
    Nest(c0, c1, c2, c3, c4);
    Nest(And(a0, c0), And(a1, c1), And(a2, c2), And(a3, c3), And(a4, c4));
    AndHalves26(a3, a4, c3, c4);
    AndHalves26(a2, Cons26(a3, a4), c2, Cons26(c3, c4));
    AndHalves26(a1, Cons26(a2, Cons26(a3, a4)), c1, Cons26(c2, Cons26(c3, c4)));
    AndHalves26(a0, Cons26(a1, Cons26(a2, Cons26(a3, a4))), c0, Cons26(c1, Cons26(c2, Cons26(c3, c4))));
  }

  /** The five masks of `poly1305_init` are the clamp of RFC 7539, cut at the limb boundaries. */
  method ClampLimbs(k: seq<u8>) returns (r: Limbs)
    requires |k| == 16
    ensures Clamped(r) && r.Value() == And(Le(k), CLAMP)
  {
    hide And, Le, U8To32, V;
    LoadLimbs(k);
    var l0, l1, l2, l3, l4 := U8To32(k, 0), U8To32(k, 3) / 4, U8To32(k, 6) / 16, U8To32(k, 9) / 64, U8To32(k, 12) / 256;
    AndLow26(l0, 0x3ff_ffff);
    AndLow26(l1, 0x3ff_ff03);
    AndLow26(l2, 0x3ff_c0ff);
    AndLow26(l3, 0x3f0_3fff);
    ClampConstant();
    AndLimbs(l0 % 0x400_0000, l1 % 0x400_0000, l2 % 0x400_0000, l3 % 0x400_0000, l4,
      0x3ff_ffff, 0x3ff_ff03, 0x3ff_c0ff, 0x3f0_3fff, 0xf_ffff);
    r := Limbs(And(l0, 0x3ff_ffff), And(l1, 0x3ff_ff03), And(l2, 0x3ff_c0ff), And(l3, 0x3f0_3fff), And(l4, 0xf_ffff));
  }

  lemma ClampConstant()
    ensures CLAMP == V(0x3ff_ffff, 0x3ff_ff03, 0x3ff_c0ff, 0x3f0_3fff, 0xf_ffff)
  {
  }
}

/** poly1305_init, poly1305_update and poly1305_finish over one context. */
module Poly1305 {
  import opened Words
  import opened Bits
  import opened Bytes
  import opened Poly1305Spec
  import opened Poly1305Limbs

  /** The accumulator after the whole blocks of m, each carrying the bit `hi`. */
  function Absorb(r: nat, m: seq<u8>, acc: nat, hi: nat): (a: nat)
  {
    if |m| < 16 then acc else Absorb(r, m[16..], (acc + Le(m[..16]) + hi) * r % P, hi)
  }

  lemma BlockWithHighBit(b: seq<u8>)
    requires |b| == 16
    ensures BlockValue(b) == Le(b) + TWO128
  {
    assert Le([1]) == 1;
    hide Le, Pow2;
    Pow2Values();
    Pow2Add(64, 64);
    LeConcat(b, [1]);
  }

  lemma {:induction false} AbsorbIsAccumulate(r: nat, m: seq<u8>, acc: nat)
    requires |m| % 16 == 0
    ensures Absorb(r, m, acc, TWO128) == Accumulate(r, m, acc)
  {
    if |m| >= 16 {
      hide Le;
      BlockWithHighBit(m[..16]);
      AbsorbIsAccumulate(r, m[16..], (acc + Le(m[..16]) + TWO128) * r % P);
      if |m| == 16 {
        assert m[..16] == m;
      }
    }
  }

  lemma {:induction false} LeZeros(n: nat)
    ensures Le(seq(n, _ => 0)) == 0
  {
    if n > 0 {
      assert seq<u8>(n, _ => 0)[1..] == seq<u8>(n - 1, _ => 0);
      LeZeros(n - 1);
    }
  }

  /** Padding the last block with 1 and zeros gives its value, with no bit added above it. */
  lemma PaddedBlock(tail: seq<u8>)
    requires |tail| < 16
    ensures Le(tail + [1] + seq(15 - |tail|, _ => 0)) == BlockValue(tail)
  {
    hide Le, Pow2;
    LeConcat(tail + [1], seq(15 - |tail|, _ => 0));
    LeZeros(15 - |tail|);
  }

  lemma Spread(x: nat, m: nat, q: nat, r: nat)
    ensures (x + m * q) * r == x * r + m * (q * r)
  {
  }

  /** One block: the three stages of the loop body. */
  method OneBlock(h: Limbs, r: Limbs, m: seq<u8>, hibit: u32) returns (h': Limbs)
    requires Carried(h) && Clamped(r) && |m| == 16 && (hibit == 0 || hibit == 0x100_0000)
    ensures Carried(h')
    ensures h'.Value() % P == (h.Value() % P + Le(m) + HighBit(hibit)) * r.Value() % P
  {
    hide Le, V;
    var l := AddBlock(h, m, hibit);
    var d := Multiply(l, r);
    h' := PartialReduce(d);
    ghost var x, b, k := h.Value(), Le(m) + HighBit(hibit), r.Value();
    ghost var q := x / P;
    assert x == P * q + x % P;
    Spread(x % P + b, P, q, k);
    ModPlusMultiple((x % P + b) * k, (x + b) * k, q * k);
  }

  function HighBit(hibit: u32): nat
  {
    0x100_0000_0000_0000_0000_0000_0000 * hibit as nat
  }

  lemma ZeroLimbs()
    ensures V(0, 0, 0, 0, 0) == 0
  {
  }

  /* ---- What the context stands for ---- */

  /** After `msg`, whole blocks are in the accumulator and the rest is `tail`. */
  ghost predicate InStep(key: seq<u8>, msg: seq<u8>, tail: seq<u8>, h: nat)
  {
    && |key| == 32 && |tail| == |msg| % 16
    && msg[|msg| - |tail|..] == tail
    && h % P == Accumulate(R(key), msg[..|msg| - |tail|], 0)
  }

  lemma InStepInit(key: seq<u8>)
    requires |key| == 32
    ensures InStep(key, [], [], 0)
  {
  }

  /** Bytes that do not complete a block are only buffered. */
  lemma InStepBuffer(key: seq<u8>, msg: seq<u8>, tail: seq<u8>, h: nat, m: seq<u8>)
    requires InStep(key, msg, tail, h) && |tail| + |m| < 16
    ensures InStep(key, msg + m, tail + m, h)
  {
    hide Accumulate, R;
    assert (msg + m)[..|msg| - |tail|] == msg[..|msg| - |tail|];
    assert (msg + m)[|msg| - |tail|..] == tail + m;
  }

  /** Bytes that complete blocks are absorbed together with the buffered ones. */
  lemma WholePart(n: nat, t: nat)
    requires t == n % 16
    ensures (n - t) % 16 == 0
  {
  }

  lemma InStepBlocks(key: seq<u8>, msg: seq<u8>, tail: seq<u8>, h: nat, m: seq<u8>, h': nat)
    requires InStep(key, msg, tail, h) && (|tail| + |m|) % 16 == 0
    requires h' % P == Absorb(R(key), tail + m, h % P, TWO128)
    ensures InStep(key, msg + m, [], h')
  {
    hide Accumulate, R, Absorb;
    var whole, rest := msg[..|msg| - |tail|], tail + m;
    WholePart(|msg|, |tail|);
    assert whole + rest == msg + m;
    AbsorbIsAccumulate(R(key), rest, h % P);
    AccumulateConcat(R(key), whole, rest, 0);
    InStepWhole(key, msg + m, |whole|, |rest|, h');
  }

  lemma WholeSum(a: nat, b: nat)
    requires a % 16 == 0 && b % 16 == 0
    ensures (a + b) % 16 == 0
  {
  }

  lemma InStepWhole(key: seq<u8>, msg: seq<u8>, a: nat, b: nat, h: nat)
    requires |key| == 32 && |msg| == a + b && a % 16 == 0 && b % 16 == 0
    requires h % P == Accumulate(R(key), msg, 0)
    ensures InStep(key, msg, [], h)
  {
    hide Accumulate, R;
    WholeSum(a, b);
    assert msg[..|msg|] == msg && msg[|msg|..] == [];
  }

  /** The final partial block, padded with a one byte and zeros. */
  lemma InStepFinish(key: seq<u8>, msg: seq<u8>, tail: seq<u8>, h: nat, h': nat)
    requires InStep(key, msg, tail, h)
    requires if tail == [] then h' == h
             else h' % P == Absorb(R(key), tail + [1] + seq(15 - |tail|, _ => 0), h % P, 0)
    ensures h' % P == Accumulate(R(key), msg, 0)
  {
    hide Accumulate, R, Absorb, Le;
    var whole := msg[..|msg| - |tail|];
    WholePart(|msg|, |tail|);
    assert msg == whole + tail;
    if tail == [] {
      assert whole == msg;
    } else {
      var padded := tail + [1] + seq(15 - |tail|, _ => 0);
      PaddedBlock(tail);
      AccumulateConcat(R(key), whole, tail, 0);
      AbsorbOne(R(key), padded, h % P, 0);
      AccumulateOne(R(key), tail, h % P);
    }
  }

  lemma AbsorbOne(r: nat, m: seq<u8>, acc: nat, hi: nat)
    requires |m| == 16
    ensures Absorb(r, m, acc, hi) == (acc + Le(m) + hi) * r % P
  {
    assert m[..16] == m;
  }

  lemma AccumulateOne(r: nat, m: seq<u8>, acc: nat)
    requires 0 < |m| <= 16
    ensures Accumulate(r, m, acc) == (acc + BlockValue(m)) * r % P
  {
  }

  method LoadPad(k: seq<u8>) returns (pad: Quad)
    requires |k| == 32
    ensures pad.Value() == Le(k[16..])
  {
    hide Le, U8To32, Word;
    U8To32IsLe(k, 16);
    U8To32IsLe(k, 20);
    U8To32IsLe(k, 24);
    U8To32IsLe(k, 28);
    Le16(k[16..]);
    pad := Quad(U8To32(k, 16), U8To32(k, 20), U8To32(k, 24), U8To32(k, 28));
  }

  /** poly1305_blocks: every whole block of m, in the loop of the source. */
  method Blocks(h: Limbs, r: Limbs, final: bool, m: seq<u8>) returns (h': Limbs)
    requires Carried(h) && Clamped(r)
    ensures Carried(h')
    ensures h'.Value() % P == Absorb(r.Value(), m, h.Value() % P, if final then 0 else TWO128)
  {
    hide Le, V;
    var hibit: u32 := if final then 0 else 0x100_0000;
    assert HighBit(hibit) == if final then 0 else TWO128;
    h' := h;
    var off := 0;
    while |m| - off >= 16
      invariant 0 <= off <= |m| && Carried(h')
      invariant Absorb(r.Value(), m, h.Value() % P, HighBit(hibit)) == Absorb(r.Value(), m[off..], h'.Value() % P, HighBit(hibit))
    {
      ghost var before := h'.Value() % P;
      h' := OneBlock(h', r, m[off..off + 16], hibit);
      AbsorbNext(r.Value(), m[off..], before, HighBit(hibit));
      assert m[off..][..16] == m[off..off + 16] && m[off..][16..] == m[off + 16..];
      off := off + 16;
    }
  }

  lemma AbsorbNext(r: nat, m: seq<u8>, acc: nat, hi: nat)
    requires |m| >= 16
    ensures Absorb(r, m, acc, hi) == Absorb(r, m[16..], (acc + Le(m[..16]) + hi) * r % P, hi)
  {
  }

  /** All of `msg` is in the accumulator. */
  ghost predicate Hashed(h: Limbs, pad: Quad, key: seq<u8>, msg: seq<u8>)
  {
    |key| == 32 && Carried(h) && h.Value() % P == Accumulate(R(key), msg, 0) && pad.Value() == Le(key[16..])
  }

  method TagOf(h: Limbs, pad: Quad, ghost key: seq<u8>, ghost msg: seq<u8>) returns (tag: Quad)
    requires |key| == 32 && Hashed(h, pad, key, msg)
    ensures ToLe(tag.Value(), 16) == Mac(key, msg)
  {
    hide Mac, R, V, ToLe, Accumulate, Le;
    tag := FinalTag(h, pad);
    MacIs(key, msg, h.Value(), pad.Value());
  }

  const ZERO := Limbs(0, 0, 0, 0, 0)

  class Context {
    var r: Limbs
    var h: Limbs
    var pad: Quad
    var leftover: u32
    const buffer: array<u8>
    var final: bool
    ghost var key: seq<u8>
    ghost var msg: seq<u8>   // every byte given to Update so far

    ghost predicate Keyed()
      reads this
    {
      |key| == 32 && Clamped(r) && r.Value() == R(key) && pad.Value() == Le(key[16..])
    }

    ghost predicate Valid()
      reads this, buffer
    {
      && Keyed() && Carried(h) && buffer.Length == 16 && !final && leftover < 16
      && InStep(key, msg, buffer[..leftover], h.Value())
    }

    /** poly1305_init */
    constructor (k: seq<u8>)
      requires |k| == 32
      ensures Valid() && key == k && msg == [] && fresh(buffer)
    {
      hide InStep, Le, And, V;
      buffer := new u8[16];
      leftover, final := 0, false;
      key, msg := k, [];
      h := ZERO;
      new;
      ZeroLimbs();
      InStepInit(k);
      r := ClampLimbs(k[..16]);
      pad := LoadPad(k);
      assert buffer[..0] == [];
    }

    /** The state between buffering and flushing: the buffer may be full. */
    ghost predicate Buffered(msg0: seq<u8>, n: nat, h0: nat)
      reads this, buffer
    {
      && Keyed() && Carried(h) && buffer.Length == 16 && !final
      && n <= leftover <= 16 && h.Value() == h0
      && InStep(key, msg0, buffer[..n], h0)
      && msg == msg0 + buffer[n..leftover]
    }

    /** Appends m to the buffer. */
    method TopUp(m: seq<u8>)
      requires Valid() && leftover as int + |m| <= 16
      modifies this`leftover, this`msg, buffer
      ensures Buffered(old(msg), old(leftover), h.Value())
      ensures leftover as int == old(leftover) as int + |m| && msg == old(msg) + m
      ensures leftover < 16 ==> Valid()
    {
      hide InStep, V;
      Copy(buffer, leftover, m);
      assert buffer[..leftover] == old(buffer[..leftover]);
      assert buffer[leftover..leftover as int + |m|] == m;
      if leftover as int + |m| < 16 {
        InStepBuffer(key, msg, buffer[..leftover], h.Value(), m);
        assert buffer[..leftover as int + |m|] == buffer[..leftover] + m;
      }
      leftover := leftover + |m|;
      msg := msg + m;
    }

    /** Absorbs a full buffer. */
    method FlushBuffer(ghost msg0: seq<u8>, ghost n: nat)
      requires Buffered(msg0, n, h.Value()) && leftover == 16
      modifies this`leftover, this`h
      ensures Valid() && leftover == 0
    {
      hide InStep, V;
      ghost var h0 := h.Value();
      h := Blocks(h, r, final, buffer[..]);
      leftover := 0;
      assert buffer[..] == buffer[..n] + buffer[n..16];
      InStepBlocks(key, msg0, buffer[..n], h0, buffer[n..16], h.Value());
      assert buffer[..0] == [];
    }

    /** Absorbs whole blocks straight from the input. */
    method WholeBlocks(m: seq<u8>)
      requires Valid() && leftover == 0 && |m| % 16 == 0
      modifies this`h, this`msg
      ensures Valid() && msg == old(msg) + m
    {
      hide InStep, V;
      ghost var h0 := h.Value();
      h := Blocks(h, r, final, m);
      assert [] + m == m && buffer[..0] == [];
      InStepBlocks(key, msg, [], h0, m, h.Value());
      msg := msg + m;
    }

    /** The first part of poly1305_update: bytes that fit are buffered, a full buffer is absorbed. */
    method FillBuffer(data: seq<u8>) returns (m: seq<u8>)
      requires Valid() && leftover != 0
      modifies this, buffer
      ensures Valid() && key == old(key) && msg + m == old(msg) + data
      ensures |m| <= |data| && (leftover != 0 ==> m == [])
    {
      hide InStep, Keyed, Carried;
      var want := if 16 - leftover > |data| then |data| else 16 - leftover;
      TopUp(data[..want]);
      m := data[want..];
      if leftover == 16 {
        FlushBuffer(old(msg), old(leftover));
      }
    }

    /** poly1305_update: top up the buffer, absorb whole blocks, keep the rest. */
    method Update(data: seq<u8>)
      requires Valid() && |data| < W32
      modifies this, buffer
      ensures Valid() && key == old(key) && msg == old(msg) + data
    {
      hide InStep, And, Keyed, Carried;
      var m := data;
      if leftover != 0 {
        m := FillBuffer(data);
        if leftover != 0 {
          return;
        }
      }
      if |m| >= 16 {
        AlignDown16(|m|);
        var want := And(|m|, 0xffff_fff0);
        WholeBlocks(m[..want]);
        m := m[want..];
      }
      assert msg + m == old(msg) + data;
      if |m| > 0 {
        TopUp(m);
      }
    }

    /** The last, partial block: a one byte, zeros, and no bit above. */
    method AbsorbTail()
      requires Valid()
      modifies this`h, this`final, buffer
      ensures Hashed(h, pad, key, msg)
    {
      hide InStep, Accumulate, Absorb, V;
      ghost var tail, h0 := buffer[..leftover], h.Value();
      if leftover != 0 {
        var i := leftover;
        buffer[i] := 1;
        i := i + 1;
        while i < 16
          modifies buffer
          invariant leftover < i <= 16
          invariant buffer[..leftover] == tail && buffer[leftover] == 1
          invariant forall j :: leftover < j < i ==> buffer[j] == 0
        {
          buffer[i] := 0;
          i := i + 1;
        }
        assert buffer[..] == tail + [1] + seq(15 - |tail|, _ => 0);
        final := true;
        h := Blocks(h, r, final, buffer[..]);
      } else {
        assert tail == [];
      }
      InStepFinish(key, msg, tail, h0, h.Value());
    }

    /** poly1305_finish: the tag goes to mac[off..off + 16] and the state is wiped. */
    method Finish(mac: array<u8>, off: nat)
      requires Valid() && off + 16 <= mac.Length && mac != buffer
      modifies this, buffer, mac
      ensures mac[..] == Splice(old(mac[..]), off, Mac(old(key), old(msg)))
      ensures h == ZERO && r == ZERO && pad == Quad(0, 0, 0, 0)
    {
      hide Mac, ToLe, Hashed, Splice, InStep, R, V, Le, Clamped, Carried;
      AbsorbTail();
      var tag := TagOf(h, pad, key, msg);
      Store(mac, off, tag);
      h, r, pad := ZERO, ZERO, Quad(0, 0, 0, 0);
    }
  }

  lemma MacIs(key: seq<u8>, msg: seq<u8>, h: nat, pad: nat)
    requires |key| == 32 && h % P == Accumulate(R(key), msg, 0) && pad == Le(key[16..])
    ensures ToLe((h % P + pad) % TWO128, 16) == Mac(key, msg)
  {
    hide ToLe, R, Accumulate, Le;
  }

  /** The arithmetic of poly1305_finish: reduce fully, repack, add the pad. */
  method FinalTag(h: Limbs, pad: Quad) returns (tag: Quad)
    requires Carried(h)
    ensures tag.Value() == (h.Value() % P + pad.Value()) % TWO128
  {
    hide V, V4;
    var t := FullCarry(h);
    var s := Select(t);
    var q := Repack(s);
    tag := AddPad(q, pad);
    ModBeforeSum(s.Value(), pad.Value());
  }

  lemma ModBeforeSum(a: nat, s: nat)
    ensures (a % TWO128 + s) % TWO128 == (a + s) % TWO128
  {
  }

  /** The four U32TO8 stores of the tag. */
  method Store(mac: array<u8>, off: nat, q: Quad)
    requires off + 16 <= mac.Length
    modifies mac
    ensures mac[..] == Splice(old(mac[..]), off, ToLe(q.Value(), 16))
  {
    hide ToLe, V4, Splice;
    ghost var before, b0, b1, b2, b3 := mac[..], ToLe(q.w0, 4), ToLe(q.w1, 4), ToLe(q.w2, 4), ToLe(q.w3, 4);
    StoreBytes(q);
    U32To8(mac, off, q.w0);
    U32To8(mac, off + 4, q.w1);
    SpliceTwice(before, off, b0, b1);
    U32To8(mac, off + 8, q.w2);
    SpliceTwice(before, off, b0 + b1, b2);
    U32To8(mac, off + 12, q.w3);
    SpliceTwice(before, off, b0 + b1 + b2, b3);
  }

  lemma StoreBytes(q: Quad)
    ensures ToLe(q.Value(), 16) == ToLe(q.w0, 4) + ToLe(q.w1, 4) + ToLe(q.w2, 4) + ToLe(q.w3, 4)
  {
    hide ToLe, Pow2, V4;
    V4Nested(q.w0, q.w1, q.w2, q.w3);
    ToLeSplit(q.w2, q.w3, 4);
    ToLeSplit(q.w1, q.w2 as nat + W32 * q.w3 as nat, 8);
    ToLeSplit(q.w0, q.w1 as nat + W32 * (q.w2 as nat + W32 * q.w3 as nat), 12);
  }

  lemma V4Nested(a: u32, b: u32, c: u32, d: u32)
    ensures V4(a, b, c, d) == a as nat + W32 * (b as nat + W32 * (c as nat + W32 * d as nat))
    ensures d as nat < Pow2(32) && c as nat + W32 * d as nat < Pow2(64)
    ensures b as nat + W32 * (c as nat + W32 * d as nat) < Pow2(96)
  {
    Pow2Values();
    Pow2Add(64, 32);
    hide Pow2;
  }

  /** init, one update per chunk, finish: the tag depends only on the concatenation,
      however the message is cut and however many chunks are empty. */
  method AuthenticateChunks(key: seq<u8>, chunks: seq<seq<u8>>) returns (tag: seq<u8>)
    requires |key| == 32 && forall i :: 0 <= i < |chunks| ==> |chunks[i]| < W32
    ensures tag == Mac(key, Flatten(chunks))
  {
    hide Mac, InStep, Accumulate, R, Clamped, Carried, V, Le;
    var mac := new u8[16];
    var ctx := new Context(key);
    assert chunks[..0] == [];
    assert Flatten(chunks[..0]) == [];
    hide Flatten;
    for i := 0 to |chunks|
      invariant ctx.Valid() && fresh(ctx) && fresh(ctx.buffer) && ctx.buffer != mac
      invariant ctx.key == key && ctx.msg == Flatten(chunks[..i])
    {
      FlattenNext(chunks, i);
      ctx.Update(chunks[i]);
    }
    assert chunks[..|chunks|] == chunks;
    ctx.Finish(mac, 0);
    tag := mac[..];
  }
}
