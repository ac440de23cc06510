/** Little-endian numbers and the load/store macros of crypto.h. */
module Bytes {
  import opened Words
  import opened Bits

  /** The little-endian value of a byte string. */
  function Le(s: seq<u8>): (n: nat)
  {
    if |s| == 0 then 0 else s[0] + 256 * Le(s[1..])
  }

  /** The `len` low-order bytes of n, least significant first. */
  function ToLe(n: nat, len: nat): (s: seq<u8>)
    ensures |s| == len
    decreases len
  {
    if len == 0 then [] else [n % 256] + ToLe(n / 256, len - 1)
  }

  lemma {:induction false} LeBound(s: seq<u8>)
    ensures Le(s) < Pow2(8 * |s|)
  {
    if |s| > 0 {
      LeBound(s[1..]);
      Pow2Byte(|s| - 1);
    }
  }

  lemma Pow2Byte(n: nat)
    ensures Pow2(8 * (n + 1)) == 256 * Pow2(8 * n)
  {
    Pow2Add(8, 8 * n);
    Pow2Values();
  }

  lemma {:induction false} LeConcat(a: seq<u8>, b: seq<u8>)
    ensures Le(a + b) == Le(a) + Pow2(8 * |a|) * Le(b)
  {
    if |a| == 0 {
      assert a + b == b;
    } else {
      assert (a + b)[1..] == a[1..] + b;
      LeConcat(a[1..], b);
      hide Pow2;
      Pow2Byte(|a| - 1);
      LePrepend(a[0], Le(a[1..]), Pow2(8 * (|a| - 1)), Le(b));
    }
  }

  lemma LePrepend(first: nat, rest: nat, p: nat, x: nat)
    ensures first + 256 * (rest + p * x) == first + 256 * rest + (256 * p) * x
  {
  }

  lemma LeConcat4(a: seq<u8>, b: seq<u8>)
    requires |a| == 4
    ensures Le(a + b) == Word(a[0], a[1], a[2], a[3]) + W32 * Le(b)
  {
    LeConcat(a, b);
    LeWord(a);
    Pow2Values();
  }

  /** A byte string as 32-bit words, least significant first. */
  function ToWords(s: seq<u8>): (w: seq<u32>)
    requires |s| % 4 == 0
    ensures |w| == |s| / 4
    ensures forall i :: 0 <= i < |w| ==> w[i] == Word(s[4 * i], s[4 * i + 1], s[4 * i + 2], s[4 * i + 3])
  {
    if |s| == 0 then [] else [Word(s[0], s[1], s[2], s[3])] + ToWords(s[4..])
  }

  lemma LeTail(s: seq<u8>)
    requires |s| >= 4
    ensures Le(s) == Word(s[0], s[1], s[2], s[3]) + W32 * Le(s[4..])
  {
    assert s == s[..4] + s[4..];
    LeConcat4(s[..4], s[4..]);
  }

  lemma {:induction false} LeToLe(n: nat, len: nat)
    requires n < Pow2(8 * len)
    ensures Le(ToLe(n, len)) == n
    decreases len
  {
    if len > 0 {
      Pow2Byte(len - 1);
      LeToLe(n / 256, len - 1);
      assert ToLe(n, len)[1..] == ToLe(n / 256, len - 1);
    }
  }

  lemma {:induction false} ToLeOfLe(s: seq<u8>)
    ensures ToLe(Le(s), |s|) == s
  {
    if |s| > 0 {
      ToLeOfLe(s[1..]);
      var n := Le(s);
      assert n % 256 == s[0] && n / 256 == Le(s[1..]);
      assert s == [s[0]] + s[1..];
    }
  }

  /** U8TO32_LITTLE. */
  function U8To32(p: seq<u8>, i: nat): (v: nat)
    requires i + 4 <= |p|
  {
    OrBytes(p[i], p[i + 1], p[i + 2], p[i + 3])
  }

  function OrBytes(b0: nat, b1: nat, b2: nat, b3: nat): (v: nat)
  {
    Or(Or(Or(b0, b1 * 0x100), b2 * 0x1_0000), b3 * 0x100_0000)
  }

  function Word(b0: nat, b1: nat, b2: nat, b3: nat): (v: nat)
    ensures b0 < 256 && b1 < 256 && b2 < 256 && b3 < 256 ==> v < W32
  {
    b0 + 0x100 * b1 + 0x1_0000 * b2 + 0x100_0000 * b3
  }

  lemma U8To32IsLe(p: seq<u8>, i: nat)
    requires i + 4 <= |p|
    ensures U8To32(p, i) == Word(p[i], p[i + 1], p[i + 2], p[i + 3])
    ensures U8To32(p, i) == Le(p[i..i + 4])
    ensures 0 <= U8To32(p, i) < W32
  {
    OrBytesIsWord(p[i], p[i + 1], p[i + 2], p[i + 3]);
    LeWord(p[i..i + 4]);
  }

  lemma OrBytesIsWord(b0: nat, b1: nat, b2: nat, b3: nat)
    requires b0 < 256 && b1 < 256 && b2 < 256
    ensures OrBytes(b0, b1, b2, b3) == b0 + 0x100 * b1 + 0x1_0000 * b2 + 0x100_0000 * b3
  {
    Pow2Values();
    OrDisjoint(b0, b1, 8);
    OrDisjoint(b0 + b1 * 0x100, b2, 16);
    OrDisjoint(b0 + b1 * 0x100 + b2 * 0x1_0000, b3, 24);
  }

  lemma LeWord(s: seq<u8>)
    requires |s| == 4
    ensures Le(s) == Word(s[0], s[1], s[2], s[3])
  {
    assert Le(s[3..]) == s[3];
    assert Le(s[2..]) == s[2] + 256 * Le(s[3..]) by { assert s[2..][1..] == s[3..]; }
    assert Le(s[1..]) == s[1] + 256 * Le(s[2..]) by { assert s[1..][1..] == s[2..]; }
  }

  /** s with the bytes w written at `off`. */
  function Splice(s: seq<u8>, off: nat, w: seq<u8>): (t: seq<u8>)
    requires off + |w| <= |s|
    ensures |t| == |s|
  {
    s[..off] + w + s[off + |w|..]
  }

  /** Two adjacent writes are one. */
  lemma SpliceTwice(s: seq<u8>, off: nat, a: seq<u8>, b: seq<u8>)
    requires off + |a| + |b| <= |s|
    ensures Splice(Splice(s, off, a), off + |a|, b) == Splice(s, off, a + b)
  {
  }

  /** U32TO8_LITTLE: four bytes written at `off`. */
  method U32To8(p: array<u8>, off: nat, v: u32)
    requires off + 4 <= p.Length
    modifies p
    ensures p[..] == Splice(old(p[..]), off, ToLe(v, 4))
  {
    p[off] := LowByte(v);
    p[off + 1] := LowByte(v / 0x100);
    p[off + 2] := LowByte(v / 0x1_0000);
    p[off + 3] := LowByte(v / 0x100_0000);
    ToLe4(v);
    hide ToLe, LowByte, Splice;
    IsSplice(old(p[..]), p[..], off, ToLe(v, 4));
  }

  lemma IsSplice(before: seq<u8>, after: seq<u8>, off: nat, w: seq<u8>)
    requires off + |w| <= |before| == |after|
    requires forall k :: 0 <= k < |before| && !(off <= k < off + |w|) ==> after[k] == before[k]
    requires forall k :: off <= k < off + |w| ==> after[k] == w[k - off]
    ensures after == Splice(before, off, w)
  {
  }

  /** `v & 0xff` */
  function LowByte(v: nat): (b: u8)
    ensures b == v % 256
  {
    Pow2Values();
    AndMask(v, 8);
    And(v, 0xff)
  }

  lemma ToLe4(v: u32)
    ensures var s := ToLe(v, 4);
      && s[0] == v % 256 && s[1] == v / 0x100 % 256
      && s[2] == v / 0x1_0000 % 256 && s[3] == v / 0x100_0000 % 256
  {
  }

  /** Splitting off the four low-order bytes. */
  lemma ToLeSplit(w: u32, rest: nat, len: nat)
    requires rest < Pow2(8 * len)
    ensures ToLe(w as nat + W32 * rest, 4 + len) == ToLe(w, 4) + ToLe(rest, len)
  {
    Pow2Values();
    hide ToLe, Le, Pow2;
    LeToLe(w, 4);
    LeToLe(rest, len);
    LeConcat(ToLe(w, 4), ToLe(rest, len));
    IsToLe(ToLe(w, 4) + ToLe(rest, len), w as nat + W32 * rest, 4 + len);
  }

  lemma IsToLe(s: seq<u8>, n: nat, len: nat)
    requires |s| == len && Le(s) == n
    ensures ToLe(n, len) == s
  {
  }

  /** U8TO64_LITTLE. */
  function U8To64(p: seq<u8>, i: nat): (v: nat)
    requires i + 8 <= |p|
  {
    Or(Or(Or(Or(U8To32(p, i), p[i + 4] as nat * 0x1_0000_0000), p[i + 5] as nat * 0x100_0000_0000),
       p[i + 6] as nat * 0x1_0000_0000_0000), p[i + 7] as nat * 0x100_0000_0000_0000)
  }

  lemma U8To64IsLe(p: seq<u8>, i: nat)
    requires i + 8 <= |p|
    ensures U8To64(p, i) == Le(p[i..i + 8])
    ensures 0 <= U8To64(p, i) < W64
  {
    hide U8To32, Le, Or, Word;
    U8To32IsLe(p, i);
    LeConcat4(p[i..i + 4], p[i + 4..i + 8]);
    assert p[i..i + 4] + p[i + 4..i + 8] == p[i..i + 8];
    LeWord(p[i + 4..i + 8]);
    OrHighBytes(U8To32(p, i), p[i + 4], p[i + 5], p[i + 6], p[i + 7]);
  }

  lemma OrHighBytes(v: nat, b4: nat, b5: nat, b6: nat, b7: nat)
    requires v < W32 && b4 < 256 && b5 < 256 && b6 < 256 && b7 < 256
    ensures Or(Or(Or(Or(v, b4 * 0x1_0000_0000), b5 * 0x100_0000_0000), b6 * 0x1_0000_0000_0000), b7 * 0x100_0000_0000_0000)
         == v + W32 * Word(b4, b5, b6, b7) < W64
  {
    Pow2Values();
    Pow2Add(32, 8);
    Pow2Add(32, 16);
    Pow2Add(32, 24);
    hide Or, Pow2;
    OrDisjoint(v, b4, 32);
    OrDisjoint(v + b4 * 0x1_0000_0000, b5, 40);
    OrDisjoint(v + b4 * 0x1_0000_0000 + b5 * 0x100_0000_0000, b6, 48);
    OrDisjoint(v + b4 * 0x1_0000_0000 + b5 * 0x100_0000_0000 + b6 * 0x1_0000_0000_0000, b7, 56);
  }

  /** U64TO8_LITTLE: eight bytes written at `off`. */
  method U64To8(p: array<u8>, off: nat, v: u64)
    requires off + 8 <= p.Length
    modifies p
    ensures p[..] == Splice(old(p[..]), off, ToLe(v, 8))
  {
    p[off] := LowByte(v);
    p[off + 1] := LowByte(v / 0x100);
    p[off + 2] := LowByte(v / 0x1_0000);
    p[off + 3] := LowByte(v / 0x100_0000);
    p[off + 4] := LowByte(v / 0x1_0000_0000);
    p[off + 5] := LowByte(v / 0x100_0000_0000);
    p[off + 6] := LowByte(v / 0x1_0000_0000_0000);
    p[off + 7] := LowByte(v / 0x100_0000_0000_0000);
    ToLe8(v);
    hide ToLe, LowByte, Splice;
    IsSplice(old(p[..]), p[..], off, ToLe(v, 8));
  }

  lemma ToLe8(v: u64)
    ensures ToLe(v, 8) == [LowByte(v), LowByte(v / 0x100), LowByte(v / 0x1_0000), LowByte(v / 0x100_0000),
      LowByte(v / 0x1_0000_0000), LowByte(v / 0x100_0000_0000), LowByte(v / 0x1_0000_0000_0000), LowByte(v / 0x100_0000_0000_0000)]
  {
    BytePowers();
    hide ToLe, LowByte, Pow2;
    ToLeAt(v, 8, 0);
    ToLeAt(v, 8, 1);
    ToLeAt(v, 8, 2);
    ToLeAt(v, 8, 3);
    ToLeAt(v, 8, 4);
    ToLeAt(v, 8, 5);
    ToLeAt(v, 8, 6);
    ToLeAt(v, 8, 7);
  }

  lemma BytePowers()
    ensures Pow2(0) == 1 && Pow2(8) == 0x100 && Pow2(16) == 0x1_0000 && Pow2(24) == 0x100_0000 && Pow2(32) == 0x1_0000_0000
    ensures Pow2(40) == 0x100_0000_0000 && Pow2(48) == 0x1_0000_0000_0000 && Pow2(56) == 0x100_0000_0000_0000
  {
  }

  /** Byte i of the little-endian form. */
  lemma {:induction false} ToLeAt(n: nat, len: nat, i: nat)
    requires i < len
    ensures ToLe(n, len)[i] == n / Pow2(8 * i) % 256
    decreases i
  {
    if i > 0 {
      ToLeAt(n / 256, len - 1, i - 1);
      Pow2Byte(i - 1);
      DivDiv(n, 256, Pow2(8 * (i - 1)));
    }
  }

  /** Copying bytes: the `for` loops and memcpy calls of the source. */
  method Copy(dst: array<u8>, off: nat, src: seq<u8>)
    requires off + |src| <= dst.Length
    modifies dst
    ensures dst[..] == Splice(old(dst[..]), off, src)
  {
    for i := 0 to |src|
      invariant dst[..off] == old(dst[..])[..off]
      invariant dst[off..off + i] == src[..i]
      invariant dst[off + i..] == old(dst[..])[off + i..]
    {
      dst[off + i] := src[i];
    }
  }

  function XorByte(a: u8, b: u8): (c: u8)
    ensures c as nat == Xor(a, b)
  {
    Pow2Values();
    XorBound(a, b, 8);
    Xor(a, b)
  }

  /** Words stored one after the other, each least significant byte first. */
  function Serialize(w: seq<u32>): (s: seq<u8>)
    ensures |s| == 4 * |w|
  {
    if |w| == 0 then [] else ToLe(w[0], 4) + Serialize(w[1..])
  }

  lemma {:induction false} SerializePush(w: seq<u32>, x: u32)
    ensures Serialize(w + [x]) == Serialize(w) + ToLe(x, 4)
  {
    hide ToLe;
    if |w| == 0 {
      assert w + [x] == [x] && [x][1..] == [];
      assert ToLe(x, 4) + [] == ToLe(x, 4) && [] + ToLe(x, 4) == ToLe(x, 4);
    } else {
      SerializePush(w[1..], x);
      assert (w + [x])[1..] == w[1..] + [x];
      assert ToLe(w[0], 4) + (Serialize(w[1..]) + ToLe(x, 4)) == ToLe(w[0], 4) + Serialize(w[1..]) + ToLe(x, 4);
    }
  }

  /** Byte i of a stored word string: `(w[i >> 2] >> (8 * (i & 3))) & 0xFF`. */
  lemma {:induction false} SerializeAt(w: seq<u32>, i: nat)
    requires i < 4 * |w|
    ensures Serialize(w)[i] == w[i / 4] / Pow2(8 * (i % 4)) % 256
  {
    hide ToLe, Pow2;
    if i < 4 {
      ToLeAt(w[0], 4, i);
    } else {
      SerializeAt(w[1..], i - 4);
      assert (i - 4) / 4 == i / 4 - 1 && (i - 4) % 4 == i % 4;
    }
  }

  lemma SpliceGrows(s: seq<u8>, off: nat, w: seq<u8>)
    requires off + |w| <= |s|
    ensures Splice(s, off, w)[..off + |w|] == s[..off] + w
  {
  }

  /** The chunks of a message, one after the other. */
  function Flatten(chunks: seq<seq<u8>>): (msg: seq<u8>)
  {
    if |chunks| == 0 then [] else Flatten(chunks[..|chunks| - 1]) + chunks[|chunks| - 1]
  }

  lemma FlattenNext(chunks: seq<seq<u8>>, i: nat)
    requires i < |chunks|
    ensures Flatten(chunks[..i + 1]) == Flatten(chunks[..i]) + chunks[i]
  {
    assert chunks[..i + 1][..i] == chunks[..i];
  }
}
