/** Section 3.3 of RFC 7693 for BLAKE2s, over any compression function. */
module Blake2sSpec {
  import opened Words
  import opened Bits
  import opened Bytes

  type Chain = s: seq<u32> | |s| == 8 witness seq(8, _ => 0)
  type Block64 = s: seq<u8> | |s| == 64 witness seq(64, _ => 0)

  /** F(h, block, t, last), left abstract. */
  type Compress = (Chain, Block64, u64, bool) -> Chain

  const IV: Chain := [0x6A09_E667, 0xBB67_AE85, 0x3C6E_F372, 0xA54F_F53A, 0x510E_527F, 0x9B05_688C, 0x1F83_D9AB, 0x5BE0_CD19]

  /** The chain value before any block: IV with the parameter block in word 0. */
  function Start(keyLen: nat, outLen: nat): (h: Chain)
    requires keyLen <= 32 && 1 <= outLen <= 32
  {
    Pow2Values();
    OneByteParameter(keyLen, outLen);
    IV[0 := Xor(IV[0], Xor(Xor(0x0101_0000, keyLen * 0x100), outLen))]
  }

  lemma OneByteParameter(keyLen: nat, outLen: nat)
    requires keyLen <= 32 && 1 <= outLen <= 32
    ensures Xor(0x0101_0000, keyLen * 0x100) < W32
    ensures Xor(Xor(0x0101_0000, keyLen * 0x100), outLen) < W32
    ensures Xor(IV[0], Xor(Xor(0x0101_0000, keyLen * 0x100), outLen)) < W32
  {
  }

  /** The chain after the first n blocks of `data`, none of them the last. */
  function Absorb(f: Compress, h0: Chain, data: seq<u8>, n: nat): (h: Chain)
    requires 64 * n <= |data|
  {
    if n == 0 then h0
    else f(Absorb(f, h0, data, n - 1), data[64 * (n - 1)..64 * n], (64 * n) % W64, false)
  }

  /** How many blocks come before the last one; a full final block is the last. */
  function BlocksBefore(len: nat): (n: nat)
    ensures 64 * n <= len && len - 64 * n <= 64
  {
    if len == 0 then 0 else (len - 1) / 64
  }

  /** The last block: what is left, zero-filled. */
  function LastBlock(data: seq<u8>): (b: Block64)
  {
    var rest := data[64 * BlocksBefore(|data|)..];
    rest + seq(64 - |rest|, _ => 0)
  }

  function FinalChain(f: Compress, h0: Chain, data: seq<u8>): (h: Chain)
  {
    f(Absorb(f, h0, data, BlocksBefore(|data|)), LastBlock(data), |data| % W64, true)
  }

  /** The key, when there is one, is a zero-filled block ahead of the message. */
  function Input(key: seq<u8>, msg: seq<u8>): (data: seq<u8>)
    requires |key| <= 32
  {
    if |key| == 0 then msg else key + seq(64 - |key|, _ => 0) + msg
  }

  function Hash(f: Compress, outLen: nat, key: seq<u8>, msg: seq<u8>): (digest: seq<u8>)
    requires |key| <= 32 && 1 <= outLen <= 32
    ensures |digest| == outLen
  {
    Serialize(FinalChain(f, Start(|key|, outLen), Input(key, msg)))[..outLen]
  }

  /** Blocks already absorbed do not depend on what follows. */
  lemma {:induction false} AbsorbPrefix(f: Compress, h0: Chain, a: seq<u8>, b: seq<u8>, n: nat)
    requires 64 * n <= |a|
    ensures Absorb(f, h0, a + b, n) == Absorb(f, h0, a, n)
  {
    if n > 0 {
      AbsorbPrefix(f, h0, a, b, n - 1);
      assert (a + b)[64 * (n - 1)..64 * n] == a[64 * (n - 1)..64 * n];
    }
  }
}

/** blake2s.c */
module Blake2s {
  import opened Words
  import opened Bits
  import opened Bytes
  import opened Blake2sSpec

  /** The buffer and the counters after `data`: a full buffer is kept until another byte arrives. */
  ghost predicate Streaming(f: Compress, h0: Chain, data: seq<u8>, tail: seq<u8>, h: Chain, t: nat)
  {
    var n := BlocksBefore(|data|);
    && tail == data[64 * n..]
    && h == Absorb(f, h0, data, n)
    && t == (64 * n) % W64
  }

  lemma StreamingInit(f: Compress, h0: Chain)
    ensures Streaming(f, h0, [], [], h0, 0)
  {
    NoBlocks();
    hide BlocksBefore;
    assert Absorb(f, h0, [], 0) == h0;
  }

  lemma NoBlocks()
    ensures BlocksBefore(0) == 0
  {
  }

  lemma StreamingPush(f: Compress, h0: Chain, data: seq<u8>, tail: seq<u8>, h: Chain, t: nat, x: u8)
    requires Streaming(f, h0, data, tail, h, t) && |tail| < 64
    ensures Streaming(f, h0, data + [x], tail + [x], h, t)
  {
    var n := BlocksBefore(|data|);
    SameBlock(|data|);
    AbsorbPrefix(f, h0, data, [x], n);
  }

  lemma SameBlock(len: nat)
    requires len - 64 * BlocksBefore(len) < 64
    ensures BlocksBefore(len + 1) == BlocksBefore(len)
  {
  }

  lemma NextBlock(len: nat)
    requires len - 64 * BlocksBefore(len) == 64
    ensures BlocksBefore(len + 1) == BlocksBefore(len) + 1
  {
  }

  lemma StreamingCompress(f: Compress, h0: Chain, data: seq<u8>, tail: seq<u8>, h: Chain, t: nat, x: u8)
    requires Streaming(f, h0, data, tail, h, t) && |tail| == 64
    ensures Streaming(f, h0, data + [x], [x], f(h, tail, (t + 64) % W64, false), (t + 64) % W64)
  {
    hide BlocksBefore;
    var n := BlocksBefore(|data|);
    NextBlock(|data|);
    AbsorbPrefix(f, h0, data, [x], n);
    assert (data + [x])[64 * n..64 * (n + 1)] == tail;
    CountsOn(n);
  }

  lemma CountsOn(n: nat)
    ensures ((64 * n) % W64 + 64) % W64 == (64 * (n + 1)) % W64
  {
  }

  lemma StreamingTotal(f: Compress, h0: Chain, data: seq<u8>, tail: seq<u8>, h: Chain, t: nat)
    requires Streaming(f, h0, data, tail, h, t)
    ensures |tail| <= 64 && (|tail| == 0 ==> data == []) && (t + |tail|) % W64 == |data| % W64
    ensures tail + seq(64 - |tail|, _ => 0) == LastBlock(data)
    ensures FinalChain(f, h0, data) == f(h, tail + seq(64 - |tail|, _ => 0), (t + |tail|) % W64, true)
  {
    TailLength(|data|);
    hide BlocksBefore, Absorb;
    TotalCount(BlocksBefore(|data|), |tail|);
  }

  lemma TailLength(len: nat)
    ensures len > 0 ==> len - 64 * BlocksBefore(len) >= 1
  {
  }

  lemma TotalCount(n: nat, l: nat)
    ensures ((64 * n) % W64 + l) % W64 == (64 * n + l) % W64
  {
  }

  /** `t[0] += c; if (t[0] < c) t[1]++`: a 64-bit sum in two words. */
  method AddToCounter(t0: u32, t1: u32, c: nat) returns (t0': u32, t1': u32)
    requires c <= 64
    ensures Counter(t0', t1') == (Counter(t0, t1) as nat + c) % W64
  {
    t0' := (t0 as nat + c) % W32;
    t1' := t1;
    if t0' as nat < c {
      t1' := (t1 as nat + 1) % W32;
    }
    hide Counter;
    CarryPair(t0, t1, c, t0', t1');
  }

  function Counter(t0: u32, t1: u32): (t: u64) {
    t0 as nat + W32 * t1 as nat
  }

  lemma CarryPair(t0: u32, t1: u32, c: nat, t0': u32, t1': u32)
    requires c <= 64 && t0' == (t0 as nat + c) % W32
    requires t1' == if t0' as nat < c then (t1 as nat + 1) % W32 else t1
    ensures Counter(t0', t1') == (Counter(t0, t1) as nat + c) % W64
  {
    if t0 as nat + c < W32 {
      assert t0' as nat == t0 as nat + c;
    } else {
      assert t0' as nat == t0 as nat + c - W32;
      assert t1' as nat == if t1 as nat + 1 == W32 then 0 else t1 as nat + 1;
    }
  }

  lemma CounterZero()
    ensures Counter(0, 0) == 0
  {
  }

  class Context {
    const compress: Compress
    const b: array<u8>
    const h: array<u32>
    var t0: u32
    var t1: u32
    var c: nat
    var outLen: nat
    ghost var key: seq<u8>
    ghost var data: seq<u8>   // the key block, if any, and every byte given to Update

    ghost predicate Shape()
      reads this
    {
      b.Length == 64 && h.Length == 8
    }

    ghost predicate Valid()
      reads this, b, h
    {
      && Shape() && c <= 64 && 1 <= outLen <= 32 && |key| <= 32
      && Streaming(compress, Start(|key|, outLen), data, b[..c], h[..], Counter(t0, t1))
    }

    constructor (f: Compress)
      ensures Shape() && compress == f && fresh(b) && fresh(h)
    {
      compress := f;
      b := new u8[64];
      h := new u32[8];
    }

    /** blake2s_compress: the abstract function on the context. */
    method CompressBlock(last: bool)
      requires Shape()
      modifies h
      ensures h[..] == compress(old(h[..]), b[..], Counter(t0, t1), last)
    {
      var h' := compress(h[..], b[..], Counter(t0, t1), last);
      forall i | 0 <= i < 8 {
        h[i] := h'[i];
      }
      assert h[..] == h' && b[..] == old(b[..]);
    }

    /** One byte of blake2s_update. */
    method UpdateByte(x: u8)
      requires Valid()
      modifies this`t0, this`t1, this`c, this`data, b, h
      ensures Valid() && data == old(data) + [x]
      ensures old(c) < 64 ==> c == old(c) + 1 && b[c..] == old(b[c + 1..])
    {
      hide Streaming, Start, Counter;
      ghost var h0, tail := Start(|key|, outLen), b[..c];
      if c == 64 {
        FlushFull(x);
        tail := [];
      } else {
        StreamingPush(compress, h0, data, tail, h[..], Counter(t0, t1), x);
      }
      b[c] := x;
      c := c + 1;
      assert b[..c] == tail + [x];
      data := data + [x];
      assert old(c) < 64 ==> b[c..] == old(b[c + 1..]);
    }

    /** A full buffer is compressed when another byte x arrives. */
    method FlushFull(ghost x: u8)
      requires Valid() && c == 64
      modifies this`t0, this`t1, this`c, h
      ensures Shape() && c == 0
      ensures Streaming(compress, Start(|key|, outLen), data + [x], [] + [x], h[..], Counter(t0, t1))
    {
      hide Streaming, Start, Counter;
      assert b[..64] == b[..];
      StreamingCompress(compress, Start(|key|, outLen), data, b[..], h[..], Counter(t0, t1), x);
      t0, t1 := AddToCounter(t0, t1, c);
      CompressBlock(false);
      c := 0;
      assert [] + [x] == [x];
    }

    /** blake2s_update */
    method Update(input: seq<u8>)
      requires Valid()
      modifies this`t0, this`t1, this`c, this`data, b, h
      ensures Valid() && data == old(data) + input
      ensures old(c) + |input| <= 64 ==> c == old(c) + |input| && b[c..] == old(b[c + |input|..])
    {
      hide Streaming, Start, Counter;
      for i := 0 to |input|
        invariant Valid() && data == old(data) + input[..i]
        invariant old(c) + |input| <= 64 ==> c == old(c) + i && b[c..] == old(b[c + i..])
      {
        ghost var c0, rest := c, b[c..];
        UpdateByte(input[i]);
        assert c0 < 64 ==> b[c..] == rest[1..];
      }
    }

    /** blake2s_init: -1 and no change for parameters out of range. */
    method Init(digestLen: nat, k: seq<u8>) returns (ret: int)
      requires Shape()
      modifies this, b, h
      ensures ret == if digestLen == 0 || digestLen > 32 || |k| > 32 then -1 else 0
      ensures ret == -1 ==> unchanged(this, b, h)
      ensures ret == 0 ==> Valid() && key == k && outLen == digestLen && data == Input(k, [])
    {
      hide Streaming, Start, Counter;
      if digestLen == 0 || digestLen > 32 || |k| > 32 {
        return -1;
      }
      key, data := k, [];
      LoadStart(digestLen, |k|);
      t0, t1, c, outLen := 0, 0, 0, digestLen;
      ZeroFrom(|k|);
      StreamingInit(compress, Start(|k|, digestLen));
      CounterZero();
      assert b[..0] == [];
      if |k| > 0 {
        AbsorbKey(k);
      }
      return 0;
    }

    /** The key goes in first, and the rest of its block counts as zeros. */
    method AbsorbKey(k: seq<u8>)
      requires Valid() && data == [] && c == 0 && 0 < |k| <= 32 && key == k && b[|k|..] == seq(64 - |k|, _ => 0)
      modifies this`t0, this`t1, this`c, this`data, b, h
      ensures Valid() && data == Input(k, [])
    {
      hide Streaming, Start, Counter;
      Update(k);
      assert [] + k == k;
      ghost var block := k + seq(64 - |k|, _ => 0);
      StreamingFirstBlock(compress, Start(|k|, outLen), k, b[..c], h[..], Counter(t0, t1), block);
      assert b[..] == b[..c] + b[c..];
      c := 64;
      data := block;
      assert b[..64] == b[..];
    }

    /** The chain value from IV and the parameters. */
    method LoadStart(digestLen: nat, keyLen: nat)
      requires Shape() && 1 <= digestLen <= 32 && keyLen <= 32
      modifies h
      ensures h[..] == Start(keyLen, digestLen)
    {
      hide Xor;
      for i := 0 to 8
        invariant forall j :: 0 <= j < i ==> h[j] == IV[j]
      {
        h[i] := IV[i];
      }
      OneByteParameter(keyLen, digestLen);
      h[0] := Xor(h[0], Xor(Xor(0x0101_0000, keyLen * 0x100), digestLen));
    }

    method ZeroFrom(n: nat)
      requires Shape() && n <= 64
      modifies b
      ensures b[..n] == old(b[..n]) && b[n..] == seq(64 - n, _ => 0)
    {
      for i := n to 64
        invariant forall j :: 0 <= j < n ==> b[j] == old(b[j])
        invariant forall j :: n <= j < i ==> b[j] == 0
      {
        b[i] := 0;
      }
    }

    /** blake2s_final: pad, compress with the last flag, store the words. */
    method Final(out: array<u8>, off: nat)
      requires Valid() && off + outLen <= out.Length && out != b
      modifies this`t0, this`t1, this`c, b, h, out
      ensures Shape()
      ensures out[..] == Splice(old(out[..]), off, Serialize(FinalChain(compress, Start(|old(key)|, old(outLen)), old(data)))[..old(outLen)])
    {
      hide Streaming, Start, Counter, FinalChain, Serialize, Splice, LastBlock;
      ghost var h0, tail := Start(|key|, outLen), b[..c];
      StreamingTotal(compress, h0, data, tail, h[..], Counter(t0, t1));
      t0, t1 := AddToCounter(t0, t1, c);
      ZeroFrom(c);
      assert b[..] == b[..c] + b[c..];
      c := 64;
      CompressBlock(true);
      StoreDigest(out, off);
    }

    /** `(h[i >> 2] >> (8 * (i & 3))) & 0xFF` for each byte of the digest. */
    method StoreDigest(out: array<u8>, off: nat)
      requires Shape() && 1 <= outLen <= 32 && off + outLen <= out.Length
      modifies out
      ensures out[..] == Splice(old(out[..]), off, Serialize(h[..])[..outLen])
    {
      hide Serialize, Splice, Pow2, LowByte;
      ghost var before, w := out[..], Serialize(h[..]);
      for i := 0 to outLen
        invariant forall k {:trigger out[k]} :: 0 <= k < out.Length && !(off <= k < off + i) ==> out[k] == before[k]
        invariant forall k {:trigger out[k]} :: off <= k < off + i ==> out[k] == w[k - off]
      {
        SerializeAt(h[..], i);
        out[off + i] := DigestByte(h[i / 4], i);
      }
      IsSplice(before, out[..], off, w[..outLen]);
    }
  }

  lemma LowTwoBits(i: nat)
    ensures And(i, 3) == i % 4
  {
    assert Pow2(2) == 4;
    AndMask(i, 2);
  }

  function ByteAt(w: u32, shift: nat): (x: u8)
    ensures x as nat == w as nat / Pow2(shift) % 256
  {
    DivNonNegative(w, Pow2(shift));
    LowByte(w as nat / Pow2(shift))
  }

  /** `(w >> (8 * (i & 3))) & 0xFF` */
  function DigestByte(w: u32, i: nat): (x: u8)
    ensures x as nat == w as nat / Pow2(8 * (i % 4)) % 256
  {
    LowTwoBits(i);
    ByteAt(w, 8 * And(i, 3))
  }

  /** Input shorter than a block may be put there in any way. */
  lemma StreamingFirstBlock(f: Compress, h0: Chain, data: seq<u8>, tail: seq<u8>, h: Chain, t: nat, block: seq<u8>)
    requires Streaming(f, h0, data, tail, h, t) && 0 < |data| <= 64 && |block| == 64
    ensures tail == data && Streaming(f, h0, block, block, h, t)
  {
  }

  /** blake2s, and any other cutting of the input into updates: the digest depends only on
      the concatenation. */
  method HashChunks(f: Compress, outLen: nat, key: seq<u8>, chunks: seq<seq<u8>>) returns (ret: int, digest: seq<u8>)
    ensures ret == if outLen == 0 || outLen > 32 || |key| > 32 then -1 else 0
    ensures ret == 0 ==> digest == Hash(f, outLen, key, Flatten(chunks))
  {
    hide Streaming, Start, FinalChain, Serialize, Counter;
    digest := [];
    var ctx := new Context(f);
    ret := ctx.Init(outLen, key);
    if ret == 0 {
      assert chunks[..0] == [];
      for i := 0 to |chunks|
        invariant fresh(ctx) && fresh(ctx.b) && fresh(ctx.h) && ctx.compress == f
        invariant ctx.Valid() && ctx.key == key && ctx.outLen == outLen && ctx.data == Input(key, Flatten(chunks[..i]))
      {
        ctx.Update(chunks[i]);
        InputGrows(key, Flatten(chunks[..i]), chunks[i]);
        assert chunks[..i + 1][..i] == chunks[..i];
      }
      assert chunks[..|chunks|] == chunks;
      var out := new u8[outLen];
      ctx.Final(out, 0);
      digest := out[..];
    }
  }

  lemma InputGrows(key: seq<u8>, a: seq<u8>, b: seq<u8>)
    requires |key| <= 32
    ensures Input(key, a) + b == Input(key, a + b)
  {
  }
}
