/** HMAC (section 2 of RFC 2104) over BLAKE2s and the key derivation chained from it. */
module KdfSpec {
  import opened Words
  import opened Bits
  import opened Bytes
  import Blake2sSpec

  type Compress = Blake2sSpec.Compress
  type Key = s: seq<u8> | |s| == 32 witness seq(32, _ => 0)

  /** Unkeyed BLAKE2s with a 32-byte digest. */
  function Hash(f: Compress, msg: seq<u8>): (h: Key)
  {
    Blake2sSpec.Hash(f, 32, [], msg)
  }

  /** Keyed BLAKE2s with a 16-byte digest. */
  function Mac(f: Compress, key: Key, msg: seq<u8>): (h: seq<u8>)
    ensures |h| == 16
  {
    Blake2sSpec.Hash(f, 16, key, msg)
  }

  /** A key of at most 64 bytes, zero-filled and exclusive-ored with a constant byte. */
  function Pad(key: seq<u8>, x: u8): (p: seq<u8>)
    requires |key| <= 64
    ensures |p| == 64
  {
    seq(64, i requires 0 <= i < 64 => PadByte(key, x, i))
  }

  function PadByte(key: seq<u8>, x: u8, i: nat): (p: u8)
  {
    XorByte(if i < |key| then key[i] else 0, x)
  }

  /** A key longer than a block is hashed first. */
  function BlockKey(f: Compress, key: seq<u8>): (k: seq<u8>)
    ensures |k| <= 64
  {
    if |key| > 64 then Hash(f, key) else key
  }

  function Hmac(f: Compress, key: seq<u8>, text: seq<u8>): (digest: Key)
  {
    var k := BlockKey(f, key);
    Hash(f, Pad(k, 0x5c) + Hash(f, Pad(k, 0x36) + text))
  }

  /** The n-th output (n >= 1): each is an HMAC of the one before and the counter n. */
  function Tau(f: Compress, chainingKey: Key, data: seq<u8>, n: nat): (t: Key)
    requires 1 <= n < 256
  {
    var tau0 := Hmac(f, chainingKey, data);
    if n == 1 then Hmac(f, tau0, [1]) else Hmac(f, tau0, Tau(f, chainingKey, data, n - 1) + [n])
  }
}

/** wireguard.c: the hash helpers, which write over their own inputs. */
module Kdf {
  import opened Words
  import opened Bits
  import opened Bytes
  import opened KdfSpec
  import Blake2s
  import Blake2sSpec
  import Aead

  /** init; update a; update b; final. */
  method HashTwo(f: Compress, out: array<u8>, a: seq<u8>, b: seq<u8>)
    requires out.Length >= 32
    modifies out
    ensures out[..] == Splice(old(out[..]), 0, Hash(f, a + b))
  {
    hide Splice, Blake2s.Streaming, Blake2sSpec.Start, Serialize, Blake2sSpec.FinalChain, Blake2s.Counter;
    var ctx := new Blake2s.Context(f);
    var _ := ctx.Init(32, []);
    ctx.Update(a);
    ctx.Update(b);
    assert [] + a + b == a + b;
    ctx.Final(out, 0);
  }

  /** wireguard_mix_hash: the digest replaces the hash it was computed from. */
  method MixHash(f: Compress, hash: array<u8>, src: seq<u8>)
    requires hash.Length == 32
    modifies hash
    ensures hash[..] == Hash(f, old(hash[..]) + src)
  {
    hide Hash, Splice;
    ghost var before := hash[..];
    HashTwo(f, hash, hash[..], src);
    Aead.SpliceAll(before, Hash(f, before + src));
  }

  /** wireguard_mac */
  method KeyedMac(f: Compress, key: seq<u8>, message: seq<u8>) returns (mac: seq<u8>)
    requires |key| == 32
    ensures mac == Mac(f, key, message)
  {
    hide Blake2sSpec.Hash;
    var ret;
    ret, mac := Blake2s.HashChunks(f, 16, key, [message]);
    assert Flatten([message]) == message by { assert [message][..0] == []; }
  }

  /** The padded key block of one pass: zeroed, the key copied in, every byte exclusive-ored. */
  method PadKey(key: seq<u8>, x: u8) returns (p: array<u8>)
    requires |key| <= 64
    ensures fresh(p) && p[..] == Pad(key, x)
  {
    hide XorByte;
    p := new u8[64](_ => 0);
    Copy(p, 0, key);
    ghost var filled := p[..];
    var i := 0;
    while i < 64
      invariant 0 <= i <= 64
      invariant forall k :: 0 <= k < i ==> p[k] == XorByte(filled[k], x)
      invariant forall k :: i <= k < 64 ==> p[k] == filled[k]
    {
      p[i] := XorByte(p[i], x);
      i := i + 1;
    }
  }

  /** wireguard_hmac: the digest may lie over the text, which the first pass has read. */
  method HmacInto(f: Compress, digest: array<u8>, key: seq<u8>, text: array<u8>, textLen: nat)
    requires digest.Length >= 32 && textLen <= text.Length
    modifies digest
    ensures digest[..] == Splice(old(digest[..]), 0, Hmac(f, key, old(text[..textLen])))
  {
    hide Hash, Splice, Pad;
    var k := key;
    if |key| > 64 {
      var tk := new u8[32];
      Aead.SpliceAll(tk[..], Hash(f, key));
      HashTwo(f, tk, key, []);
      assert key + [] == key;
      k := tk[..];
    }
    var ipad := PadKey(k, 0x36);
    var opad := PadKey(k, 0x5c);
    ghost var before, inner := digest[..], Hash(f, Pad(k, 0x36) + text[..textLen]);
    HashTwo(f, digest, ipad[..], text[..textLen]);
    SpliceTake(before, inner);
    HashTwo(f, digest, opad[..], digest[..32]);
    SpliceOver(before, inner, Hash(f, Pad(k, 0x5c) + inner));
  }

  lemma SpliceTake(s: seq<u8>, w: seq<u8>)
    requires |w| <= |s|
    ensures Splice(s, 0, w)[..|w|] == w
  {
  }

  lemma SpliceOver(s: seq<u8>, a: seq<u8>, b: seq<u8>)
    requires |a| == |b| <= |s|
    ensures Splice(Splice(s, 0, a), 0, b) == Splice(s, 0, b)
  {
  }

  /** The buffer `output[33]` between steps: the last output and a counter byte. */
  ghost predicate Holds(output: seq<u8>, tau: Key, n: nat)
  {
    |output| == 33 && n < 256 && output == tau + [n]
  }

  /** tau0 and tau1, as all three functions begin. */
  method FirstTau(f: Compress, chainingKey: seq<u8>, data: array<u8>, dataLen: nat) returns (tau0: array<u8>, output: array<u8>)
    requires |chainingKey| == 32 && dataLen <= data.Length
    ensures fresh(tau0) && fresh(output) && tau0 != output && output.Length == 33
    ensures tau0[..] == Hmac(f, chainingKey, data[..dataLen])
    ensures output[..32] == Tau(f, chainingKey, data[..dataLen], 1)
  {
    hide Hmac, Splice;
    tau0 := new u8[32];
    output := new u8[33];
    Aead.SpliceAll(tau0[..], Hmac(f, chainingKey, data[..dataLen]));
    HmacInto(f, tau0, chainingKey, data, dataLen);
    output[0] := 1;
    assert output[..1] == [1];
    SpliceTake(output[..], Hmac(f, tau0[..], [1]));
    HmacInto(f, output, tau0[..], output, 1);
  }

  /** tau_n from tau_(n-1), in place. */
  method NextTau(f: Compress, tau0: array<u8>, output: array<u8>, n: u8, ghost chainingKey: Key, ghost data: seq<u8>)
    requires 2 <= n && tau0 != output && output.Length == 33
    requires tau0[..] == Hmac(f, chainingKey, data) && output[..32] == Tau(f, chainingKey, data, n - 1)
    modifies output
    ensures output[..32] == Tau(f, chainingKey, data, n)
  {
    hide Hmac, Splice;
    output[32] := n;
    assert output[..33] == Tau(f, chainingKey, data, n - 1) + [n];
    SpliceTake(output[..], Hmac(f, tau0[..], output[..33]));
    HmacInto(f, output, tau0[..], output, 33);
  }

  /** wireguard_kdf1: tau1 may be the chaining key itself. */
  method Kdf1(f: Compress, tau1: array<u8>, chainingKey: array<u8>, data: array<u8>, dataLen: nat)
    requires tau1.Length == 32 && chainingKey.Length == 32 && dataLen <= data.Length
    modifies tau1
    ensures tau1[..] == Tau(f, old(chainingKey[..]), old(data[..dataLen]), 1)
  {
    hide Tau, Hmac;
    var tau0, output := FirstTau(f, chainingKey[..], data, dataLen);
    Store(tau1, output[..32]);
    Aead.CryptoZero(tau0);
    Aead.CryptoZero(output);
  }

  /** memcpy of a whole output. */
  method Store(dst: array<u8>, src: seq<u8>)
    requires dst.Length == |src|
    modifies dst
    ensures dst[..] == src
  {
    hide Splice;
    Aead.SpliceAll(dst[..], src);
    Copy(dst, 0, src);
  }

  /** wireguard_kdf2 */
  method Kdf2(f: Compress, tau1: array<u8>, tau2: array<u8>, chainingKey: array<u8>, data: array<u8>, dataLen: nat)
    requires tau1.Length == 32 && tau2.Length == 32 && chainingKey.Length == 32 && dataLen <= data.Length
    requires tau1 != tau2
    modifies tau1, tau2
    ensures tau1[..] == Tau(f, old(chainingKey[..]), old(data[..dataLen]), 1)
    ensures tau2[..] == Tau(f, old(chainingKey[..]), old(data[..dataLen]), 2)
  {
    hide Tau, Hmac;
    ghost var ck: Key, d := chainingKey[..], data[..dataLen];
    var tau0, output := FirstTau(f, chainingKey[..], data, dataLen);
    Store(tau1, output[..32]);
    NextTau(f, tau0, output, 2, ck, d);
    Store(tau2, output[..32]);
    Aead.CryptoZero(tau0);
    Aead.CryptoZero(output);
  }

  /** wireguard_kdf3 */
  method Kdf3(f: Compress, tau1: array<u8>, tau2: array<u8>, tau3: array<u8>, chainingKey: array<u8>, data: array<u8>, dataLen: nat)
    requires tau1.Length == 32 && tau2.Length == 32 && tau3.Length == 32 && chainingKey.Length == 32 && dataLen <= data.Length
    requires tau1 != tau2 && tau1 != tau3 && tau2 != tau3
    modifies tau1, tau2, tau3
    ensures tau1[..] == Tau(f, old(chainingKey[..]), old(data[..dataLen]), 1)
    ensures tau2[..] == Tau(f, old(chainingKey[..]), old(data[..dataLen]), 2)
    ensures tau3[..] == Tau(f, old(chainingKey[..]), old(data[..dataLen]), 3)
  {
    hide Tau, Hmac;
    ghost var ck: Key, d := chainingKey[..], data[..dataLen];
    var tau0, output := FirstTau(f, chainingKey[..], data, dataLen);
    Store(tau1, output[..32]);
    NextTau(f, tau0, output, 2, ck, d);
    Store(tau2, output[..32]);
    NextTau(f, tau0, output, 3, ck, d);
    Store(tau3, output[..32]);
    Aead.CryptoZero(tau0);
    Aead.CryptoZero(output);
  }
}
