/** The AEAD construction of section 2.8 of RFC 7539, for any round function. */
module AeadSpec {
  import opened Words
  import opened Bytes
  import opened ChaCha20Spec
  import Poly1305Spec

  datatype Option<T> = None | Some(value: T)

  /** Section 2.6: the one-time key is the first half of keystream block 0. */
  function OneTimeKey(rounds: Rounds, key: seq<u8>, nonce: u64): (k: seq<u8>)
    requires |key| == 32
    ensures |k| == 32
  {
    Block(rounds, State(key, 0, nonce))[..32]
  }

  function Zeros(n: nat): (z: seq<u8>)
    ensures |z| == n
  {
    seq(n, _ => 0)
  }

  /** Zero bytes up to the next multiple of 16. */
  function Pad16(n: nat): (z: seq<u8>)
    ensures (n + |z|) % 16 == 0 && |z| < 16
  {
    Zeros((16 - n % 16) % 16)
  }

  /** What the tag covers: both strings padded, then both lengths. */
  function MacData(ad: seq<u8>, c: seq<u8>): (m: seq<u8>)
  {
    ad + Pad16(|ad|) + c + Pad16(|c|) + ToLe(|ad|, 8) + ToLe(|c|, 8)
  }

  function Tag(rounds: Rounds, key: seq<u8>, nonce: u64, ad: seq<u8>, c: seq<u8>): (t: seq<u8>)
    requires |key| == 32
    ensures |t| == 16
  {
    Poly1305Spec.Mac(OneTimeKey(rounds, key, nonce), MacData(ad, c))
  }

  function Seal(rounds: Rounds, key: seq<u8>, nonce: u64, ad: seq<u8>, p: seq<u8>): (s: seq<u8>)
    requires |key| == 32
    ensures |s| == |p| + 16
  {
    var c := Mask(rounds, State(key, 1, nonce), p);
    c + Tag(rounds, key, nonce, ad, c)
  }

  function Open(rounds: Rounds, key: seq<u8>, nonce: u64, ad: seq<u8>, s: seq<u8>): (p: Option<seq<u8>>)
    requires |key| == 32
  {
    if |s| < 16 then None
    else
      var c := s[..|s| - 16];
      if s[|s| - 16..] == Tag(rounds, key, nonce, ad, c) then Some(Mask(rounds, State(key, 1, nonce), c)) else None
  }

  /** Opening undoes sealing, and accepts nothing else. */
  lemma OpenSeal(rounds: Rounds, key: seq<u8>, nonce: u64, ad: seq<u8>, p: seq<u8>, s: seq<u8>)
    requires |key| == 32
    ensures Open(rounds, key, nonce, ad, s) == Some(p) <==> s == Seal(rounds, key, nonce, ad, p)
  {
    hide Mask, Tag, State;
    var start := State(key, 1, nonce);
    var c := Mask(rounds, start, p);
    if s == Seal(rounds, key, nonce, ad, p) {
      MaskTwice(rounds, start, p);
      assert s[..|s| - 16] == c && s[|s| - 16..] == Tag(rounds, key, nonce, ad, c);
    }
    if Open(rounds, key, nonce, ad, s) == Some(p) {
      MaskTwice(rounds, start, s[..|s| - 16]);
      assert s == s[..|s| - 16] + s[|s| - 16..];
    }
  }

  lemma MaskAt(rounds: Rounds, s: Words16, data: seq<u8>, i: nat)
    requires i < |data|
    ensures Mask(rounds, s, data)[i] == XorByte(data[i], Block(rounds, Advance(s, i / 64))[i % 64])
  {
  }

  /** Payload byte i is masked by keystream block 1 + i / 64 of the key and nonce. */
  lemma PayloadBlock(rounds: Rounds, key: seq<u8>, nonce: u64, ad: seq<u8>, p: seq<u8>, i: nat)
    requires |key| == 32 && i < |p|
    ensures Seal(rounds, key, nonce, ad, p)[i]
         == XorByte(p[i], Block(rounds, State(key, (1 + i / 64) % W32, nonce))[i % 64])
  {
    hide Block, XorByte, State, Advance, Tag, Mask;
    AdvanceState(key, 1, nonce, i / 64);
    MaskAt(rounds, State(key, 1, nonce), p, i);
  }
}

/** crypto.c and chacha20poly1305.c */
module Aead {
  import opened Words
  import opened Bits
  import opened Bytes
  import opened ChaCha20Spec
  import opened AeadSpec
  import ChaCha20
  import Poly1305
  import Poly1305Spec

  /** crypto_equal: every pair of bytes is looked at, whatever the first ones were. */
  method CryptoEqual(a: seq<u8>, b: seq<u8>) returns (equal: bool)
    requires |a| == |b|
    ensures equal <==> a == b
  {
    hide Or;
    var neq: u8 := 0;
    for i := 0 to |a|
      invariant neq == 0 <==> a[..i] == b[..i]
    {
      OrIsZero(neq, XorByte(a[i], b[i]));
      XorEqualsZero(a[i], b[i]);
      neq := OrByte(neq, XorByte(a[i], b[i]));
      assert a[..i + 1] == a[..i] + [a[i]] && b[..i + 1] == b[..i] + [b[i]];
    }
    assert a[..|a|] == a && b[..|a|] == b;
    equal := neq == 0;
  }

  function OrByte(a: u8, b: u8): (c: u8)
    ensures c as nat == Or(a, b)
  {
    Pow2Values();
    OrBound(a, b, 8);
    Or(a, b)
  }

  /** crypto_zero */
  method CryptoZero(dest: array<u8>)
    modifies dest
    ensures dest[..] == Zeros(dest.Length)
  {
    var i := 0;
    while i < dest.Length
      invariant 0 <= i <= dest.Length && forall k :: 0 <= k < i ==> dest[k] == 0
    {
      dest[i] := 0;
      i := i + 1;
    }
  }

  /** Key stream bytes over a zeroed block are the keystream itself. */
  lemma MaskZeros(rounds: Rounds, key: seq<u8>, nonce: u64)
    requires |key| == 32
    ensures Mask(rounds, State(key, 0, nonce), Zeros(32)) == OneTimeKey(rounds, key, nonce)
  {
    hide Block, State;
    var s := State(key, 0, nonce);
    ChaCha20.AdvanceZero(s);
    forall i | 0 <= i < 32
      ensures Mask(rounds, s, Zeros(32))[i] == Block(rounds, s)[i]
    {
      assert Xor(0, KeyByte(rounds, s, i)) == KeyByte(rounds, s, i);
    }
  }

  /** Keystream block 0 gives the one-time key, and the cipher is left at block 1. */
  method FirstBlock(rounds: Rounds, key: seq<u8>, nonce: u64) returns (block: array<u8>, cipher: ChaCha20.Context)
    requires |key| == 32
    ensures fresh(block) && block[..] == OneTimeKey(rounds, key, nonce)
    ensures fresh(cipher) && fresh(cipher.state) && cipher.Valid() && cipher.Words() == State(key, 1, nonce)
  {
    hide Mask, OneTimeKey, State, Advance, Splice;
    block := new u8[32](_ => 0);
    ghost var zeros := block[..];
    assert zeros == Zeros(32) && block[0..32] == zeros;
    cipher := new ChaCha20.Context(key, nonce);
    cipher.Crypt(rounds, block, 0, block, 0, 32);
    SpliceAll(zeros, Mask(rounds, State(key, 0, nonce), zeros));
    MaskZeros(rounds, key, nonce);
    AdvanceState(key, 0, nonce, 1);
  }

  lemma SpliceAll(s: seq<u8>, w: seq<u8>)
    requires |s| == |w|
    ensures Splice(s, 0, w) == w
  {
  }

  /** generate_poly1305_key */
  method GeneratePoly1305Key(rounds: Rounds, key: seq<u8>, nonce: u64)
    returns (mac: Poly1305.Context, cipher: ChaCha20.Context)
    requires |key| == 32
    ensures fresh(mac) && fresh(mac.buffer) && mac.Valid() && mac.msg == [] && mac.key == OneTimeKey(rounds, key, nonce)
    ensures fresh(cipher) && fresh(cipher.state) && cipher.Valid() && cipher.Words() == State(key, 1, nonce)
  {
    hide OneTimeKey, State;
    var block: array<u8>;
    block, cipher := FirstBlock(rounds, key, nonce);
    mac := new Poly1305.Context(block[..]);
    CryptoZero(block);
  }

  /** `(n + 15) & 0xFFFFFFF0`, less n: the amount of padding. */
  lemma Padding(n: nat)
    requires n < 0x8000_0000
    ensures And(n + 15, 0xffff_fff0) - n == |Pad16(n)|
  {
    hide And;
    AlignDown16(n + 15);
    RoundUp(n);
  }

  lemma RoundUp(n: nat)
    ensures n + 15 - (n + 15) % 16 - n == (16 - n % 16) % 16
  {
  }

  /** A string and the zeros that pad it. */
  method UpdatePadded(mac: Poly1305.Context, s: seq<u8>)
    requires mac.Valid() && |s| < 0x8000_0000
    modifies mac, mac.buffer
    ensures mac.Valid() && mac.key == old(mac.key) && mac.msg == old(mac.msg) + s + Pad16(|s|)
  {
    hide And, Poly1305.InStep;
    mac.Update(s);
    Padding(|s|);
    var paddedLen := And(|s| + 15, 0xffff_fff0);
    var zero := Zeros(64);
    mac.Update(zero[..paddedLen - |s|]);
  }

  method UpdateLength(mac: Poly1305.Context, n: u64)
    requires mac.Valid()
    modifies mac, mac.buffer
    ensures mac.Valid() && mac.key == old(mac.key) && mac.msg == old(mac.msg) + ToLe(n, 8)
  {
    hide ToLe, Splice, Poly1305.InStep;
    var block := new u8[8];
    SpliceAll(block[..], ToLe(n, 8));
    U64To8(block, 0, n);
    mac.Update(block[..]);
  }

  /** The six updates of the authenticator. */
  method Authenticate(mac: Poly1305.Context, ad: seq<u8>, c: seq<u8>)
    requires mac.Valid() && mac.msg == [] && |ad| < 0x8000_0000 && |c| < 0x8000_0000
    modifies mac, mac.buffer
    ensures mac.Valid() && mac.key == old(mac.key) && mac.msg == MacData(ad, c)
  {
    hide ToLe, Pad16, Poly1305.InStep;
    UpdatePadded(mac, ad);
    UpdatePadded(mac, c);
    UpdateLength(mac, |ad|);
    UpdateLength(mac, |c|);
    assert [] + ad == ad;
  }

  /** Where `src` may lie relative to the output: elsewhere, at the same place, or such that
      the output trails it. */
  predicate MayOverwrite(dst: array<u8>, o: nat, src: array<u8>, i: nat, len: nat)
  {
    dst == src ==> o <= i || i + len <= o
  }

  /** The tag over the ciphertext in dst[o..o + len], written behind it. */
  method AppendTag(mac: Poly1305.Context, ad: seq<u8>, dst: array<u8>, o: nat, len: nat)
    requires mac.Valid() && mac.msg == [] && |ad| < 0x8000_0000 && len < 0x8000_0000
    requires o + len + 16 <= dst.Length && dst != mac.buffer
    modifies mac, mac.buffer, dst
    ensures dst[..] == Splice(old(dst[..]), o + len, Poly1305Spec.Mac(old(mac.key), MacData(ad, old(dst[o..o + len]))))
  {
    hide MacData, Splice, Poly1305Spec.Mac, Poly1305.InStep;
    Authenticate(mac, ad, dst[o..o + len]);
    mac.Finish(dst, o + len);
  }

  /** chacha20poly1305_encrypt */
  method Encrypt(rounds: Rounds, dst: array<u8>, o: nat, src: array<u8>, i: nat, len: nat,
                 ad: seq<u8>, nonce: u64, key: seq<u8>)
    requires |key| == 32 && |ad| < 0x8000_0000 && len < 0x8000_0000
    requires o + len + 16 <= dst.Length && i + len <= src.Length && MayOverwrite(dst, o, src, i, len)
    modifies dst
    ensures dst[..] == Splice(old(dst[..]), o, Seal(rounds, key, nonce, ad, old(src[i..i + len])))
  {
    hide Mask, OneTimeKey, State, MacData, Splice, Poly1305Spec.Mac, Poly1305.InStep;
    ghost var before, p := dst[..], src[i..i + len];
    var mac, cipher := GeneratePoly1305Key(rounds, key, nonce);
    cipher.Crypt(rounds, dst, o, src, i, len);
    ghost var c := Mask(rounds, State(key, 1, nonce), p);
    SpliceSlice(before, o, c);
    assert dst[o..o + len] == dst[..][o..o + len] == c;
    AppendTag(mac, ad, dst, o, len);
    SpliceTwice(before, o, c, Tag(rounds, key, nonce, ad, c));
  }

  lemma SpliceSlice(s: seq<u8>, off: nat, w: seq<u8>)
    requires off + |w| <= |s|
    ensures Splice(s, off, w)[off..off + |w|] == w
  {
  }

  /** The authenticator over the ciphertext, as decryption recomputes it. */
  method TagOf(rounds: Rounds, mac: Poly1305.Context, ad: seq<u8>, c: seq<u8>) returns (t: seq<u8>)
    requires mac.Valid() && mac.msg == [] && |ad| < 0x8000_0000 && |c| < 0x8000_0000
    modifies mac, mac.buffer
    ensures t == Poly1305Spec.Mac(old(mac.key), MacData(ad, c))
  {
    hide MacData, Splice, Poly1305Spec.Mac;
    var tag := new u8[16];
    Authenticate(mac, ad, c);
    SpliceAll(tag[..], Poly1305Spec.Mac(mac.key, mac.msg));
    mac.Finish(tag, 0);
    t := tag[..];
  }

  /** chacha20poly1305_decrypt: nothing is written unless the tag matches. */
  method Decrypt(rounds: Rounds, dst: array<u8>, o: nat, src: array<u8>, i: nat, len: nat,
                 ad: seq<u8>, nonce: u64, key: seq<u8>) returns (result: bool)
    requires |key| == 32 && |ad| < 0x8000_0000 && len < 0x8000_0000 && i + len <= src.Length
    requires len >= 16 ==> o + len - 16 <= dst.Length && MayOverwrite(dst, o, src, i, len - 16)
    modifies dst
    ensures var plain := Open(rounds, key, nonce, ad, old(src[i..i + len]));
      && result == plain.Some?
      && dst[..] == if plain.Some? then Splice(old(dst[..]), o, plain.value) else old(dst[..])
  {
    hide Mask, OneTimeKey, State, MacData, Splice, Poly1305Spec.Mac;
    result := false;
    if len >= 16 {
      var dstLen := len - 16;
      ghost var s := src[i..i + len];
      assert s[..dstLen] == src[i..i + dstLen] && s[dstLen..] == src[i + dstLen..i + len];
      var mac, cipher := GeneratePoly1305Key(rounds, key, nonce);
      var tag := TagOf(rounds, mac, ad, src[i..i + dstLen]);
      var equal := CryptoEqual(tag, src[i + dstLen..i + len]);
      if equal {
        cipher.Crypt(rounds, dst, o, src, i, dstLen);
        result := true;
      }
    }
  }

  /** xchacha20poly1305_encrypt: the subkey of the first 16 nonce bytes, the last 8 as nonce. */
  method XEncrypt(rounds: Rounds, dst: array<u8>, o: nat, src: array<u8>, i: nat, len: nat,
                  ad: seq<u8>, nonce: seq<u8>, key: seq<u8>)
    requires |key| == 32 && |nonce| == 24 && |ad| < 0x8000_0000 && len < 0x8000_0000
    requires o + len + 16 <= dst.Length && i + len <= src.Length && MayOverwrite(dst, o, src, i, len)
    modifies dst
    ensures dst[..] == Splice(old(dst[..]), o, XSeal(rounds, key, nonce, ad, old(src[i..i + len])))
  {
    hide Seal, Splice, Subkey, U8To64;
    var subkey := new u8[32];
    U8To64IsLe(nonce, 16);
    var newNonce := U8To64(nonce, 16);
    ChaCha20.HChaCha20(rounds, subkey, nonce[..16], key);
    Encrypt(rounds, dst, o, src, i, len, ad, newNonce, subkey[..]);
    CryptoZero(subkey);
  }

  /** xchacha20poly1305_decrypt */
  method XDecrypt(rounds: Rounds, dst: array<u8>, o: nat, src: array<u8>, i: nat, len: nat,
                  ad: seq<u8>, nonce: seq<u8>, key: seq<u8>) returns (result: bool)
    requires |key| == 32 && |nonce| == 24 && |ad| < 0x8000_0000 && len < 0x8000_0000 && i + len <= src.Length
    requires len >= 16 ==> o + len - 16 <= dst.Length && MayOverwrite(dst, o, src, i, len - 16)
    modifies dst
    ensures var plain := XOpen(rounds, key, nonce, ad, old(src[i..i + len]));
      && result == plain.Some?
      && dst[..] == if plain.Some? then Splice(old(dst[..]), o, plain.value) else old(dst[..])
  {
    hide Open, Splice, Subkey, U8To64;
    var subkey := new u8[32];
    U8To64IsLe(nonce, 16);
    var newNonce := U8To64(nonce, 16);
    ChaCha20.HChaCha20(rounds, subkey, nonce[..16], key);
    result := Decrypt(rounds, dst, o, src, i, len, ad, newNonce, subkey[..]);
    CryptoZero(subkey);
  }

  /** The last eight bytes of an extended nonce. */
  function XNonce(nonce: seq<u8>): (n: u64)
    requires |nonce| == 24
  {
    LeBound(nonce[16..24]);
    Pow2Values();
    Le(nonce[16..24])
  }

  /** XChaCha20Poly1305: sealing under the derived subkey with the last eight nonce bytes. */
  function XSeal(rounds: Rounds, key: seq<u8>, nonce: seq<u8>, ad: seq<u8>, p: seq<u8>): (s: seq<u8>)
    requires |key| == 32 && |nonce| == 24
    ensures |s| == |p| + 16
  {
    Seal(rounds, Subkey(rounds, nonce[..16], key), XNonce(nonce), ad, p)
  }

  function XOpen(rounds: Rounds, key: seq<u8>, nonce: seq<u8>, ad: seq<u8>, s: seq<u8>): (p: Option<seq<u8>>)
    requires |key| == 32 && |nonce| == 24
  {
    Open(rounds, Subkey(rounds, nonce[..16], key), XNonce(nonce), ad, s)
  }

  /** Whatever was sealed in a buffer, in place or not, opens to the same bytes there. */
  method SealThenOpen(rounds: Rounds, buffer: array<u8>, p: seq<u8>, ad: seq<u8>, nonce: u64, key: seq<u8>)
    returns (result: bool)
    requires |key| == 32 && |ad| < 0x8000_0000 && |p| + 16 < 0x8000_0000 && buffer.Length == |p| + 16
    modifies buffer
    ensures result && buffer[..|p|] == p
  {
    hide Seal, Open, Splice;
    Copy(buffer, 0, p);
    SpliceSlice(old(buffer[..]), 0, p);
    ghost var before := buffer[..];
    Encrypt(rounds, buffer, 0, buffer, 0, |p|, ad, nonce, key);
    ghost var s := Seal(rounds, key, nonce, ad, p);
    SpliceAll(before, s);
    assert buffer[0..|p| + 16] == s;
    OpenSeal(rounds, key, nonce, ad, p, s);
    result := Decrypt(rounds, buffer, 0, buffer, 0, |p| + 16, ad, nonce, key);
    SpliceSlice(s, 0, p);
  }
}
