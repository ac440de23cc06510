/** The ChaCha20 stream cipher of sections 2.3 and 2.4 of RFC 7539, for any round function. */
module ChaCha20Spec {
  import opened Words
  import opened Bits
  import opened Bytes

  type Words16 = s: seq<u32> | |s| == 16 witness seq(16, _ => 0)

  /** The twenty rounds, left abstract: every result holds whatever they compute. */
  type Rounds = Words16 -> Words16

  /** Word i of a block: the round output plus the input word, modulo 2^32. */
  function BlockWord(rounds: Rounds, s: Words16, i: nat): (w: u32)
    requires i < 16
  {
    (rounds(s)[i] as nat + s[i] as nat) % W32
  }

  function BlockWords(rounds: Rounds, s: Words16): (w: Words16)
  {
    seq(16, i requires 0 <= i < 16 => BlockWord(rounds, s, i))
  }

  /** Section 2.3: the 64 bytes of keystream for a state. */
  function Block(rounds: Rounds, s: Words16): (stream: seq<u8>)
    ensures |stream| == 64
  {
    Serialize(BlockWords(rounds, s))
  }

  /** The state with its block counter advanced by n, modulo 2^32. */
  function Advance(s: Words16, n: nat): (t: Words16)
  {
    s[12 := (s[12] as nat + n) % W32]
  }

  /** Byte i of the keystream that starts at state s. */
  function KeyByte(rounds: Rounds, s: Words16, i: nat): (b: u8)
  {
    Block(rounds, Advance(s, i / 64))[i % 64]
  }

  /** Section 2.4: every byte exclusive-ored with its keystream byte. */
  function Mask(rounds: Rounds, s: Words16, data: seq<u8>): (masked: seq<u8>)
    ensures |masked| == |data|
  {
    seq(|data|, i requires 0 <= i < |data| => XorByte(data[i], KeyByte(rounds, s, i)))
  }

  /** Masking twice with one keystream gives the data back. */
  lemma MaskTwice(rounds: Rounds, s: Words16, data: seq<u8>)
    ensures Mask(rounds, s, Mask(rounds, s, data)) == data
  {
    hide Xor, KeyByte;
    var once := Mask(rounds, s, data);
    forall i | 0 <= i < |data|
      ensures Mask(rounds, s, once)[i] == data[i]
    {
      XorCancel(data[i], KeyByte(rounds, s, i));
    }
  }

  const CONSTANTS: seq<u32> := [0x6170_7865, 0x3320_646e, 0x7962_2d32, 0x6b20_6574]

  /** Constants, key, block counter and WireGuard's nonce: 32 zero bits, then 64 bits of counter. */
  function State(key: seq<u8>, counter: u32, nonce: u64): (s: Words16)
    requires |key| == 32
  {
    CONSTANTS + ToWords(key) + [counter, 0, nonce % W32, nonce / W32]
  }

  lemma AdvanceState(key: seq<u8>, counter: u32, nonce: u64, n: nat)
    requires |key| == 32
    ensures Advance(State(key, counter, nonce), n) == State(key, (counter as nat + n) % W32, nonce)
  {
  }

  lemma AdvanceTwice(s: Words16, m: nat, n: nat)
    ensures Advance(Advance(s, m), n) == Advance(s, m + n)
  {
  }

  /** HChaCha20 (section 2.2 of draft-arciszewski-xchacha-02): the first and last rows after the rounds. */
  function Subkey(rounds: Rounds, nonce: seq<u8>, key: seq<u8>): (k: seq<u8>)
    requires |nonce| == 16 && |key| == 32
    ensures |k| == 32
  {
    var w := rounds(CONSTANTS + ToWords(key) + ToWords(nonce));
    Serialize(w[..4] + w[12..])
  }
}

/** chacha20.c */
module ChaCha20 {
  import opened Words
  import opened Bits
  import opened Bytes
  import opened ChaCha20Spec

  /** U8TO32_LITTLE of the eight words of a key, or the four of a nonce. */
  method LoadWords(state: array<u32>, off: nat, bytes: seq<u8>)
    requires |bytes| % 4 == 0 && off + |bytes| / 4 <= state.Length
    modifies state
    ensures state[..off] == old(state[..off])
    ensures state[off..off + |bytes| / 4] == ToWords(bytes)
    ensures state[off + |bytes| / 4..] == old(state[off + |bytes| / 4..])
  {
    hide ToWords, U8To32, Word;
    var n := |bytes| / 4;
    for i := 0 to n
      invariant forall k {:trigger state[k]} :: 0 <= k < state.Length && !(off <= k < off + i) ==> state[k] == old(state[k])
      invariant forall k {:trigger state[k]} :: off <= k < off + i ==> state[k] == ToWords(bytes)[k - off]
    {
      U8To32IsLe(bytes, 4 * i);
      state[off + i] := U8To32(bytes, 4 * i);
    }
  }

  class Context {
    const state: array<u32>

    ghost predicate Valid()
      reads this, state
    {
      state.Length == 16
    }

    /** The sixteen words of the state. */
    ghost function Words(): (s: Words16)
      requires Valid()
      reads this, state
    {
      state[..]
    }

    /** chacha20_init: the block counter starts at zero. */
    constructor (key: seq<u8>, nonce: u64)
      requires |key| == 32
      ensures Valid() && fresh(state) && Words() == State(key, 0, nonce)
    {
      state := new u32[16];
      new;
      hide ToWords, And, State;
      state[0] := 0x6170_7865;
      state[1] := 0x3320_646e;
      state[2] := 0x7962_2d32;
      state[3] := 0x6b20_6574;
      LoadWords(state, 4, key);
      state[12] := 0;
      state[13] := 0;
      Mask32(nonce);
      state[14] := And(nonce, 0xffff_ffff);
      state[15] := nonce / W32;
      StateIs(state[..], key, nonce);
    }

    /** chacha20_block */
    method NextBlock(rounds: Rounds, stream: array<u8>)
      requires Valid() && stream.Length == 64
      modifies stream
      ensures stream[..] == Block(rounds, Words())
    {
      hide ToLe, Splice, BlockWords, Serialize;
      ghost var w := BlockWords(rounds, Words());
      var working := rounds(state[..]);
      StreamStart(stream[..0], w);
      for i := 0 to 16
        invariant stream[..4 * i] == Serialize(w[..i])
      {
        var x := (working[i] as nat + state[i] as nat) % W32;
        SpliceGrows(stream[..], 4 * i, ToLe(x, 4));
        U32To8(stream, 4 * i, x);
        WordAt(rounds, Words(), i);
        SerializePush(w[..i], x);
        assert w[..i + 1] == w[..i] + [x];
      }
      assert w[..16] == w && stream[..64] == stream[..];
    }

    /** `state[12] = PLUSONE(state[12])` */
    method CountBlock()
      requires Valid()
      modifies state
      ensures Valid() && Words() == Advance(old(Words()), 1)
    {
      state[12] := (state[12] as nat + 1) % W32;
      AdvanceOne(old(Words()), Words());
    }

    /** One turn of the loop of chacha20: a block of keystream over the next 64 bytes or what is left. */
    method CryptBlock(rounds: Rounds, out: array<u8>, o: nat, input: array<u8>, i: nat, rest: nat, stream: array<u8>) returns (n: nat)
      requires Valid() && stream.Length == 64 && stream != out && stream != input && 0 < rest
      requires o + rest <= out.Length && i + rest <= input.Length && (out == input ==> o <= i || i + rest <= o)
      modifies state, out, stream
      ensures Valid() && Words() == Advance(old(Words()), 1) && stream[..] == Block(rounds, old(Words()))
      ensures n == if rest <= 64 then rest else 64
      ensures out[..] == Splice(old(out[..]), o, XorBlock(old(input[i..i + rest])[..n], stream[..]))
      ensures input[i + n..i + rest] == old(input[i..i + rest])[n..]
    {
      hide Splice, Block, Advance, XorBlock;
      NextBlock(rounds, stream);
      CountBlock();
      n := if rest <= 64 then rest else 64;
      XorInto(out, o, input, i, stream, n, rest);
      assert old(input[i..i + rest])[n..] == old(input[i + n..i + rest]);
    }

    /** After `done` bytes: so much of the output is written, the state stands `blocks` further, and the
        rest of the input is as it was. */
    ghost predicate Progress(rounds: Rounds, s: Words16, before: seq<u8>, data: seq<u8>,
                             out: array<u8>, o: nat, input: array<u8>, i: nat, done: nat, blocks: nat)
      reads this, state, out, input
    {
      && Valid() && done <= |data| && o + |data| <= |before| == out.Length && i + |data| <= input.Length
      && blocks == (done + 63) / 64 && (done < |data| ==> done == 64 * blocks)
      && Words() == Advance(s, blocks)
      && out[..] == Splice(before, o, Mask(rounds, s, data[..done]))
      && input[i + done..i + |data|] == data[done..]
    }

    /** One turn of the loop keeps that. */
    method Turn(rounds: Rounds, ghost s: Words16, ghost before: seq<u8>, ghost data: seq<u8>, total: nat,
                out: array<u8>, o: nat, input: array<u8>, i: nat, done: nat, ghost blocks: nat, stream: array<u8>) returns (n: nat)
      requires Progress(rounds, s, before, data, out, o, input, i, done, blocks) && total == |data| && done < total
      requires stream.Length == 64 && stream != out && stream != input && (out == input ==> o <= i || i + total <= o)
      modifies state, out, stream
      ensures 0 < n && Progress(rounds, s, before, data, out, o, input, i, done + n, blocks + 1)
    {
      hide Mask, Advance, Splice, Block, XorBlock, XorByte;
      ghost var sofar := out[..];
      n := CryptBlock(rounds, out, o + done, input, i + done, total - done, stream);
      AdvanceTwice(s, blocks, 1);
      BlockCount(blocks, n);
      OneBlockMore(rounds, s, data, done, blocks, n, stream[..], before, o, sofar, out[..]);
    }

    /** chacha20: out[i] = in[i] ^ keystream[i], block by block. The output may overwrite the
        input in place or trail behind it; both loads of a byte precede its store. */
    method Crypt(rounds: Rounds, out: array<u8>, o: nat, input: array<u8>, i: nat, len: u32)
      requires Valid() && o + len as nat <= out.Length && i + len as nat <= input.Length
      requires out == input ==> o <= i || i + len as nat <= o
      modifies state, out
      ensures Valid() && Words() == Advance(old(Words()), (len as nat + 63) / 64)
      ensures out[..] == Splice(old(out[..]), o, Mask(rounds, old(Words()), old(input[i..i + len as nat])))
    {
      hide Mask, Advance, Splice, Block, XorBlock, XorByte;
      var stream := new u8[64];
      ghost var s, data, before := Words(), input[i..i + len as nat], out[..];
      var done: nat := 0;
      ghost var blocks := 0;
      AdvanceZero(s);
      MaskNothing(rounds, s, before, o);
      assert data[..0] == [];
      while done < len as nat
        modifies state, out, stream
        invariant done <= len as nat && Progress(rounds, s, before, data, out, o, input, i, done, blocks)
      {
        var n := Turn(rounds, s, before, data, len as nat, out, o, input, i, done, blocks, stream);
        done, blocks := done + n, blocks + 1;
      }
      assert data[..len] == data;
    }
  }

  lemma OneBlockMore(rounds: Rounds, s: Words16, data: seq<u8>, done: nat, blocks: nat, n: nat, stream: seq<u8>,
                     before: seq<u8>, o: nat, sofar: seq<u8>, after: seq<u8>)
    requires done == 64 * blocks && n <= 64 && done + n <= |data| && o + |data| <= |before|
    requires stream == Block(rounds, Advance(s, blocks)) && sofar == Splice(before, o, Mask(rounds, s, data[..done]))
    requires |sofar| == |before| && after == Splice(sofar, o + done, XorBlock(data[done..][..n], stream))
    ensures after == Splice(before, o, Mask(rounds, s, data[..done + n])) && data[done..][n..] == data[done + n..]
  {
    hide Mask, Advance, Splice, Block, XorBlock;
    SubSlice(data, done, n);
    MaskGrows(rounds, s, data, done, blocks, n, stream, before, o);
  }

  lemma SubSlice(data: seq<u8>, done: nat, n: nat)
    requires done + n <= |data|
    ensures data[done..][..n] == data[done..done + n] && data[done..][n..] == data[done + n..]
  {
  }

  lemma StateIs(w: Words16, key: seq<u8>, nonce: u64)
    requires |key| == 32 && w[0] == 0x6170_7865 && w[1] == 0x3320_646e && w[2] == 0x7962_2d32 && w[3] == 0x6b20_6574
    requires w[4..12] == ToWords(key) && w[12] == 0 && w[13] == 0 && w[14] == nonce % W32 && w[15] == nonce / W32
    ensures w == State(key, 0, nonce)
  {
    hide ToWords;
    assert w == w[..4] + w[4..12] + w[12..];
  }

  lemma StreamStart(a: seq<u8>, w: seq<u32>)
    requires a == []
    ensures a == Serialize(w[..0])
  {
  }

  lemma WordAt(rounds: Rounds, s: Words16, i: nat)
    requires i < 16
    ensures BlockWords(rounds, s)[i] == (rounds(s)[i] as nat + s[i] as nat) % W32
  {
  }

  lemma BlockCount(blocks: nat, n: nat)
    requires 1 <= n <= 64
    ensures (64 * blocks + n + 63) / 64 == blocks + 1 && (n < 64 || 64 * blocks + n == 64 * (blocks + 1))
  {
  }

  lemma AdvanceZero(s: Words16)
    ensures Advance(s, 0) == s
  {
  }

  lemma AdvanceOne(s: Words16, t: Words16)
    requires t == s[12 := (s[12] as nat + 1) % W32]
    ensures t == Advance(s, 1)
  {
  }

  lemma MaskNothing(rounds: Rounds, s: Words16, before: seq<u8>, o: nat)
    requires o <= |before|
    ensures before == Splice(before, o, Mask(rounds, s, []))
  {
  }

  /** n bytes of data exclusive-ored with the start of a block. */
  function XorBlock(data: seq<u8>, stream: seq<u8>): (x: seq<u8>)
    requires |data| <= |stream|
    ensures |x| == |data|
  {
    seq(|data|, k requires 0 <= k < |data| => XorByte(data[k], stream[k]))
  }

  lemma MaskGrows(rounds: Rounds, s: Words16, data: seq<u8>, done: nat, blocks: nat, n: nat, stream: seq<u8>, before: seq<u8>, o: nat)
    requires done == 64 * blocks && n <= 64 && done + n <= |data| && o + |data| <= |before|
    requires stream == Block(rounds, Advance(s, blocks))
    ensures Splice(Splice(before, o, Mask(rounds, s, data[..done])), o + done, XorBlock(data[done..done + n], stream))
         == Splice(before, o, Mask(rounds, s, data[..done + n]))
  {
    hide Block, Advance, XorByte, Splice;
    var head, tail, whole := Mask(rounds, s, data[..done]), XorBlock(data[done..done + n], stream), Mask(rounds, s, data[..done + n]);
    forall k | 0 <= k < done + n
      ensures whole[k] == (head + tail)[k]
    {
      if k >= done {
        assert k / 64 == blocks && k % 64 == k - done;
      }
    }
    assert whole == head + tail;
    SpliceTwice(before, o, head, tail);
  }

  /** The inner loop: at most one block. The rest of the input, up to `rest` bytes, is not
      disturbed when the output trails it. */
  method XorInto(out: array<u8>, o: nat, input: array<u8>, i: nat, stream: array<u8>, n: nat, rest: nat)
    requires n <= 64 && n <= rest && stream.Length == 64 && stream != out && o + rest <= out.Length && i + rest <= input.Length
    requires out == input ==> o <= i || i + rest <= o
    modifies out
    ensures out[..] == Splice(old(out[..]), o, XorBlock(old(input[i..i + rest])[..n], stream[..]))
    ensures input[i + n..i + rest] == old(input[i + n..i + rest])
  {
    hide XorByte, Splice, XorBlock;
    ghost var before, data := out[..], input[i..i + rest];
    for k := 0 to n
      invariant forall j {:trigger out[j]} :: 0 <= j < out.Length && !(o <= j < o + k) ==> out[j] == before[j]
      invariant forall j {:trigger out[j]} :: o <= j < o + k ==> out[j] == XorByte(data[j - o], stream[j - o])
      invariant forall j {:trigger input[j]} :: i + k <= j < i + rest ==> input[j] == data[j - i]
    {
      out[o + k] := XorByte(input[i + k], stream[k]);
    }
    XoredBytes(before, out[..], o, data[..n], stream[..]);
    assert input[i + n..i + rest] == data[n..];
    assert old(input[i + n..i + rest]) == data[n..];
  }

  lemma XoredBytes(before: seq<u8>, after: seq<u8>, o: nat, data: seq<u8>, stream: seq<u8>)
    requires o + |data| <= |before| == |after| && |data| <= |stream|
    requires forall j :: 0 <= j < |before| && !(o <= j < o + |data|) ==> after[j] == before[j]
    requires forall j :: o <= j < o + |data| ==> after[j] == XorByte(data[j - o], stream[j - o])
    ensures after == Splice(before, o, XorBlock(data, stream))
  {
  }

  /** The state of HChaCha20: the nonce fills the last row. */
  method SubkeyState(nonce: seq<u8>, key: seq<u8>) returns (state: array<u32>)
    requires |nonce| == 16 && |key| == 32
    ensures fresh(state) && state[..] == CONSTANTS + ToWords(key) + ToWords(nonce)
  {
    hide ToWords;
    state := new u32[16];
    state[0] := 0x6170_7865;
    state[1] := 0x3320_646e;
    state[2] := 0x7962_2d32;
    state[3] := 0x6b20_6574;
    assert state[..4] == CONSTANTS;
    LoadWords(state, 4, key);
    assert state[..12] == state[..4] + state[4..12];
    LoadWords(state, 12, nonce);
    assert state[..] == state[..12] + state[12..16];
  }

  /** hchacha20 */
  method HChaCha20(rounds: Rounds, out: array<u8>, nonce: seq<u8>, key: seq<u8>)
    requires out.Length == 32 && |nonce| == 16 && |key| == 32
    modifies out
    ensures out[..] == Subkey(rounds, nonce, key)
  {
    hide ToWords, Serialize, ToLe, Splice;
    var state := SubkeyState(nonce, key);
    var w := rounds(state[..]);
    var rows: seq<u32> := w[..4] + w[12..];
    StreamStart(out[..0], rows);
    for i := 0 to 8
      invariant out[..4 * i] == Serialize(rows[..i])
    {
      SpliceGrows(out[..], 4 * i, ToLe(rows[i], 4));
      U32To8(out, 4 * i, rows[i]);
      SerializePush(rows[..i], rows[i]);
      assert rows[..i + 1] == rows[..i] + [rows[i]];
    }
    assert rows[..8] == rows && out[..32] == out[..];
  }
}
