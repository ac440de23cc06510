/** Section 4 of RFC 4648. */
module Base64Spec {
  import opened Words
  import opened Bits

  const LOOKUP: string :=
    "ABCDEFGHIJKLM" + "NOPQRSTUVWXYZ" + "abcdefghijklm" + "nopqrstuvwxyz" + "0123456789" + "+/"

  function Range(from: char, n: nat): (s: string)
    requires from as int + n <= 0x80
    ensures |s| == n && forall i :: 0 <= i < n ==> s[i] == (from as int + i) as char
  {
    seq(n, i requires 0 <= i < n => (from as int + i) as char)
  }

  lemma Digits()
    ensures "0123456789" == Range('0', 10)
  {
  }

  lemma Letters()
    ensures "ABCDEFGHIJKLM" + "NOPQRSTUVWXYZ" == Range('A', 26)
    ensures "abcdefghijklm" + "nopqrstuvwxyz" == Range('a', 26)
  {
  }

  lemma Table()
    ensures LOOKUP == Range('A', 26) + Range('a', 26) + Range('0', 10) + "+/" && |LOOKUP| == 64
  {
    Letters();
    Digits();
    hide Range;
    assert LOOKUP == ("ABCDEFGHIJKLM" + "NOPQRSTUVWXYZ") + ("abcdefghijklm" + "nopqrstuvwxyz") + "0123456789" + "+/";
  }

  lemma Distinct(i: nat, j: nat)
    requires i < j < 64
    ensures |LOOKUP| == 64 && LOOKUP[i] != LOOKUP[j] && LOOKUP[i] != '=' && LOOKUP[j] != '='
  {
    Table();
    SymbolRange(i);
    SymbolRange(j);
  }

  lemma SymbolRange(i: nat)
    requires i < 64
    ensures |LOOKUP| == 64
    ensures LOOKUP[i] == if i < 26 then ('A' as int + i) as char else if i < 52 then ('a' as int + i - 26) as char
      else if i < 62 then ('0' as int + i - 52) as char else if i == 62 then '+' else '/'
  {
  }

  /** The first place of c at or after i, or 64. */
  function Find(c: char, i: nat): (p: nat)
    requires i <= |LOOKUP|
    ensures i <= p <= |LOOKUP| && (p < |LOOKUP| ==> LOOKUP[p] == c)
    decreases |LOOKUP| - i
  {
    if i == |LOOKUP| || LOOKUP[i] == c then i else Find(c, i + 1)
  }

  predicate InAlphabet(c: char) {
    Find(c, 0) < |LOOKUP|
  }

  /** The value of a character: its place in the alphabet, and 0 for padding. */
  function Sextet(c: char): (v: nat)
    ensures v < 64
  {
    Table();
    if InAlphabet(c) then Find(c, 0) else 0
  }

  lemma {:induction false} FindFrom(v: nat, i: nat)
    requires i <= v < 64 && |LOOKUP| == 64
    ensures Find(LOOKUP[v], i) == v
    decreases v - i
  {
    hide LOOKUP;
    if i < v {
      Distinct(i, v);
      FindFrom(v, i + 1);
    }
  }

  function Symbol(v: nat): (c: char)
    requires v < 64
  {
    Table();
    LOOKUP[v]
  }

  lemma SextetOfSymbol(v: nat)
    requires v < 64
    ensures InAlphabet(Symbol(v)) && Sextet(Symbol(v)) == v && Symbol(v) != '='
  {
    Table();
    FindFrom(v, 0);
    if v < 63 {
      Distinct(v, 63);
    } else {
      Distinct(0, 63);
    }
  }

  /** Three bytes as one number. */
  function Join(b0: u8, b1: u8, b2: u8): (t: nat)
    ensures t < 0x100_0000
  {
    b0 as nat * 0x1_0000 + b1 as nat * 0x100 + b2 as nat
  }

  /** 24 bits as four characters, the last `padding` of them replaced by '='. */
  function Quad(t: nat, padding: nat): (s: string)
    requires t < 0x100_0000
    ensures |s| == 4
  {
    [Symbol(t / 0x4_0000), Symbol(t / 0x1000 % 64),
     if padding < 2 then Symbol(t / 0x40 % 64) else '=', if padding < 1 then Symbol(t % 64) else '=']
  }

  function Encode(b: seq<u8>): (s: string)
    ensures |s| == 4 * ((|b| + 2) / 3)
  {
    if |b| == 0 then []
    else if |b| == 1 then Quad(Join(b[0], 0, 0), 2)
    else if |b| == 2 then Quad(Join(b[0], b[1], 0), 1)
    else
      assert (|b| + 2) / 3 == (|b| - 1) / 3 + 1;
      Quad(Join(b[0], b[1], b[2]), 0) + Encode(b[3..])
  }

  /** The 24 bits of four characters. */
  function Bits24(s: string): (t: nat)
    requires |s| == 4
    ensures t < 0x100_0000
  {
    Sextet(s[0]) * 0x4_0000 + Sextet(s[1]) * 0x1000 + Sextet(s[2]) * 0x40 + Sextet(s[3])
  }

  function ThreeBytes(t: nat): (b: seq<u8>)
    requires t < 0x100_0000
    ensures |b| == 3
  {
    [t / 0x1_0000, t / 0x100 % 256, t % 256]
  }

  /** Every group of four characters as three bytes. */
  function AllBytes(s: string): (b: seq<u8>)
    ensures |b| == 3 * (|s| / 4)
  {
    if |s| < 4 then []
    else
      assert |s| / 4 == (|s| - 4) / 4 + 1;
      ThreeBytes(Bits24(s[..4])) + AllBytes(s[4..])
  }

  /** The first x characters are characters of the alphabet followed by k padding characters. */
  ghost predicate PaddedTo(s: string, x: nat, k: nat)
  {
    && k <= x <= |s|
    && (forall i :: 0 <= i < x - k ==> s[i] != '=' && InAlphabet(s[i]))
    && (forall i :: x - k <= i < x ==> s[i] == '=')
  }

  ghost predicate PaddedBy(s: string, k: nat)
  {
    PaddedTo(s, |s|, k)
  }

  /** Well formed with k padding characters; the code lets three through. */
  ghost predicate WellFormed(s: string, k: nat)
  {
    |s| % 4 == 0 && k <= 3 && PaddedBy(s, k)
  }

  /** How many bytes a well-formed string stands for: a padded group always yields at least one. */
  function Size(len: nat, k: nat): (n: nat)
    requires k <= 3 && len % 4 == 0 && (k > 0 ==> len > 0)
  {
    3 * (len / 4) - if k < 2 then k else 2
  }

  function Decoded(s: string, k: nat): (b: seq<u8>)
    requires k <= 3 && |s| % 4 == 0 && (k > 0 ==> |s| > 0)
    ensures |b| == Size(|s|, k)
  {
    AllBytes(s)[..Size(|s|, k)]
  }

  /* ---- Round trip ---- */

  function Padding(len: nat): (k: nat)
    ensures k <= 2
  {
    (3 - len % 3) % 3
  }

  /** t has nothing in the bits that padding drops. */
  predicate Dropped(t: nat, padding: nat)
  {
    padding <= 2 && (padding >= 1 ==> t % 64 == 0) && (padding == 2 ==> t / 0x40 % 64 == 0)
  }

  lemma QuadDecodes(t: nat, padding: nat)
    requires t < 0x100_0000 && Dropped(t, padding)
    ensures Bits24(Quad(t, padding)) == t
  {
    hide Sextet, InAlphabet, Symbol;
    SextetOfSymbol(t / 0x4_0000);
    SextetOfSymbol(t / 0x1000 % 64);
    SextetOfSymbol(t / 0x40 % 64);
    SextetOfSymbol(t % 64);
    PaddingIsZero();
    Sextets(t);
  }

  lemma PaddingIsZero()
    ensures Sextet('=') == 0
  {
    Table();
    if InAlphabet('=') {
      var p := Find('=', 0);
      SextetOfSymbol(p);
    }
  }

  lemma Sextets(t: nat)
    ensures t / 0x4_0000 * 0x4_0000 + t / 0x1000 % 64 * 0x1000 + t / 0x40 % 64 * 0x40 + t % 64 == t
  {
    assert t / 0x40 / 0x40 == t / 0x1000 && t / 0x1000 / 0x40 == t / 0x4_0000;
  }

  lemma BytesOf24(b0: u8, b1: u8, b2: u8)
    ensures ThreeBytes(Join(b0, b1, b2)) == [b0, b1, b2]
  {
    SplitJoin(b0, b1, b2);
  }

  lemma SplitJoin(b0: nat, b1: nat, b2: nat)
    requires b0 < 256 && b1 < 256 && b2 < 256
    ensures var t := b0 * 0x1_0000 + b1 * 0x100 + b2;
      t / 0x1_0000 == b0 && t / 0x100 % 256 == b1 && t % 256 == b2
  {
    var t := b0 * 0x1_0000 + b1 * 0x100 + b2;
    DivModUnique(t, 0x1_0000, b0, b1 * 0x100 + b2);
    DivModUnique(t, 0x100, b0 * 0x100 + b1, b2);
    DivModUnique(b0 * 0x100 + b1, 0x100, b0, b1);
  }

  lemma JoinDrops(b0: nat, b1: nat, b2: nat)
    requires b0 < 256 && b1 < 256 && b2 < 256
    ensures b2 == 0 ==> Dropped(b0 * 0x1_0000 + b1 * 0x100 + b2, 1)
    ensures b1 == 0 && b2 == 0 ==> Dropped(b0 * 0x1_0000 + b1 * 0x100 + b2, 2)
  {
    if b2 == 0 {
      DivModUnique(b0 * 0x1_0000 + b1 * 0x100, 64, b0 * 0x400 + b1 * 4, 0);
      if b1 == 0 {
        DivModUnique(b0 * 0x400, 64, b0 * 16, 0);
      }
    }
  }

  lemma QuadShape(t: nat, padding: nat)
    requires t < 0x100_0000 && padding <= 2
    ensures PaddedBy(Quad(t, padding), padding)
  {
    hide Sextet, InAlphabet, Symbol;
    SextetOfSymbol(t / 0x4_0000);
    SextetOfSymbol(t / 0x1000 % 64);
    SextetOfSymbol(t / 0x40 % 64);
    SextetOfSymbol(t % 64);
  }

  /** One group and its bytes. */
  lemma GroupFirst(q: string, rest: string)
    requires |q| == 4
    ensures AllBytes(q + rest) == ThreeBytes(Bits24(q)) + AllBytes(rest)
  {
  }

  /** Every byte string comes back. */
  lemma {:induction false} DecodeEncode(b: seq<u8>)
    ensures WellFormed(Encode(b), Padding(|b|)) && (Padding(|b|) > 0 ==> |b| > 0)
    ensures Decoded(Encode(b), Padding(|b|)) == b
  {
    hide Quad, WellFormed, Decoded, Padding, Dropped, Size;
    if |b| == 0 {
      NoBytes();
    } else if |b| == 1 {
      TwoLeft();
      JoinDrops(b[0], 0, 0);
      LastQuad(b, Join(b[0], 0, 0), [b[0], 0, 0]);
    } else if |b| == 2 {
      TwoLeft();
      JoinDrops(b[0], b[1], 0);
      LastQuad(b, Join(b[0], b[1], 0), [b[0], b[1], 0]);
    } else {
      DecodeEncode(b[3..]);
      SamePadding(|b|);
      FullQuad(b, Encode(b[3..]), Padding(|b|));
    }
  }

  lemma NoBytes()
    ensures Padding(0) == 0 && WellFormed("", 0) && Decoded("", 0) == []
  {
  }

  lemma TwoLeft()
    ensures Padding(1) == 2 && Padding(2) == 1
  {
  }

  lemma LastQuad(b: seq<u8>, t: nat, filled: seq<u8>)
    requires 1 <= |b| <= 2 && |filled| == 3 && b == filled[..|b|] && t == Join(filled[0], filled[1], filled[2])
    requires Encode(b) == Quad(t, Padding(|b|)) && Dropped(t, Padding(|b|))
    ensures WellFormed(Encode(b), Padding(|b|)) && Decoded(Encode(b), Padding(|b|)) == b
  {
    hide Quad, Bits24, ThreeBytes, PaddedTo, Join, Encode, Dropped, Decoded;
    var k := Padding(|b|);
    assert k == 3 - |b|;
    hide Padding;
    QuadDecodes(t, k);
    QuadShape(t, k);
    BytesOf24(filled[0], filled[1], filled[2]);
    assert [filled[0], filled[1], filled[2]] == filled;
    OneGroup(Quad(t, k), k);
  }

  lemma OneGroup(q: string, k: nat)
    requires |q| == 4 && 1 <= k <= 2
    ensures Decoded(q, k) == ThreeBytes(Bits24(q))[..3 - k]
  {
    hide Bits24, ThreeBytes;
    assert q + [] == q;
    GroupFirst(q, []);
    assert AllBytes("") == [];
  }

  lemma FullQuad(b: seq<u8>, rest: string, k: nat)
    requires |b| >= 3 && WellFormed(rest, k) && (k > 0 ==> |rest| > 0) && Decoded(rest, k) == b[3..]
    ensures WellFormed(Quad(Join(b[0], b[1], b[2]), 0) + rest, k)
    ensures Decoded(Quad(Join(b[0], b[1], b[2]), 0) + rest, k) == b
  {
    var t := Join(b[0], b[1], b[2]);
    WholeQuad(t);
    WellFormedMore(Quad(t, 0), rest, k);
    hide Quad, Bits24, ThreeBytes, PaddedTo, Join, Decoded;
    BytesOf24(b[0], b[1], b[2]);
    DecodedMore(Quad(t, 0), rest, k);
    assert b == [b[0], b[1], b[2]] + b[3..];
  }

  lemma WholeQuad(t: nat)
    requires t < 0x100_0000
    ensures Bits24(Quad(t, 0)) == t && PaddedBy(Quad(t, 0), 0)
  {
    hide Quad, Bits24, PaddedTo;
    QuadDecodes(t, 0);
    QuadShape(t, 0);
  }

  lemma DecodedMore(q: string, rest: string, k: nat)
    requires |q| == 4 && |rest| % 4 == 0 && k <= 3 && (k > 0 ==> |rest| > 0)
    ensures Decoded(q + rest, k) == ThreeBytes(Bits24(q)) + Decoded(rest, k)
  {
  }

  lemma SamePadding(len: nat)
    requires len >= 3
    ensures Padding(len) == Padding(len - 3)
  {
  }

  lemma WellFormedMore(q: string, rest: string, k: nat)
    requires |q| == 4 && PaddedBy(q, 0) && WellFormed(rest, k)
    ensures WellFormed(q + rest, k)
  {
  }
}

/** wireguard_base64_encode and wireguard_base64_decode. */
module Base64 {
  import opened Words
  import opened Bits
  import opened Base64Spec

  /* ---- Encoding ---- */

  /** Byte i of the input, or 0 past its end. */
  function ByteOr0(b: seq<u8>, i: nat): (x: u8)
  {
    if i < |b| then b[i] else 0
  }

  /** Padding of group g. */
  function GroupPadding(b: seq<u8>, g: nat): (k: nat)
    requires 3 * g < |b|
    ensures k <= 2
  {
    if 3 * g + 3 <= |b| then 0 else 3 * g + 3 - |b|
  }

  function GroupQuad(b: seq<u8>, g: nat): (q: string)
    requires 3 * g < |b|
    ensures |q| == 4
  {
    Quad(Join(b[3 * g], ByteOr0(b, 3 * g + 1), ByteOr0(b, 3 * g + 2)), GroupPadding(b, g))
  }

  lemma {:induction false} EncodeGroup(b: seq<u8>, g: nat)
    requires 3 * g < |b|
    ensures 4 * g + 4 <= |Encode(b)| && Encode(b)[4 * g..4 * g + 4] == GroupQuad(b, g)
    decreases g
  {
    hide Quad, Join;
    if g > 0 {
      EncodeGroup(b[3..], g - 1);
      assert GroupQuad(b[3..], g - 1) == GroupQuad(b, g);
      assert Encode(b)[4..] == Encode(b[3..]);
      assert Encode(b)[4 * g..4 * g + 4] == Encode(b[3..])[4 * (g - 1)..4 * (g - 1) + 4];
    }
  }

  /** `(byte1 << 16) | (byte2 << 8) | byte3` */
  method Combine(b1: u8, b2: u8, b3: u8) returns (tmp: u32)
    ensures tmp as nat == Join(b1, b2, b3)
  {
    Pow2Values();
    hide Or, Pow2;
    OrComm(b1 as nat * 0x1_0000, b2 as nat * 0x100);
    OrDisjoint(b2 as nat * 0x100, b1, 16);
    OrComm(b1 as nat * 0x1_0000 + b2 as nat * 0x100, b3);
    OrDisjoint(b3, b1 as nat * 0x100 + b2 as nat, 8);
    HighBytes(b1, b2);
    tmp := Or(Or(b1 as nat * 0x1_0000, b2 as nat * 0x100), b3);
  }

  lemma HighBytes(b1: nat, b2: nat)
    ensures (b1 * 0x100 + b2) * 0x100 == b1 * 0x1_0000 + b2 * 0x100
  {
  }

  lemma {:induction false} OrComm(a: nat, b: nat)
    ensures Or(a, b) == Or(b, a)
    decreases a + b
  {
    if a > 0 && b > 0 {
      OrComm(a / 2, b / 2);
    }
  }

  /** `base64_lookup[x & 0x3F]` */
  function Pick(x: nat): (c: char)
    ensures c == Symbol(x % 64)
  {
    Table();
    LOOKUP[SixBits(x)]
  }

  /** `x & 0x3F` */
  function SixBits(x: nat): (b: u8)
    ensures b as nat == x % 64
  {
    Pow2Values();
    AndMask(x, 6);
    And(x, 0x3f)
  }

  /** Four characters of a group; the padding test compares offsets, as the source does. */
  method WriteQuad(out: array<char>, w: nat, tmp: u32, len: nat, padding: nat)
    requires w + 4 == len || w + 8 <= len
    requires len <= out.Length && tmp < 0x100_0000 && padding <= 2
    modifies out
    ensures out[..w] == old(out[..w]) && out[w + 4..] == old(out[w + 4..])
    ensures out[w..w + 4] == Quad(tmp, if w + 4 == len then padding else 0)
  {
    hide Pick, Symbol;
    out[w] := Pick(tmp / 0x4_0000);
    out[w + 1] := Pick(tmp / 0x1000);
    out[w + 2] := if w + 2 < len - padding then Pick(tmp / 0x40) else '=';
    out[w + 3] := if w + 3 < len - padding then Pick(tmp) else '=';
  }

  /** One turn of the encoding loop: three bytes, or the last one or two, become four characters. */
  method EncodeStep(input: seq<u8>, out: array<char>, read: nat, write: nat, len: nat, padding: nat, ghost g: nat) returns (read': nat)
    requires read == 3 * g < |input| && write == 4 * g && len == |Encode(input)| <= out.Length
    requires padding == PaddingOf(|input|)
    requires out[..write] == Encode(input)[..write]
    modifies out
    ensures read' == (if read + 3 < |input| then read + 3 else |input|) && write + 4 <= len
    ensures out[..write + 4] == Encode(input)[..write + 4] && out[len..] == old(out[len..])
  {
    hide Encode, Quad, Join, GroupQuad, PaddingOf;
    Groups(|input|, g, padding);
    EncodeGroup(input, g);
    ghost var tail := out[write + 4..];
    var byte1, byte2, byte3;
    byte1, byte2, byte3, read' := NextThree(input, read);
    GroupIs(input, g, byte1, byte2, byte3, if write + 4 == len then padding else 0);
    var tmp := Combine(byte1, byte2, byte3);
    WriteQuad(out, write, tmp, len, padding);
    assert out[len..] == tail[len - (write + 4)..];
    TwoSlices(out[..], Encode(input), write);
  }

  lemma GroupIs(b: seq<u8>, g: nat, byte1: u8, byte2: u8, byte3: u8, padding: nat)
    requires 3 * g < |b| && byte1 == b[3 * g] && byte2 == (if 3 * g + 1 < |b| then b[3 * g + 1] else 0)
    requires byte3 == if 3 * g + 2 < |b| then b[3 * g + 2] else 0
    requires padding == if 3 * g + 3 <= |b| then 0 else 3 * g + 3 - |b|
    ensures GroupQuad(b, g) == Quad(Join(byte1, byte2, byte3), padding)
  {
    hide Quad, Join;
  }

  lemma TwoSlices(a: string, b: string, w: nat)
    requires w + 4 <= |a| && w + 4 <= |b| && a[..w] == b[..w] && a[w..w + 4] == b[w..w + 4]
    ensures a[..w + 4] == b[..w + 4]
  {
    assert a[..w + 4] == a[..w] + a[w..w + 4] && b[..w + 4] == b[..w] + b[w..w + 4];
  }

  /** wireguard_base64_encode: succeeds when there is room for the text and its terminator. */
  method EncodeInto(input: seq<u8>, out: array<char>, outLen: nat) returns (result: bool, outLen': nat)
    requires |input| < 0x6000_0000 && outLen <= out.Length
    modifies out
    ensures result <==> outLen > |Encode(input)|
    ensures result ==> outLen' == |Encode(input)|
    ensures result ==> out[..outLen'] == Encode(input) && out[outLen'] == '\0'
    ensures result ==> out[outLen' + 1..] == old(out[outLen' + 1..])
    ensures !result ==> outLen' == outLen && out[..] == old(out[..])
  {
    hide Encode, Quad, Join;
    var read, write := 0, 0;
    var len := 4 * ((|input| + 2) / 3);
    var padding := 3 - |input| % 3;
    if padding > 2 {
      padding := 0;
    }
    result, outLen' := false, outLen;
    if outLen > len {
      ghost var g := 0;
      assert |Encode(input)| == len;
      while read < |input|
        invariant write == 4 * g <= len && read == (if 3 * g < |input| then 3 * g else |input|) && 3 * g < |input| + 3
        invariant out[..write] == Encode(input)[..write]
        invariant out[len + 1..] == old(out[len + 1..])
        decreases |input| - read
      {
        read := EncodeStep(input, out, read, write, len, padding, g);
        g := g + 1;
        write := write + 4;
      }
      LastGroup(|input|, g);
      out[len] := '\0';
      outLen' := len;
      result := true;
    }
  }

  /** The next three bytes, with zeros past the end. */
  method NextThree(input: seq<u8>, read: nat) returns (byte1: u8, byte2: u8, byte3: u8, read': nat)
    requires read < |input|
    ensures read' == if read + 3 <= |input| then read + 3 else |input|
    ensures byte1 == input[read] && byte2 == (if read + 1 < |input| then input[read + 1] else 0)
    ensures byte3 == if read + 2 < |input| then input[read + 2] else 0
  {
    read' := read;
    byte1, byte2, byte3 := input[read'], 0, 0;
    read' := read' + 1;
    if read' < |input| {
      byte2 := input[read'];
      read' := read' + 1;
    }
    if read' < |input| {
      byte3 := input[read'];
      read' := read' + 1;
    }
  }

  /** `padding` of wireguard_base64_encode. */
  function PaddingOf(n: nat): (padding: nat)
  {
    if 3 - n % 3 > 2 then 0 else 3 - n % 3
  }

  lemma Groups(n: nat, g: nat, padding: nat)
    requires 3 * g < n && padding == PaddingOf(n)
    ensures 4 * g + 4 == 4 * ((n + 2) / 3) || 4 * g + 8 <= 4 * ((n + 2) / 3)
    ensures padding <= 2
    ensures (if 4 * g + 4 == 4 * ((n + 2) / 3) then padding else 0) == if 3 * g + 3 <= n then 0 else 3 * g + 3 - n
  {
  }

  lemma LastGroup(n: nat, g: nat)
    requires n <= 3 * g < n + 3
    ensures 4 * g == 4 * ((n + 2) / 3)
  {
  }

  /* ---- Decoding ---- */

  /** Trailing padding characters. */
  function PadCount(s: string): (k: nat)
    ensures k <= |s|
  {
    if |s| > 0 && s[|s| - 1] == '=' then 1 + PadCount(s[..|s| - 1]) else 0
  }

  lemma {:induction false} PadCountUnique(s: string, k: nat)
    requires PaddedBy(s, k)
    ensures k == PadCount(s)
  {
    if k > 0 {
      PadCountUnique(s[..|s| - 1], k - 1);
    }
  }

  /** The text is well formed and its bytes pass the size check. */
  ghost predicate Accepted(s: string, outLen: nat)
  {
    WellFormed(s, PadCount(s)) && (|s| > 0 ==> 3 * (|s| / 4) - PadCount(s) <= outLen)
  }

  /** The characters of s from a to x as one base-64 number. */
  function Accum(s: string, a: nat, x: nat): (t: nat)
    requires a <= x <= |s|
  {
    if x == a then 0 else Accum(s, a, x - 1) * 64 + Sextet(s[x - 1])
  }

  lemma AccumBound(s: string, a: nat, x: nat)
    requires a <= x <= |s| && x < a + 4
    ensures Accum(s, a, x) < 0x4_0000
  {
    hide Sextet;
    assert x > a ==> Accum(s, a, a + 1) == Sextet(s[a]);
    assert x > a + 1 ==> Accum(s, a, a + 2) < 0x1000;
  }

  lemma AccumFour(s: string, a: nat)
    requires a + 4 <= |s|
    ensures Accum(s, a, a + 4) == Bits24(s[a..a + 4])
  {
    hide Sextet;
    var x1, x2, x3 := Accum(s, a, a + 1), Accum(s, a, a + 2), Accum(s, a, a + 3);
    assert Accum(s, a, a) == 0;
    assert x1 == Sextet(s[a]) && x2 == x1 * 64 + Sextet(s[a + 1]) && x3 == x2 * 64 + Sextet(s[a + 2]);
  }

  /** strchr(base64_lookup, c): the place of c, or 64. */
  method Strchr(c: char) returns (p: nat)
    ensures p == Find(c, 0)
  {
    Table();
    hide LOOKUP;
    p := 0;
    while p < |LOOKUP| && LOOKUP[p] != c
      invariant p <= |LOOKUP| && Find(c, p) == Find(c, 0)
    {
      p := p + 1;
    }
  }

  /** A fourth padding character, a character after padding, or one that is neither. */
  lemma Refused(s: string, x: nat, k: nat)
    requires x < |s| && k <= 3 && PaddedTo(s, x, k)
    requires if s[x] == '=' then k == 3 else k > 0 || !InAlphabet(s[x])
    ensures forall y, j :: x < y && j <= 3 ==> !PaddedTo(s, y, j)
  {
    hide InAlphabet;
    var first, last := s[x - k], if k > 0 then s[x - 1] else s[x];
    assert k > 0 ==> first == '=' && last == '=';
  }

  lemma OneMorePad(s: string, x: nat, k: nat)
    requires x < |s| && PaddedTo(s, x, k) && s[x] == '='
    ensures PaddedTo(s, x + 1, k + 1)
  {
  }

  lemma OneMoreSymbol(s: string, x: nat)
    requires x < |s| && PaddedTo(s, x, 0) && s[x] != '=' && InAlphabet(s[x])
    ensures PaddedTo(s, x + 1, 0)
  {
  }

  /** What one character does to the six bits and the byte count, or a refusal. */
  method Classify(s: string, x: nat, byteCount: int) returns (ok: bool, bits: u8, byteCount': int)
    requires x < |s| && 0 <= byteCount <= 3 && PaddedTo(s, x, 3 - byteCount)
    ensures ok ==> 0 <= byteCount' <= 3 && PaddedTo(s, x + 1, 3 - byteCount') && bits as nat == Sextet(s[x])
    ensures !ok ==> forall y, j :: x < y && j <= 3 ==> !PaddedTo(s, y, j)
  {
    Table();
    hide LOOKUP, Find, PadCount, PaddedTo;
    ok, bits, byteCount' := true, 0, byteCount;
    if s[x] == '=' {
      byteCount' := byteCount - 1;
      if byteCount' < 0 {
        Refused(s, x, 3);
        ok := false;
      } else {
        PaddingIsZero();
        OneMorePad(s, x, 3 - byteCount);
      }
    } else if byteCount != 3 {
      Refused(s, x, 3 - byteCount);
      ok := false;
    } else {
      var p := Strchr(s[x]);
      if p < 64 {
        OneMoreSymbol(s, x);
        bits := SixBits(p);
      } else {
        Refused(s, x, 0);
        ok := false;
      }
    }
  }

  /** The bytes of a complete group: one always, the others unless padded away. */
  method StoreGroup(out: array<u8>, len: nat, accum: u32, byteCount: int) returns (len': nat)
    requires accum < 0x100_0000 && 0 <= byteCount <= 3
    requires len + (if byteCount == 0 then 1 else byteCount) <= out.Length
    modifies out
    ensures len' == len + (if byteCount == 0 then 1 else byteCount)
    ensures out[..len'] == old(out[..len]) + ThreeBytes(accum)[..len' - len] && out[len'..] == old(out[len'..])
  {
    var bytes := [accum / 0x1_0000 % 256, accum / 0x100 % 256, accum % 256];
    assert bytes == ThreeBytes(accum);
    hide ThreeBytes;
    ghost var head := out[..len];
    len' := len;
    out[len'] := bytes[0];
    len' := len' + 1;
    if byteCount > 1 {
      out[len'] := bytes[1];
      len' := len' + 1;
    }
    if byteCount > 2 {
      out[len'] := bytes[2];
      len' := len' + 1;
    }
    assert out[..len] == head;
    assert out[len..len'] == bytes[..len' - len];
  }

  /** Padding that lies in complete groups after x characters. */
  function EarlierPadding(x: nat, k: nat): (k0: nat)
    ensures k0 <= k
  {
    if k > x % 4 then k - x % 4 else 0
  }

  /** How far decoding has come after x characters with k of them padding. */
  ghost predicate Decoding(s: string, x: nat, k: nat, accum: nat, out: seq<u8>, outLen: nat)
  {
    var g, k0 := x / 4, EarlierPadding(x, k);
    && 4 * g <= x <= |s| && k <= 3 && PaddedTo(s, x, k)
    && accum == Accum(s, 4 * g, x)
    && (g == 0 ==> k0 == 0)
    && (g > 0 ==> 3 * g - k0 <= outLen)
    && (assert 4 * g / 4 == g && 4 * g % 4 == 0; out == Decoded(s[..4 * g], k0))
  }

  lemma DecodingStart(s: string, outLen: nat)
    ensures Decoding(s, 0, 0, 0, [], outLen)
  {
  }

  lemma PadStep(s: string, x: nat, k: nat, k': nat)
    requires x < |s| && PaddedTo(s, x, k) && PaddedTo(s, x + 1, k')
    ensures k' == (if s[x] == '=' then k + 1 else 0) && (s[x] != '=' ==> k == 0)
  {
    hide InAlphabet;
    if k > 0 {
      assert s[x - 1] == '=' && s[x - k] == '=';
    }
    if k' > 1 {
      assert s[x + 1 - k'] == '=';
    }
    assert k < x ==> s[x - k - 1] != '=';
    assert k' < x + 1 ==> s[x - k'] != '=';
  }

  lemma DecodingChar(s: string, x: nat, k: nat, accum: nat, out: seq<u8>, outLen: nat, k': nat)
    requires Decoding(s, x, k, accum, out, outLen) && x < |s| && x % 4 != 3 && PaddedTo(s, x + 1, k') && k' <= 3
    ensures Decoding(s, x + 1, k', accum * 64 + Sextet(s[x]), out, outLen)
  {
    PadStep(s, x, k, k');
    hide PaddedTo, Decoded, Sextet;
    assert (x + 1) / 4 == x / 4;
    assert EarlierPadding(x + 1, k') == EarlierPadding(x, k);
  }

  lemma {:induction false} AllBytesPush(s: string, q: string)
    requires |s| % 4 == 0 && |q| == 4
    ensures AllBytes(s + q) == AllBytes(s) + ThreeBytes(Bits24(q))
  {
    hide Bits24, ThreeBytes;
    if |s| == 0 {
      assert s + q == q + [];
      GroupFirst(q, []);
    } else {
      AllBytesPush(s[4..], q);
      GroupFirst(s[..4], s[4..]);
      GroupFirst(s[..4], s[4..] + q);
      assert s == s[..4] + s[4..] && s + q == s[..4] + (s[4..] + q);
      assert ThreeBytes(Bits24(s[..4])) + AllBytes(s[4..]) + ThreeBytes(Bits24(q))
          == ThreeBytes(Bits24(s[..4])) + (AllBytes(s[4..]) + ThreeBytes(Bits24(q)));
    }
  }

  /** The bytes a padded group adds. */
  function GroupSize(k: nat): (n: nat)
    requires k <= 3
    ensures 1 <= n <= 3
  {
    if k == 3 then 1 else 3 - k
  }

  /** x is the last character of group g, counted from 0. */
  predicate LastOf(x: nat, g: nat)
  {
    x == 4 * g + 3
  }

  lemma DecodingGroup(s: string, x: nat, g: nat, k: nat, accum: nat, out: seq<u8>, outLen: nat, k': nat)
    requires LastOf(x, g) && Decoding(s, x, k, accum, out, outLen) && x < |s| && PaddedTo(s, x + 1, k') && k' <= 3
    requires |out| + 3 - k' <= outLen
    ensures |out| == 3 * g && accum * 64 + Sextet(s[x]) == Bits24(s[x - 3..x + 1])
    ensures Decoding(s, x + 1, k', 0, out + ThreeBytes(Bits24(s[x - 3..x + 1]))[..GroupSize(k')], outLen)
  {
    hide Decoding, PaddedTo, Sextet, Bits24, ThreeBytes, Decoded, AllBytes;
    GroupComplete(s, x, g, k, accum, out, outLen);
    assert s[..x + 1] == s[..4 * g] + s[x - 3..x + 1];
    DecodedPush(s[..4 * g], s[x - 3..x + 1], k', out);
    WholeGroups(s, g + 1, k', out + ThreeBytes(Bits24(s[x - 3..x + 1]))[..GroupSize(k')], outLen);
  }

  lemma WholeGroups(s: string, g: nat, k: nat, out: seq<u8>, outLen: nat)
    requires 0 < 4 * g <= |s| && k <= 3 && PaddedTo(s, 4 * g, k) && 3 * g - k <= outLen && |s[..4 * g]| % 4 == 0
    requires out == Decoded(s[..4 * g], k)
    ensures Decoding(s, 4 * g, k, 0, out, outLen)
  {
    GroupPlaces(4 * g, g, k);
    hide PaddedTo, Decoded;
  }

  lemma GroupPlaces(x: nat, g: nat, k: nat)
    requires x == 4 * g && k <= 3
    ensures x / 4 == g && EarlierPadding(x, k) == k
  {
  }

  lemma DecodedPush(p: string, q: string, k: nat, out: seq<u8>)
    requires |p| % 4 == 0 && |q| == 4 && |p + q| % 4 == 0 && k <= 3 && out == AllBytes(p)
    ensures Decoded(p + q, k) == out + ThreeBytes(Bits24(q))[..GroupSize(k)]
  {
    hide Bits24, ThreeBytes;
    AllBytesPush(p, q);
  }

  /** Before the last character of a group, no padding lies in earlier groups. */
  lemma GroupComplete(s: string, x: nat, g: nat, k: nat, accum: nat, out: seq<u8>, outLen: nat)
    requires LastOf(x, g) && Decoding(s, x, k, accum, out, outLen) && x < |s|
    ensures |out| == 3 * g && out == AllBytes(s[..4 * g]) && |s[..4 * g]| % 4 == 0
    ensures accum * 64 + Sextet(s[x]) == Bits24(s[x - 3..x + 1])
  {
    hide PaddedTo, Sextet, Bits24, AllBytes;
    LastPlaces(x, g, k);
    AccumFour(s, x - 3);
  }

  lemma LastPlaces(x: nat, g: nat, k: nat)
    requires LastOf(x, g)
    ensures x / 4 == g && 4 * g % 4 == 0 && 4 * g / 4 == g && (k <= 3 ==> EarlierPadding(x, k) == 0)
  {
  }

  lemma DecodingOverflow(s: string, x: nat, g: nat, k: nat, accum: nat, out: seq<u8>, outLen: nat, k': nat)
    requires LastOf(x, g) && Decoding(s, x, k, accum, out, outLen) && x < |s| && PaddedTo(s, x + 1, k') && k' <= 3
    requires |out| + 3 - k' > outLen
    ensures !Accepted(s, outLen)
  {
    GroupComplete(s, x, g, k, accum, out, outLen);
    if |s| == x + 1 {
      PadCountUnique(s, k');
    }
    hide Decoding, PadCount, Sextet, Bits24, AllBytes, PaddedTo;
    TooLong(|s|, x, g, PadCount(s), k', outLen);
  }

  lemma TooLong(len: nat, x: nat, g: nat, j: nat, k: nat, outLen: nat)
    requires x < len && LastOf(x, g) && 3 * g + 3 - k > outLen && (len == x + 1 ==> j == k)
    ensures len % 4 == 0 && j <= 3 ==> 3 * (len / 4) - j > outLen
  {
  }

  lemma DecodingEnd(s: string, k: nat, accum: nat, out: seq<u8>, outLen: nat)
    requires Decoding(s, |s|, k, accum, out, outLen)
    ensures Accepted(s, outLen) <==> |s| % 4 == 0
    ensures |s| % 4 == 0 ==> k == PadCount(s) && (k > 0 ==> |s| > 0) && out == Decoded(s, k)
  {
    PadCountUnique(s, k);
    if |s| % 4 == 0 {
      DecodingWhole(s, k, accum, out, outLen);
    }
    hide Decoding, PaddedTo, PadCount, Decoded;
  }

  lemma DecodingWhole(s: string, k: nat, accum: nat, out: seq<u8>, outLen: nat)
    requires Decoding(s, |s|, k, accum, out, outLen) && |s| % 4 == 0
    ensures k <= 3 && (k > 0 ==> |s| > 0) && out == Decoded(s, k) && PaddedBy(s, k)
    ensures |s| > 0 ==> 3 * (|s| / 4) - k <= outLen
  {
    WholeLength(|s|, k);
    hide PaddedTo, Decoded, Accum, EarlierPadding;
    assert s[..|s|] == s;
  }

  lemma WholeLength(len: nat, k: nat)
    requires len % 4 == 0
    ensures 4 * (len / 4) == len && EarlierPadding(len, k) == k
  {
  }

  /** Where the group lies that fills up a buffer of outLen bytes and one more. */
  function SpillEnd(outLen: nat): (x: nat)
    ensures x % 4 == 0 && x > 0
  {
    4 * (outLen / 3) + 4
  }

  /** Full groups for all of outLen, and then one with three padding characters. */
  ghost predicate Spills(s: string, outLen: nat)
  {
    outLen % 3 == 0 && PaddedTo(s, SpillEnd(outLen), 3)
  }

  /** The byte that the size check does not count has been stored after x characters. */
  ghost predicate Spilled(s: string, outLen: nat, x: nat)
  {
    Spills(s, outLen) && SpillEnd(outLen) <= x
  }

  lemma SpilledNow(s: string, x: nat, g: nat, k: nat, outLen: nat)
    requires x < |s| && LastOf(x, g) && PaddedTo(s, x + 1, k) && k <= 3
    ensures Spilled(s, outLen, x + 1) <==> k == 3 && 3 * g == outLen
    ensures Spilled(s, outLen, x + 1) ==> !Spilled(s, outLen, x)
  {
    hide InAlphabet;
    var y := SpillEnd(outLen);
    if Spills(s, outLen) && y <= x + 1 {
      assert s[y - 3] == '=' && s[y - 1] == '=';
      assert y < x + 1 ==> x + 1 - k > y - 1;
    }
  }

  lemma SpillsLater(s: string, x: nat, g: nat, k: nat, outLen: nat)
    requires x < |s| && LastOf(x, g) && PaddedTo(s, x + 1, k) && k <= 3 && 3 * g + 3 - k > outLen
    ensures Spills(s, outLen) ==> SpillEnd(outLen) <= x
  {
    hide InAlphabet;
    var y := SpillEnd(outLen);
    var last, first := s[x], if y <= |s| then s[y - 3] else s[x];
    assert k > 0 ==> last == '=';
  }

  /** The size check and the stores after every fourth character. */
  method CompleteGroup(str: string, x: nat, out: array<u8>, len: nat, accum: u32, byteCount: int, outLen: nat,
                       ghost g: nat, ghost k: nat, ghost accum0: nat) returns (fits: bool, len': nat)
    requires outLen <= out.Length && (Spills(str, outLen) ==> outLen < out.Length)
    requires len <= out.Length && len <= outLen + 1 && (len > outLen <==> Spilled(str, outLen, x))
    requires x < |str| && LastOf(x, g) && 0 <= byteCount <= 3 && PaddedTo(str, x + 1, 3 - byteCount)
    requires Decoding(str, x, k, accum0, out[..len], outLen) && accum as nat == accum0 * 64 + Sextet(str[x])
    modifies out
    ensures len <= len' <= out.Length && forall j :: len' <= j < out.Length ==> out[j] == old(out[j])
    ensures len' <= outLen + 1 && (len' > outLen <==> if fits then Spilled(str, outLen, x + 1) else Spills(str, outLen))
    ensures if fits then Decoding(str, x + 1, 3 - byteCount, 0, out[..len'], outLen) else !Accepted(str, outLen)
  {
    hide Accepted, Decoding, Decoded, Sextet, PaddedTo, ThreeBytes, Bits24, AllBytes, Spills, SpillEnd, LastOf;
    ghost var done := out[..len];
    GroupComplete(str, x, g, k, accum0, done, outLen);
    SpilledNow(str, x, g, 3 - byteCount, outLen);
    fits, len' := false, len;
    if len + byteCount > outLen {
      SpillsLater(str, x, g, 3 - byteCount, outLen);
      DecodingOverflow(str, x, g, k, accum0, done, outLen, 3 - byteCount);
    } else {
      DecodingGroup(str, x, g, k, accum0, done, outLen, 3 - byteCount);
      ghost var tail := out[len..];
      len' := StoreGroup(out, len, accum, byteCount);
      fits := true;
      assert out[len'..] == tail[len' - len..];
    }
  }

  /** wireguard_base64_decode. A group with three padding characters stores a byte that the size check
      does not count: it lands behind the stated size exactly when the groups before have filled that. */
  method DecodeInto(str: string, out: array<u8>, outLen: nat) returns (result: bool, outLen': nat)
    requires |str| < 0x8000_0000 && outLen <= out.Length && (Spills(str, outLen) ==> outLen < out.Length)
    modifies out
    ensures result <==> Accepted(str, outLen)
    ensures result ==> outLen' == Size(|str|, PadCount(str)) && out[..outLen'] == Decoded(str, PadCount(str))
    ensures outLen' <= out.Length && out[outLen'..] == old(out[outLen'..])
    ensures if Spills(str, outLen) then outLen' == outLen + 1 else outLen' <= outLen
  {
    hide Accepted, Decoding, Decoded, Sextet, PaddedTo, PadCount, WellFormed, ThreeBytes, Spills;
    var accum: u32, charCount: u8, byteCount: int, len: nat := 0, 0, 3, 0;
    result := true;
    DecodingStart(str, outLen);
    PaddedNothing(str, outLen);
    assert out[..0] == [];
    for x := 0 to |str|
      invariant charCount as nat == x % 4 && 0 <= byteCount <= 3 && len <= out.Length
      invariant len <= outLen + 1 && (len > outLen <==> Spilled(str, outLen, x))
      invariant PaddedTo(str, x, 3 - byteCount) && Decoding(str, x, 3 - byteCount, accum, out[..len], outLen)
      invariant forall j :: len <= j < out.Length ==> out[j] == old(out[j])
    {
      ghost var k, accum0 := 3 - byteCount, accum;
      var ok, bits;
      ok, bits, byteCount := Classify(str, x, byteCount);
      if !ok {
        NotWellFormed(str, x, outLen);
        result := false;
        break;
      }
      DecodingAccum(str, x, k, accum, out[..len], outLen);
      accum := Append6(accum, bits);
      charCount := charCount + 1;
      if charCount == 4 {
        var fits;
        assert LastOf(x, x / 4);
        fits, len := CompleteGroup(str, x, out, len, accum, byteCount, outLen, x / 4, k, accum0);
        if !fits {
          result := false;
          break;
        }
        charCount := 0;
        accum := 0;
      } else {
        DecodingChar(str, x, k, accum0, out[..len], outLen, 3 - byteCount);
      }
    }
    if result {
      DecodingEnd(str, 3 - byteCount, accum, out[..len], outLen);
      SpillFits(str, outLen);
    }
    if charCount != 0 {
      result := false;
    }
    outLen' := len;
  }

  lemma PaddedNothing(s: string, outLen: nat)
    ensures PaddedTo(s, 0, 0) && !Spilled(s, outLen, 0)
  {
  }

  /** A refused character ends all well-formedness beyond it. */
  lemma NotWellFormed(s: string, x: nat, outLen: nat)
    requires x < |s| && forall y, j :: x < y && j <= 3 ==> !PaddedTo(s, y, j)
    ensures !Accepted(s, outLen) && (Spills(s, outLen) ==> Spilled(s, outLen, x))
  {
    hide PaddedTo, PadCount;
  }

  lemma SpillFits(s: string, outLen: nat)
    ensures Spills(s, outLen) ==> Spilled(s, outLen, |s|)
  {
  }

  /** The shortest such text: one byte is stored where none was allowed for. */
  lemma SpillsFromNothing()
    ensures Spills("A===", 0) && Accepted("A===", 0) && Size(4, PadCount("A===")) == 1
  {
    Table();
    assert InAlphabet('A');
    PadCountUnique("A===", 3);
  }

  /** Text that encodes bytes never spills. */
  lemma EncodedNeverSpills(b: seq<u8>, outLen: nat)
    ensures !Spills(Encode(b), outLen)
  {
    DecodeEncode(b);
    hide Encode, Decoded, InAlphabet;
    var s, y := Encode(b), SpillEnd(outLen);
    var first, last := if y <= |s| then s[y - 3] else 'A', if y <= |s| then s[y - 1] else 'A';
  }

  lemma DecodingAccum(s: string, x: nat, k: nat, accum: nat, out: seq<u8>, outLen: nat)
    requires Decoding(s, x, k, accum, out, outLen)
    ensures accum < 0x4_0000
  {
    hide PaddedTo, Decoded;
    AccumBound(s, 4 * (x / 4), x);
  }

  /** `(accum << 6) | bits` */
  function Append6(accum: u32, bits: u8): (r: u32)
    requires accum < 0x4_0000 && bits < 64
    ensures r as nat == accum as nat * 64 + bits as nat < 0x100_0000
  {
    Pow2Values();
    OrComm(accum as nat * 64, bits);
    OrDisjoint(bits, accum, 6);
    Or(accum as nat * 64, bits)
  }

  /** Encoded text is accepted exactly when the buffer has room; what it then decodes to is
      DecodeEncode's matter. */
  lemma EncodedIsAccepted(b: seq<u8>, outLen: nat)
    ensures Accepted(Encode(b), outLen) <==> |b| <= outLen
    ensures PadCount(Encode(b)) == Padding(|b|)
  {
    hide Encode, Decoded, PadCount, PaddedTo;
    DecodeEncode(b);
    PadCountUnique(Encode(b), Padding(|b|));
    EncodedSize(|b|);
  }

  lemma EncodedSize(n: nat)
    ensures 3 * ((n + 2) / 3) - Padding(n) == n
  {
  }

  /** A key as the importer wants it, 43 characters of the alphabet and one '=', decodes to
      exactly 32 bytes, into any buffer of at least 32. */
  lemma KeyStringIs32Bytes(s: string, outLen: nat)
    requires |s| == 44 && PaddedBy(s, 1)
    ensures PadCount(s) == 1 && |Decoded(s, 1)| == 32
    ensures Accepted(s, outLen) <==> 32 <= outLen
  {
  }
}
