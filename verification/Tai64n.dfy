/** wireguard_tai64n_now: the timestamp that handshake initiations carry. */
module Tai64n {
  import opened Words
  import opened Bits
  import opened Bytes

  const EPOCH: nat := 0x4000_0000_0000_000a

  /** The `len` low-order bytes of n, most significant first. */
  function ToBe(n: nat, len: nat): (s: seq<u8>)
    ensures |s| == len
  {
    if len == 0 then [] else ToBe(n / 256, len - 1) + [n % 256]
  }

  /** memcmp(a, b, len) as its sign. */
  function Compare(a: seq<u8>, b: seq<u8>): (r: int)
    requires |a| == |b|
    ensures -1 <= r <= 1
  {
    if |a| == 0 then 0
    else if a[0] < b[0] then -1
    else if a[0] > b[0] then 1
    else Compare(a[1..], b[1..])
  }

  function Sign(x: int): (s: int) {
    if x < 0 then -1 else if x > 0 then 1 else 0
  }

  /** The milliseconds of a `struct timeval`. */
  function Millis(sec: nat, usec: nat): (m: nat) {
    sec * 1000 + usec / 1000
  }

  /** The twelve bytes: seconds since 1970 offset by the TAI epoch, then the milliseconds of the
      second times 1000 (the field is named nanos). */
  function Stamp(millis: nat): (t: seq<u8>)
    ensures |t| == 12
  {
    ToBe(EPOCH + millis / 1000, 8) + ToBe(millis % 1000 * 1000, 4)
  }

  /** U64TO8_BIG or U32TO8_BIG, from the last byte back. */
  method StoreBig(p: array<u8>, off: nat, v: nat, len: nat)
    requires off + len <= p.Length
    modifies p
    ensures p[..] == Splice(old(p[..]), off, ToBe(v, len))
  {
    hide ToBe, Splice;
    ghost var before, w := p[..], ToBe(v, len);
    var rest := v;
    for i := 0 to len
      invariant forall k {:trigger p[k]} :: 0 <= k < p.Length && !(off + len - i <= k < off + len) ==> p[k] == before[k]
      invariant forall k {:trigger p[k]} :: off + len - i <= k < off + len ==> p[k] == w[k - off]
      invariant w[..len - i] == ToBe(rest, len - i)
    {
      BeLast(rest, len - i);
      p[off + len - 1 - i] := LowByte(rest);
      assert w[len - 1 - i] == w[..len - i][len - 1 - i];
      assert w[..len - 1 - i] == w[..len - i][..len - i - 1];
      rest := rest / 256;
    }
    IsSplice(before, p[..], off, w);
  }

  lemma BeLast(n: nat, len: nat)
    requires len > 0
    ensures ToBe(n, len)[len - 1] == n % 256 && ToBe(n, len)[..len - 1] == ToBe(n / 256, len - 1)
  {
  }

  /** wireguard_tai64n_now, for the clock reading (sec, usec). */
  method Now(output: array<u8>, sec: nat, usec: nat)
    requires output.Length >= 12 && usec < 1_000_000 && Millis(sec, usec) < W64
    modifies output
    ensures output[..] == Splice(old(output[..]), 0, Stamp(Millis(sec, usec)))
  {
    hide ToBe, Splice;
    var millis: u64 := sec * 1000 + usec / 1000;
    var seconds: u64 := EPOCH + millis / 1000;
    var nanos: u32 := millis % 1000 * 1000;
    StoreBig(output, 0, seconds, 8);
    StoreBig(output, 8, nanos, 4);
    SpliceTwice(old(output[..]), 0, ToBe(seconds, 8), ToBe(nanos, 4));
  }

  lemma {:induction false} CompareConcat(a: seq<u8>, b: seq<u8>, c: seq<u8>, d: seq<u8>)
    requires |a| == |b| && |c| == |d|
    ensures Compare(a + c, b + d) == if Compare(a, b) != 0 then Compare(a, b) else Compare(c, d)
  {
    if |a| == 0 {
      assert a + c == c && b + d == d;
    } else {
      CompareConcat(a[1..], b[1..], c, d);
      assert (a + c)[1..] == a[1..] + c && (b + d)[1..] == b[1..] + d;
    }
  }

  /** Big-endian strings compare as the numbers they hold. */
  lemma {:induction false} CompareBe(m: nat, n: nat, len: nat)
    requires m < Pow2(8 * len) && n < Pow2(8 * len)
    ensures Compare(ToBe(m, len), ToBe(n, len)) == Sign(m - n)
  {
    if len > 0 {
      Pow2Byte(len - 1);
      CompareBe(m / 256, n / 256, len - 1);
      CompareConcat(ToBe(m / 256, len - 1), ToBe(n / 256, len - 1), [m % 256], [n % 256]);
      LastByte(m % 256, n % 256);
      Digits(m, n);
    }
  }

  lemma LastByte(x: u8, y: u8)
    ensures Compare([x], [y]) == Sign(x as int - y as int)
  {
  }

  lemma Digits(m: nat, n: nat)
    ensures Sign(m - n) == if Sign(m / 256 - n / 256) != 0 then Sign(m / 256 - n / 256) else Sign(m % 256 - n % 256)
  {
  }

  /** The order of the bytes is the order of the clock, to the millisecond. */
  lemma StampOrder(m: nat, n: nat)
    requires m < W64 && n < W64
    ensures Compare(Stamp(m), Stamp(n)) == Sign(m - n)
  {
    Pow2Values();
    hide ToBe, Pow2;
    CompareBe(EPOCH + m / 1000, EPOCH + n / 1000, 8);
    CompareBe(m % 1000 * 1000, n % 1000 * 1000, 4);
    CompareConcat(ToBe(EPOCH + m / 1000, 8), ToBe(EPOCH + n / 1000, 8), ToBe(m % 1000 * 1000, 4), ToBe(n % 1000 * 1000, 4));
    SecondsFirst(m, n);
  }

  lemma SecondsFirst(m: nat, n: nat)
    ensures Sign(m - n) == if Sign((EPOCH + m / 1000) - (EPOCH + n / 1000)) != 0 then Sign((EPOCH + m / 1000) - (EPOCH + n / 1000))
      else Sign(m % 1000 * 1000 - n % 1000 * 1000)
  {
  }
}
