/** wireguard_check_replay: the sliding window of Appendix C of RFC 2401. */
module Replay {
  import opened Words
  import opened Bits

  /** replay_bitmap and replay_counter of a keypair. */
  datatype Window = Window(bitmap: u32, counter: u64)

  const FRESH := Window(0, 0)

  /** `sizeof(keypair->replay_bitmap)`: four, where the comment beside it says 32. */
  const SIZE: nat := 4

  /** Distances are computed in a uint32_t. */
  function Distance(from: u64, to: u64): (d: u32)
    requires from <= to
  {
    (to as nat - from as nat) % W32
  }

  function OrWord(a: u32, b: u32): (c: u32)
    ensures c as nat == Or(a, b)
  {
    Pow2Values();
    OrBound(a, b, 32);
    Or(a, b)
  }

  /** `(uint32_t)1 << d` */
  function OneBit(d: nat): (b: u32)
    requires d < 32
    ensures b as nat == Pow2(d)
  {
    Pow2Values();
    Pow2Grows(d, 32);
    Pow2(d)
  }

  /** `x << d` on 32 bits. */
  function ShiftLeft(x: u32, d: nat): (y: u32)
  {
    (x as nat * Pow2(d)) % W32
  }

  /** wireguard_check_replay for a window of `size` numbers. */
  method CheckReplay(size: nat, w: Window, number: u64) returns (result: bool, w': Window)
    requires 1 <= size <= 32
    ensures (result, w') == Step(size, w, number)
    ensures number > w.counter ==> result
    ensures if result then w'.counter == if number > w.counter then number else w.counter else w' == w
    ensures result ==> !Step(size, w', number).0
  {
    result, w' := false, w;
    NotAgain(size, w, number);
    hide Pow2, And, Or;
    if number != 0 {
      if number > w.counter {
        var diff := Distance(w.counter, number);
        if diff < size {
          w' := w'.(bitmap := ShiftLeft(w'.bitmap, diff));
          w' := w'.(bitmap := OrWord(w'.bitmap, 1));
        } else {
          w' := w'.(bitmap := 1);
        }
        w' := w'.(counter := number);
        result := true;
      } else {
        var diff := Distance(number, w.counter);
        if diff < size {
          if And(w.bitmap, OneBit(diff)) != 0 {
          } else {
            w' := w'.(bitmap := OrWord(w'.bitmap, OneBit(diff)));
            result := true;
          }
        }
      }
    }
  }

  function Step(size: nat, w: Window, number: u64): (r: (bool, Window))
    requires 1 <= size <= 32
  {
    if number == 0 then (false, w)
    else if number > w.counter then
      var diff := Distance(w.counter, number);
      (true, Window(if diff < size then OrWord(ShiftLeft(w.bitmap, diff), 1) else 1, number))
    else
      var diff := Distance(number, w.counter);
      if diff < size && And(w.bitmap, OneBit(diff)) == 0
      then (true, w.(bitmap := OrWord(w.bitmap, OneBit(diff))))
      else (false, w)
  }

  /** The counter is the greatest number accepted, and bit d tells whether the number d behind it was. */
  ghost predicate Tracks(size: nat, w: Window, accepted: set<nat>)
  {
    && 0 !in accepted
    && (w.counter == 0 || w.counter in accepted)
    && (forall a :: a in accepted ==> a <= w.counter)
    && (forall d: nat {:trigger BitAt(w.bitmap, d)} :: d < size && d < w.counter ==>
         (BitAt(w.bitmap, d) <==> w.counter - d in accepted))
  }

  /** Numbers within 2^32 of the counter, so that the 32-bit distance is the true one. */
  predicate Near(w: Window, number: u64)
  {
    number < w.counter + W32 && w.counter < number + W32
  }

  /** What the window promises: nonzero, never accepted before, and less than `size` behind the
      greatest accepted. */
  predicate Acceptable(size: nat, accepted: set<nat>, number: nat)
  {
    number != 0 && number !in accepted && forall a :: a in accepted ==> a < number + size
  }

  /** When the step does what the window promises: for zero; within 2^32 of the counter; and beyond,
      when the wrapped distance is outside the window, or points, ahead, to no bit that the shift
      would keep and, behind, to a bit already set. */
  predicate Exact(size: nat, w: Window, number: u64)
  {
    || number == 0
    || Near(w, number)
    || if number > w.counter then
         var diff := Distance(w.counter, number);
         diff >= size || forall d: nat {:trigger BitAt(w.bitmap, d)} :: 0 < d + diff < size ==> !BitAt(w.bitmap, d)
       else
         var diff := Distance(number, w.counter);
         diff >= size || BitAt(w.bitmap, diff)
  }

  /** The verdict is right and the window goes on tracking. */
  ghost predicate Right(size: nat, w: Window, accepted: set<nat>, number: u64)
    requires 1 <= size <= 32
  {
    var (result, w') := Step(size, w, number);
    && (result <==> Acceptable(size, accepted, number))
    && Tracks(size, w', if result then accepted + {number as nat} else accepted)
  }

  /** In every state of the window and for every number, 0 to 2^64 - 1. */
  lemma StepIsExact(size: nat, w: Window, accepted: set<nat>, number: u64)
    requires 1 <= size <= 32 && Tracks(size, w, accepted)
    ensures Right(size, w, accepted, number) <==> Exact(size, w, number)
  {
    hide Pow2, And, Or, BitAt;
    if number != 0 {
      if Near(w, number) {
        if number > w.counter {
          StepAhead(size, w, accepted, number);
        } else {
          StepBehind(size, w, accepted, number);
        }
      } else if number > w.counter {
        FarAhead(size, w, accepted, number);
      } else {
        FarBehind(size, w, accepted, number);
      }
    }
  }

  /** A jump of 2^32 or more is rightly accepted; the window goes on tracking exactly when the shift
      carries no set bit to a position behind the new number. */
  lemma FarAhead(size: nat, w: Window, accepted: set<nat>, number: u64)
    requires 1 <= size <= 32 && Tracks(size, w, accepted) && number >= w.counter as nat + W32
    ensures Step(size, w, number).0 && Acceptable(size, accepted, number)
    ensures Tracks(size, Step(size, w, number).1, accepted + {number as nat}) <==> Exact(size, w, number)
  {
    hide Pow2, And, Or, BitAt;
    var diff, w' := Distance(w.counter, number), Step(size, w, number).1;
    if Exact(size, w, number) {
      forall d: nat | d < size && d < number
        ensures BitAt(w'.bitmap, d) <==> number - d in accepted + {number as nat}
      {
        if diff < size {
          BitOfAhead(w.bitmap, diff, d);
        } else {
          BitOfOne(d);
        }
      }
    } else {
      var d: nat :| 0 < d + diff < size && BitAt(w.bitmap, d);
      BitOfAhead(w.bitmap, diff, d + diff);
    }
  }

  /** A number 2^32 or more behind is never acceptable; it is accepted exactly when its wrapped
      distance points to a number in the window that was not. */
  lemma FarBehind(size: nat, w: Window, accepted: set<nat>, number: u64)
    requires 1 <= size <= 32 && Tracks(size, w, accepted) && 0 < number && w.counter >= number as nat + W32
    ensures var diff := Distance(number, w.counter);
      Step(size, w, number).0 <==> diff < size && w.counter - diff !in accepted
    ensures !Acceptable(size, accepted, number)
    ensures Step(size, w, number).0 <==> !Exact(size, w, number)
  {
    hide Pow2, And, Or, BitAt;
    var diff := Distance(number, w.counter);
    if diff < size {
      AndPow2(w.bitmap, diff);
    }
  }

  /** A number just accepted is refused at once, however far it jumped. */
  lemma NotAgain(size: nat, w: Window, number: u64)
    requires 1 <= size <= 32
    ensures Step(size, w, number).0 ==> !Step(size, Step(size, w, number).1, number).0
  {
    hide Pow2, And, Or, BitAt;
    var (result, w') := Step(size, w, number);
    if result {
      var diff := Distance(number, w'.counter);
      if number > w.counter {
        if Distance(w.counter, number) < size {
          BitOfAhead(w.bitmap, Distance(w.counter, number), 0);
        } else {
          BitOfOne(0);
        }
      } else {
        BitOfOr(w.bitmap, OneBit(diff), diff);
        BitOfPow2(diff, diff);
      }
      AndPow2(w'.bitmap, diff);
    }
  }

  lemma StepAhead(size: nat, w: Window, accepted: set<nat>, number: u64)
    requires 1 <= size <= 32 && Tracks(size, w, accepted) && w.counter < number && Near(w, number)
    ensures Right(size, w, accepted, number)
  {
    hide Pow2, And, Or, BitAt;
    var diff := Distance(w.counter, number);
    var w' := Step(size, w, number).1;
    forall d: nat | d < size && d < number
      ensures BitAt(w'.bitmap, d) <==> number - d in accepted + {number as nat}
    {
      if diff < size {
        BitOfAhead(w.bitmap, diff, d);
      } else {
        BitOfOne(d);
      }
    }
  }

  lemma BitOfAhead(bitmap: u32, diff: nat, d: nat)
    requires d < 32
    ensures BitAt(OrWord(ShiftLeft(bitmap, diff), 1), d) <==> d == 0 || (d >= diff && BitAt(bitmap, d - diff))
  {
    Pow2Values();
    BitOfOr(ShiftLeft(bitmap, diff), 1, d);
    BitOfOne(d);
    BitOfMod(bitmap * Pow2(diff), 32, d);
    BitOfShift(bitmap, diff, d);
  }

  lemma BitOfOne(d: nat)
    ensures BitAt(1, d) <==> d == 0
  {
    BitOfPow2(0, d);
  }

  lemma StepBehind(size: nat, w: Window, accepted: set<nat>, number: u64)
    requires 1 <= size <= 32 && Tracks(size, w, accepted) && 0 < number <= w.counter && Near(w, number)
    ensures Right(size, w, accepted, number)
  {
    hide Pow2, And, Or, BitAt;
    var diff := Distance(number, w.counter);
    if diff < size {
      AndPow2(w.bitmap, diff);
      assert BitAt(w.bitmap, diff) <==> number in accepted;
      if !BitAt(w.bitmap, diff) {
        var bitmap := OrWord(w.bitmap, OneBit(diff));
        forall d: nat | d < size && d < w.counter
          ensures BitAt(bitmap, d) <==> w.counter - d in accepted + {number as nat}
        {
          BitOfOr(w.bitmap, OneBit(diff), d);
          BitOfPow2(diff, d);
        }
      }
    }
  }

  /** The numbers accepted among the first n. */
  ghost function AcceptedOf(numbers: seq<u64>, verdicts: seq<bool>): (s: set<nat>)
    requires |verdicts| <= |numbers|
  {
    set i | 0 <= i < |verdicts| && verdicts[i] :: numbers[i] as nat
  }

  /** Number i was accepted exactly when it is nonzero, differs from every number accepted
      before it and is less than `size` behind each of them. */
  ghost predicate Verdict(size: nat, numbers: seq<u64>, verdicts: seq<bool>, i: nat)
    requires i < |verdicts| <= |numbers|
  {
    verdicts[i] <==> numbers[i] != 0 && forall j :: 0 <= j < i && verdicts[j] ==>
      numbers[j] != numbers[i] && numbers[j] < numbers[i] as nat + size
  }

  /** Numbers less than 2^32 apart. */
  ghost predicate Together(numbers: set<nat>)
  {
    forall a, b :: a in numbers && b in numbers ==> a < b + W32
  }

  function NumbersOf(numbers: seq<u64>): (s: set<nat>)
  {
    set i | 0 <= i < |numbers| :: numbers[i] as nat
  }

  /** The counter is a number already seen, or the window is fresh. */
  predicate Seen(w: Window, numbers: set<nat>)
  {
    w == FRESH || w.counter as nat in numbers
  }

  /** Any sequence of calls on one keypair with numbers less than 2^32 apart: a number is accepted if
      and only if it is nonzero, was never accepted before, and is less than `size` behind the
      greatest accepted. */
  method CheckAll(size: nat, numbers: seq<u64>) returns (verdicts: seq<bool>)
    requires 1 <= size <= 32 && Together(NumbersOf(numbers))
    ensures |verdicts| == |numbers|
    ensures forall i :: 0 <= i < |numbers| ==> Verdict(size, numbers, verdicts, i)
  {
    hide Step, Exact, BitAt, Seen;
    verdicts := [];
    var w := FRESH;
    NothingAccepted(size, numbers);
    FreshSeen(NumbersOf(numbers));
    for n := 0 to |numbers|
      invariant |verdicts| == n && Seen(w, NumbersOf(numbers))
      invariant Tracks(size, w, AcceptedOf(numbers, verdicts))
      invariant forall i :: 0 <= i < n ==> Verdict(size, numbers, verdicts, i)
    {
      ghost var accepted, w0 := AcceptedOf(numbers, verdicts), w;
      assert numbers[n] as nat in NumbersOf(numbers);
      ExactSeen(size, w, numbers[n], NumbersOf(numbers));
      StepIsExact(size, w, accepted, numbers[n]);
      var ok;
      ok, w := CheckReplay(size, w, numbers[n]);
      OneMore(size, numbers, verdicts, ok);
      StepSeen(size, w0, numbers[n], NumbersOf(numbers));
      verdicts := verdicts + [ok];
    }
  }

  lemma FreshSeen(numbers: set<nat>)
    ensures Seen(FRESH, numbers)
  {
  }

  /** Among numbers less than 2^32 apart every step is exact. */
  lemma ExactSeen(size: nat, w: Window, number: u64, numbers: set<nat>)
    requires 1 <= size <= 32 && Together(numbers) && number as nat in numbers && Seen(w, numbers)
    ensures Exact(size, w, number)
  {
    if w == FRESH {
      forall d: nat
        ensures !BitAt(0, d)
      {
        NoBits(d);
      }
    }
  }

  lemma StepSeen(size: nat, w: Window, number: u64, numbers: set<nat>)
    requires 1 <= size <= 32 && number as nat in numbers && Seen(w, numbers)
    ensures Seen(Step(size, w, number).1, numbers)
  {
  }

  lemma NothingAccepted(size: nat, numbers: seq<u64>)
    ensures Tracks(size, FRESH, AcceptedOf(numbers, []))
  {
  }

  lemma OneMore(size: nat, numbers: seq<u64>, verdicts: seq<bool>, ok: bool)
    requires |verdicts| < |numbers| && forall i :: 0 <= i < |verdicts| ==> Verdict(size, numbers, verdicts, i)
    requires ok <==> Acceptable(size, AcceptedOf(numbers, verdicts), numbers[|verdicts|])
    ensures AcceptedOf(numbers, verdicts + [ok])
         == if ok then AcceptedOf(numbers, verdicts) + {numbers[|verdicts|] as nat} else AcceptedOf(numbers, verdicts)
    ensures forall i :: 0 <= i <= |verdicts| ==> Verdict(size, numbers, verdicts + [ok], i)
  {
    var n, after := |verdicts|, verdicts + [ok];
    forall i | 0 <= i <= n
      ensures Verdict(size, numbers, after, i)
    {
      if i < n {
        assert Verdict(size, numbers, verdicts, i);
        assert forall j :: 0 <= j < i ==> after[j] == verdicts[j];
      } else {
        assert forall j :: 0 <= j < n ==> after[j] == verdicts[j];
        assert forall j :: 0 <= j < n && verdicts[j] ==> numbers[j] as nat in AcceptedOf(numbers, verdicts);
      }
    }
  }

  /** Beyond 2^32 the distance wraps: here the window claims number 2^32 + 1 as seen,
      though it never came. */
  lemma FarJumpMisreads()
    ensures var far: u64 := 0x1_0000_0002; var w1 := Step(SIZE, FRESH, 1).1;
      var w2 := Step(SIZE, w1, far).1;
      !Exact(SIZE, w1, far) && !Step(SIZE, w2, far - 1).0 && Acceptable(SIZE, {1, far as nat}, far - 1)
  {
    var far: u64 := 0x1_0000_0002;
    var w1 := Step(SIZE, FRESH, 1).1;
    hide And, Or, Pow2, BitAt;
    assert w1.counter == 1;
    BitOfAhead(0, 1, 0);
    BitOfAhead(w1.bitmap, 1, 1);
    var w2 := Step(SIZE, w1, far).1;
    AndPow2(w2.bitmap, 1);
  }

  /** Here number 9 is accepted a second time, the counter having gone on to 2^33 + 10 by jumps that
      keep the window exact. */
  lemma FarBehindReplays()
    ensures var w := Step(SIZE, Step(SIZE, Step(SIZE, FRESH, 9).1, 0x1_0000_0032).1, 0x2_0000_000a).1;
      Step(SIZE, w, 9).0 && !Exact(SIZE, w, 9) && !Acceptable(SIZE, {9, 0x1_0000_0032, 0x2_0000_000a}, 9)
  {
    var w := Step(SIZE, Step(SIZE, Step(SIZE, FRESH, 9).1, 0x1_0000_0032).1, 0x2_0000_000a).1;
    hide And, Or, Pow2, BitAt;
    BitOfOne(1);
    AndPow2(w.bitmap, 1);
  }
}
