/** The generator's step, seeding and bytes said once more in plain numbers and single bits. */
module EntropyWords {
  import opened Bytes
  import opened Words64
  import opened Entropy
  import B32 = Base32
  import W = WireForms

  // ---- bits and numbers ----

  lemma {:induction false} Split(a: seq<bool>, b: seq<bool>)
    ensures B32.ToNat(a + b) / B32.Pow2(|b|) == B32.ToNat(a) && B32.ToNat(a + b) % B32.Pow2(|b|) == B32.ToNat(b)
  {
    B32.ToNatAppend(a, b);
    B32.ToNatBound(b);
    DivideParts(B32.ToNat(a), B32.Pow2(|b|), B32.ToNat(b));
  }

  lemma {:induction false} DivideParts(q: nat, d: nat, r: nat)
    requires r < d
    ensures (q * d + r) / d == q && (q * d + r) % d == r
  {
    B32.DivideExact(q, d, r);
    var n := q * d + r;
    assert n == n / d * d + n % d;
  }

  lemma {:induction false} LastIsParity(bits: seq<bool>, last: bool)
    ensures B32.ToNat(bits + [last]) % 2 == 1 <==> last
  {
    assert (bits + [last])[..|bits|] == bits;
  }

  /** Bit `i` of a word, counted from the most significant, is that power of two in its number. */
  lemma {:induction false} BitIsPower(x: Word, i: nat)
    requires i < 64
    ensures Bit(x, i) <==> Value(x) / B32.Pow2(63 - i) % 2 == 1
  {
    hide B32.Pow2, B32.ToNat;
    var before, after := x[..i], x[i + 1..];
    assert x == before + [x[i]] + after;
    Split(before + [x[i]], after);
    LastIsParity(before, x[i]);
  }

  /** Rotated left by `k`, the `k` high bits become the low ones. */
  lemma {:induction false} RotationValue(x: Word, k: nat)
    requires k <= 64
    ensures Value(RotateLeft(x, k)) == Value(x) % B32.Pow2(64 - k) * B32.Pow2(k) + Value(x) / B32.Pow2(64 - k)
  {
    hide B32.Pow2, B32.ToNat;
    var high, low := x[..k], x[k..];
    assert x == high + low;
    Split(high, low);
    B32.ToNatAppend(low, high);
  }

  // ---- the step ----

  /** Bit by bit, what one step makes of the four words. */
  lemma {:induction false} StepBits(s: Words, i: nat)
    requires i < 64
    ensures Bit(Next(s).a, i) == (Bit(s.a, i) != (Bit(s.d, i) != Bit(s.b, i)))
    ensures Bit(Next(s).b, i) == (Bit(s.b, i) != (Bit(s.c, i) != Bit(s.a, i)))
    ensures Bit(Next(s).c, i) == ((Bit(s.c, i) != Bit(s.a, i)) != Bit(s.b, i + 17))
    ensures Bit(Next(s).d, i) == (Bit(s.d, (i + 45) % 64) != Bit(s.b, (i + 45) % 64))
  {
    hide Xor, ShiftLeft, RotateLeft;
    var d := Xor(s.d, s.b);
    RotatedBit(d, 45, i);
    assert Bit(d, (i + 45) % 64) == (Bit(s.d, (i + 45) % 64) != Bit(s.b, (i + 45) % 64));
  }

  lemma {:induction false} RotatedBit(x: Word, k: nat, i: nat)
    requires k <= 64 && i < 64
    ensures Bit(RotateLeft(x, k), i) == Bit(x, (i + k) % 64)
  {
  }

  /** The number given: nine times the second word's five-fold, rotated by seven, all modulo 2^64. */
  lemma {:induction false} OutputNumber(s: Words)
    ensures var five := 5 * Value(s.b) % 0x1_0000_0000_0000_0000;
            var turned := five % 0x200_0000_0000_0000 * 0x80 + five / 0x200_0000_0000_0000;
            Value(Output(s)) == 9 * turned % 0x1_0000_0000_0000_0000
  {
    hide Value, Wrapped, RotateLeft;
    WrappedValue(Value(s.b) * 5, s.b);
    var five := Times(s.b, 5);
    RotationValue(five, 7);
    Powers7();
    var turned := RotateLeft(five, 7);
    WrappedValue(Value(turned) * 9, turned);
  }

  lemma {:induction false} Powers7()
    ensures B32.Pow2(7) == 0x80 && B32.Pow2(57) == 0x200_0000_0000_0000
  {
    B32.SmallPowers();
    SixtyFour();
    PowersAdd(57, 7);
    assert B32.Pow2(7) == 0x80 by { assert B32.Pow2(8) == 2 * B32.Pow2(7); }
  }

  // ---- seeding ----

  /** The counters are the seed and one, two, three and four times the odd constant. */
  lemma {:induction false} CounterNumber(seed: Word, i: nat)
    ensures Value(Counter(seed, i)) == (Value(seed) + i * 0x9E37_79B9_7F4A_7C15) % 0x1_0000_0000_0000_0000
  {
    hide Value, Wrapped;
    WrappedValue(Value(seed) + i * GAMMA, seed);
  }

  predicate ShiftedIn(x: Word, k: nat, y: Word) {
    forall i | 0 <= i < 64 :: Bit(y, i) == (Bit(x, i) != (i >= k && Bit(x, i - k)))
  }

  /** A counter is mixed by three shifts to the right, of 30, 27 and 31, with the two multiplications between them. */
  lemma {:induction false} MixSteps(z: Word) returns (one: Word, two: Word, three: Word, four: Word)
    ensures ShiftedIn(z, 30, one) && Value(two) == Value(one) * 0xBF58_476D_1CE4_E5B9 % 0x1_0000_0000_0000_0000
    ensures ShiftedIn(two, 27, three) && Value(four) == Value(three) * 0x94D0_49BB_1331_11EB % 0x1_0000_0000_0000_0000
    ensures ShiftedIn(four, 31, Mix(z))
  {
    hide Value, Wrapped, MixedDown;
    one := MixedDown(z, 30);
    MixedIn(z, 30);
    two := Times(one, MIX_ONE);
    WrappedValue(Value(one) * MIX_ONE, one);
    three := MixedDown(two, 27);
    MixedIn(two, 27);
    four := Times(three, MIX_TWO);
    WrappedValue(Value(three) * MIX_TWO, three);
    MixedIn(four, 31);
  }

  lemma {:induction false} MixedIn(x: Word, k: nat)
    requires k <= 64
    ensures ShiftedIn(x, k, MixedDown(x, k))
  {
    hide Xor, ShiftRight;
  }

  // ---- bytes ----

  lemma {:induction false} ByteAt(bits: seq<bool>, i: nat)
    requires |bits| % 8 == 0 && 8 * i < |bits|
    ensures 8 * i + 8 <= |bits| && B32.BitsToBytes(bits)[i] == B32.BitsByte(bits[8 * i..8 * i + 8])
  {
    hide B32.BitsByte;
    var front := bits[..|bits| - 8];
    if 8 * i < |front| {
      ByteAt(front, i);
      assert front[8 * i..8 * i + 8] == bits[8 * i..8 * i + 8];
    } else {
      assert bits[|bits| - 8..] == bits[8 * i..8 * i + 8];
    }
  }

  lemma {:induction false} WordBytes(x: Word)
    ensures var bytes := B32.BitsToBytes(x); |bytes| == 8 && forall i | 0 <= i < 8 :: bytes[i] == LeBytes(x)[7 - i]
  {
    hide B32.BitsByte, B32.ToNat;
    forall i | 0 <= i < 8 ensures B32.BitsToBytes(x)[i] == LeBytes(x)[7 - i] {
      ByteAt(x, i);
    }
  }

  lemma {:induction false} WordBytesNumber(x: Word)
    ensures FromBE(B32.BitsToBytes(x)) == Value(x)
  {
    hide FromBE, B32.ToNat;
    B32.BitsRoundTrip(x);
    W.BytesAreBits(B32.BitsToBytes(x));
  }

  lemma {:induction false} Reversed(a: seq<Byte>, l: seq<Byte>)
    requires |a| == 8 && |l| == 8 && forall i | 0 <= i < 8 :: a[i] == l[7 - i]
    ensures a == [l[7], l[6], l[5], l[4], l[3], l[2], l[1], l[0]]
  {
  }

  /** The bytes of a word, the least significant first: read the other way round they are its number. */
  lemma {:induction false} BytesNumber(x: Word)
    ensures var l := LeBytes(x); FromBE([l[7], l[6], l[5], l[4], l[3], l[2], l[1], l[0]]) == Value(x)
  {
    hide FromBE, LeBytes, Value;
    WordBytes(x);
    WordBytesNumber(x);
    Reversed(B32.BitsToBytes(x), LeBytes(x));
  }

  /** The n-th byte given is of the word given after n / 8 steps. */
  lemma {:induction false} StreamByte(s: Words, n: nat, i: nat)
    requires i < n
    ensures Stream(s, n)[i] == LeBytes(Output(After(s, i / 8)))[i % 8]
    decreases n
  {
    hide LeBytes, Output, Next;
    if n >= 8 {
      if i >= 8 {
        StreamByte(Next(s), n - 8, i - 8);
        AfterNext(s, (i - 8) / 8);
      }
    }
  }
}
