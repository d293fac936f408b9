/** Sixty-four-bit words as their bits, most significant first: what shifts, rotations, exclusive or and
    multiplication modulo 2^64 do, and undo. */
module Words64 {
  import opened Bytes
  import B32 = Base32

  type Word = w: seq<bool> | |w| == 64 witness seq(64, _ => false)

  const NOTHING: seq<bool> := B32.Zeros(64)

  function Bit(x: seq<bool>, i: int): bool {
    0 <= i < |x| && x[i]
  }

  function Xor(x: Word, y: Word): (z: Word)
    ensures forall i :: Bit(z, i) == (Bit(x, i) != Bit(y, i))
  {
    seq(64, i requires 0 <= i < 64 => x[i] != y[i])
  }

  function ShiftLeft(x: Word, k: nat): (z: Word)
    requires k <= 64
    ensures forall i | i >= 0 :: Bit(z, i) == Bit(x, i + k)
  {
    x[k..] + B32.Zeros(k)
  }

  function ShiftRight(x: Word, k: nat): (z: Word)
    requires k <= 64
    ensures forall i | i < 64 :: Bit(z, i) == Bit(x, i - k)
  {
    B32.Zeros(k) + x[..64 - k]
  }

  function RotateLeft(x: Word, k: nat): Word
    requires k <= 64
  {
    x[k..] + x[..k]
  }

  lemma {:induction false} SameBits(x: Word, y: Word)
    requires forall i | 0 <= i < 64 :: Bit(x, i) == Bit(y, i)
    ensures x == y
  {
    forall i | 0 <= i < 64 ensures x[i] == y[i] {
      assert Bit(x, i) == Bit(y, i);
    }
  }

  lemma {:induction false} XorUndone(x: Word, y: Word)
    ensures Xor(Xor(x, y), y) == x && Xor(y, Xor(y, x)) == x && Xor(x, y) == Xor(y, x)
  {
    hide Xor, Bit;
    SameBits(Xor(Xor(x, y), y), x);
    SameBits(Xor(y, Xor(y, x)), x);
    SameBits(Xor(x, y), Xor(y, x));
  }

  lemma {:induction false} RotationUndone(x: Word, k: nat)
    requires k <= 64
    ensures RotateLeft(RotateLeft(x, k), 64 - k) == x && RotateLeft(RotateLeft(x, 64 - k), k) == x
  {
  }

  // ---- a shift mixed into the word it was of ----

  function MixedUp(x: Word, k: nat): Word
    requires k <= 64
  {
    Xor(x, ShiftLeft(x, k))
  }

  function MixedDown(x: Word, k: nat): Word
    requires k <= 64
  {
    Xor(x, ShiftRight(x, k))
  }

  /** The word again: the mixed one, shifted as often as anything is left. */
  function Unmixed17(x: Word): Word {
    Xor(Xor(x, ShiftLeft(x, 17)), Xor(ShiftLeft(x, 34), ShiftLeft(x, 51)))
  }

  lemma {:induction false} Unmixed17Bit(x: Word, i: nat)
    ensures Bit(Unmixed17(x), i) == (Bit(x, i) != (Bit(x, i + 17) != (Bit(x, i + 34) != Bit(x, i + 51))))
  {
    hide Xor, ShiftLeft, Bit;
  }

  lemma {:induction false} MixedUpBit(x: Word, i: nat)
    ensures Bit(MixedUp(x, 17), i) == (Bit(x, i) != Bit(x, i + 17))
  {
    hide Xor, ShiftLeft, Bit;
  }

  lemma {:induction false} Mixed17Undone(x: Word)
    ensures Unmixed17(MixedUp(x, 17)) == x && MixedUp(Unmixed17(x), 17) == x
  {
    hide Unmixed17, MixedUp;
    forall i | 0 <= i < 64
      ensures Bit(Unmixed17(MixedUp(x, 17)), i) == Bit(x, i) && Bit(MixedUp(Unmixed17(x), 17), i) == Bit(x, i)
    {
      Unmixed17Bit(MixedUp(x, 17), i);
      MixedUpBit(x, i);
      MixedUpBit(x, i + 17);
      MixedUpBit(x, i + 34);
      MixedUpBit(x, i + 51);
      MixedUpBit(Unmixed17(x), i);
      Unmixed17Bit(x, i);
      Unmixed17Bit(x, i + 17);
    }
    SameBits(Unmixed17(MixedUp(x, 17)), x);
    SameBits(MixedUp(Unmixed17(x), 17), x);
  }

  /** From the most significant bit down, a word mixed with its right shift determines every bit. */
  lemma {:induction false} MixedDownBits(x: Word, y: Word, k: nat, n: nat)
    requires 0 < k <= 64 && n <= 64 && MixedDown(x, k) == MixedDown(y, k)
    ensures forall i | i < n :: Bit(x, i) == Bit(y, i)
  {
    hide Xor, ShiftRight;
    if n > 0 {
      MixedDownBits(x, y, k, n - 1);
      assert Bit(MixedDown(x, k), n - 1) == (Bit(x, n - 1) != Bit(x, n - 1 - k));
      assert Bit(MixedDown(y, k), n - 1) == (Bit(y, n - 1) != Bit(y, n - 1 - k));
    }
  }

  lemma {:induction false} MixedDownInjective(x: Word, y: Word, k: nat)
    requires 0 < k <= 64 && MixedDown(x, k) == MixedDown(y, k)
    ensures x == y
  {
    MixedDownBits(x, y, k, 64);
    SameBits(x, y);
  }

  // ---- arithmetic modulo 2^64 ----

  /** A number's bits, as many as a word has. */
  function BitsLike(n: nat, like: Word): Word {
    B32.ToBits(n, |like|)
  }

  function Wrapped(n: nat): Word {
    BitsLike(n % U64, NOTHING)
  }

  function Value(x: Word): nat {
    B32.ToNat(x)
  }

  function Times(x: Word, m: nat): Word {
    Wrapped(Value(x) * m)
  }

  function Plus(x: Word, m: nat): Word {
    Wrapped(Value(x) + m)
  }

  lemma {:induction false} PowersAdd(a: nat, b: nat)
    ensures B32.Pow2(a + b) == B32.Pow2(a) * B32.Pow2(b)
  {
    if b > 0 {
      PowersAdd(a, b - 1);
      assert 2 * (B32.Pow2(a) * B32.Pow2(b - 1)) == B32.Pow2(a) * (2 * B32.Pow2(b - 1));
    }
  }

  lemma {:induction false} SixtyFour()
    ensures B32.Pow2(64) == U64
  {
    B32.SmallPowers();
    PowersAdd(8, 8);
    PowersAdd(16, 16);
    PowersAdd(32, 32);
  }

  lemma {:induction false} WrappedValue(n: nat, x: Word)
    ensures Value(Wrapped(n)) == n % U64
    ensures Value(x) < U64 && Wrapped(Value(x)) == x
  {
    hide Value, BitsLike;
    LikeValue(n % U64, NOTHING);
    ValueLike(x);
    SameLength(Value(x), x, NOTHING);
  }

  lemma {:induction false} LikeValue(n: nat, like: Word)
    requires n < U64
    ensures Value(BitsLike(n, like)) == n
  {
    SixtyFour();
    B32.ToNatToBits(n, |like|);
  }

  lemma {:induction false} ValueLike(x: Word)
    ensures Value(x) < U64 && BitsLike(Value(x), x) == x
  {
    SixtyFour();
    B32.ToNatBound(x);
    B32.ToBitsToNat(x);
  }

  lemma {:induction false} SameLength(n: nat, x: Word, y: Word)
    ensures BitsLike(n, x) == BitsLike(n, y)
  {
  }

  /** A multiplier with an inverse modulo 2^64 loses nothing. */
  lemma {:induction false} TimesInjective(x: Word, y: Word, m: nat, inverse: nat, turns: nat)
    requires m * inverse == 1 + turns * U64 && Times(x, m) == Times(y, m)
    ensures x == y
  {
    hide Value, Wrapped;
    WrappedValue(Value(x) * m, x);
    WrappedValue(Value(y) * m, y);
    TimesBack(Value(x), m, inverse, turns);
    TimesBack(Value(y), m, inverse, turns);
  }

  lemma {:induction false} TimesBack(n: nat, m: nat, inverse: nat, turns: nat)
    requires m * inverse == 1 + turns * U64 && n < U64
    ensures (n * m % U64) * inverse % U64 == n
  {
    var q, p := n * m / U64, n * m % U64;
    Regroup(n, m, inverse, turns, q, p);
    Remainder(p * inverse, n * turns - q * inverse, n);
  }

  lemma {:induction false} Regroup(n: nat, m: nat, inverse: nat, turns: nat, q: nat, p: nat)
    requires n * m == U64 * q + p && m * inverse == 1 + turns * U64
    ensures p * inverse == (n * turns - q * inverse) * U64 + n
  {
    assert n * (m * inverse) == (n * m) * inverse;
    assert n * (1 + turns * U64) == n + (n * turns) * U64;
    assert (U64 * q + p) * inverse == U64 * (q * inverse) + p * inverse;
    assert (n * turns - q * inverse) * U64 == (n * turns) * U64 - (q * inverse) * U64;
  }

  lemma {:induction false} Remainder(n: int, k: int, r: nat)
    requires n == k * U64 + r && r < U64
    ensures n % U64 == r
  {
  }

  lemma {:induction false} PlusInjective(x: Word, m: nat, n: nat)
    requires m < n && (n - m) % U64 != 0
    ensures Plus(x, m) != Plus(x, n)
  {
    hide Value, Wrapped;
    WrappedValue(Value(x) + m, x);
    WrappedValue(Value(x) + n, x);
  }

  /** Adding twice, wrapping each time, is adding once. */
  lemma {:induction false} PlusPlus(x: Word, m: nat, n: nat)
    ensures Plus(Plus(x, m), n) == Plus(x, m + n)
  {
    hide Value, Wrapped;
    WrappedValue(Value(x) + m, x);
    WrapsAlike(Value(x) + m, n);
  }

  lemma {:induction false} WrapsAlike(m: nat, n: nat)
    ensures Wrapped(m % U64 + n) == Wrapped(m + n)
  {
    assert (m % U64 + n) % U64 == (m + n) % U64;
  }

  lemma {:induction false} NothingStays()
    ensures Xor(NOTHING, NOTHING) == NOTHING && ShiftLeft(NOTHING, 17) == NOTHING && RotateLeft(NOTHING, 45) == NOTHING
  {
    SameBits(Xor(NOTHING, NOTHING), NOTHING);
    SameBits(ShiftLeft(NOTHING, 17), NOTHING);
    SameBits(RotateLeft(NOTHING, 45), NOTHING);
  }
}
