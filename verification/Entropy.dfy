/** The seeded generator: xoshiro256** over four words, seeded through a mixing of four counters. */
module Entropy {
  import opened Bytes
  import opened Words64
  import B32 = Base32

  datatype Words = Words(a: Word, b: Word, c: Word, d: Word)

  const ZERO := Words(NOTHING, NOTHING, NOTHING, NOTHING)

  // ---- the step ----

  function Output(s: Words): Word {
    Times(RotateLeft(Times(s.b, 5), 7), 9)
  }

  function Next(s: Words): Words {
    var c := Xor(s.c, s.a);
    var d := Xor(s.d, s.b);
    Words(Xor(s.a, d), Xor(s.b, c), Xor(c, ShiftLeft(s.b, 17)), RotateLeft(d, 45))
  }

  /** The step undone: what the words were before. */
  function Previous(s: Words): Words {
    var d := RotateLeft(s.d, 19);
    var a := Xor(s.a, d);
    var b := Unmixed17(Xor(s.b, s.c));
    var c := Xor(s.b, b);
    Words(a, b, Xor(c, a), Xor(d, b))
  }

  lemma {:induction false} XorCancels(b: Word, c: Word, t: Word)
    ensures Xor(Xor(b, c), Xor(c, t)) == Xor(b, t)
  {
    hide Xor, Bit;
    SameBits(Xor(Xor(b, c), Xor(c, t)), Xor(b, t));
  }

  lemma {:induction false} PreviousNext(s: Words)
    ensures Previous(Next(s)) == s
  {
    hide Xor, ShiftLeft, RotateLeft, Unmixed17;
    var c, d := Xor(s.c, s.a), Xor(s.d, s.b);
    RotationUndone(d, 45);
    XorUndone(s.a, d);
    XorCancels(s.b, c, ShiftLeft(s.b, 17));
    Mixed17Undone(s.b);
    XorUndone(c, s.b);
    XorUndone(s.c, s.a);
    XorUndone(s.d, s.b);
  }

  lemma {:induction false} NextPrevious(s: Words)
    ensures Next(Previous(s)) == s
  {
    hide Xor, ShiftLeft, RotateLeft, Unmixed17;
    var d := RotateLeft(s.d, 19);
    var a, b := Xor(s.a, d), Unmixed17(Xor(s.b, s.c));
    var c := Xor(s.b, b);
    RotationUndone(s.d, 45);
    XorUndone(s.a, d);
    XorUndone(c, a);
    XorUndone(d, b);
    XorUndone(s.b, b);
    XorUndone(b, s.b);
    Mixed17Undone(Xor(s.b, s.c));
    XorCancels(s.b, b, ShiftLeft(b, 17));
    XorUndone(s.c, s.b);
    XorTwice(s.b, b, ShiftLeft(b, 17), s.c);
  }

  /** From `b ^ t == x ^ y` with `c == x ^ b`: `c ^ t == y`. */
  lemma {:induction false} XorTwice(x: Word, b: Word, t: Word, y: Word)
    requires Xor(b, t) == Xor(x, y)
    ensures Xor(Xor(x, b), t) == y
  {
    hide Xor, Bit;
    forall i | 0 <= i < 64 ensures Bit(Xor(Xor(x, b), t), i) == Bit(y, i) {
      assert Bit(Xor(b, t), i) == Bit(Xor(x, y), i);
    }
    SameBits(Xor(Xor(x, b), t), y);
  }

  lemma {:induction false} NothingBecomesNothing()
    ensures Next(ZERO) == ZERO
  {
    hide Xor, ShiftLeft, RotateLeft;
    NothingStays();
  }

  /** The step is a bijection, and only nothing becomes nothing. */
  lemma {:induction false} NextIsBijective(s: Words, t: Words)
    ensures Next(s) == Next(t) <==> s == t
    ensures Next(s) == ZERO <==> s == ZERO
    ensures Next(Previous(t)) == t
  {
    hide Next, Previous;
    PreviousNext(s);
    PreviousNext(t);
    NextPrevious(t);
    NothingBecomesNothing();
    PreviousNext(ZERO);
  }

  // ---- seeding ----

  const GAMMA: nat := 0x9E37_79B9_7F4A_7C15
  const MIX_ONE: nat := 0xBF58_476D_1CE4_E5B9
  const MIX_TWO: nat := 0x94D0_49BB_1331_11EB

  function Mix(z: Word): Word {
    MixedDown(Times(MixedDown(Times(MixedDown(z, 30), MIX_ONE), 27), MIX_TWO), 31)
  }

  /** The mixing loses nothing: its shifts can be undone, and its multipliers have inverses. */
  lemma {:induction false} MixInjective(y: Word, z: Word)
    ensures Mix(y) == Mix(z) <==> y == z
  {
    hide MixedDown, Times;
    if Mix(y) == Mix(z) {
      var one, two := MixedDown(y, 30), MixedDown(z, 30);
      var three, four := MixedDown(Times(one, MIX_ONE), 27), MixedDown(Times(two, MIX_ONE), 27);
      MixedDownInjective(Times(three, MIX_TWO), Times(four, MIX_TWO), 31);
      TimesInjective(three, four, MIX_TWO, 0x3196_42B2_D24D_8EC3, 2077064247507883091);
      MixedDownInjective(Times(one, MIX_ONE), Times(two, MIX_ONE), 27);
      TimesInjective(one, two, MIX_ONE, 0x96DE_1B17_3F11_9089, 8125545580553827436);
      MixedDownInjective(y, z, 30);
    }
  }

  function Counter(seed: Word, i: nat): Word {
    Plus(seed, i * GAMMA)
  }

  function Seeded(seed: Word): Words {
    Words(Mix(Counter(seed, 1)), Mix(Counter(seed, 2)), Mix(Counter(seed, 3)), Mix(Counter(seed, 4)))
  }

  lemma {:induction false} CountersDiffer(seed: Word, i: nat, j: nat)
    requires 1 <= i < j <= 4
    ensures Counter(seed, i) != Counter(seed, j)
  {
    hide Plus;
    assert j * GAMMA - i * GAMMA == (j - i) * GAMMA;
    assert (j - i) * GAMMA % U64 != 0 by {
      if j - i == 1 { assert 1 * GAMMA % U64 != 0; }
      if j - i == 2 { assert 2 * GAMMA % U64 != 0; }
      if j - i == 3 { assert 3 * GAMMA % U64 != 0; }
    }
    PlusInjective(seed, i * GAMMA, j * GAMMA);
  }

  /** Four different counters, mixed without loss: no two of the words are equal, so at most one is zero. */
  lemma {:induction false} SeededWordsDiffer(seed: Word)
    ensures var s := Seeded(seed); s.a != s.b && s.a != s.c && s.a != s.d && s.b != s.c && s.b != s.d && s.c != s.d
    ensures Seeded(seed) != ZERO
  {
    hide Mix, Counter;
    CountersDiffer(seed, 1, 2);
    CountersDiffer(seed, 1, 3);
    CountersDiffer(seed, 1, 4);
    CountersDiffer(seed, 2, 3);
    CountersDiffer(seed, 2, 4);
    CountersDiffer(seed, 3, 4);
    MixInjective(Counter(seed, 1), Counter(seed, 2));
    MixInjective(Counter(seed, 1), Counter(seed, 3));
    MixInjective(Counter(seed, 1), Counter(seed, 4));
    MixInjective(Counter(seed, 2), Counter(seed, 3));
    MixInjective(Counter(seed, 2), Counter(seed, 4));
    MixInjective(Counter(seed, 3), Counter(seed, 4));
  }

  function After(s: Words, n: nat): Words {
    if n == 0 then s else Next(After(s, n - 1))
  }

  /** From no seed does the generator ever reach the state it could not leave. */
  lemma {:induction false} NeverStuck(seed: Word, n: nat)
    ensures After(Seeded(seed), n) != ZERO
  {
    hide Next, Seeded;
    if n == 0 {
      SeededWordsDiffer(seed);
    } else {
      NeverStuck(seed, n - 1);
      NextIsBijective(After(Seeded(seed), n - 1), ZERO);
    }
  }

  // ---- filling ----

  /** The eight bytes of a word, least significant first. */
  function LeBytes(x: Word): (bytes: seq<Byte>)
    ensures |bytes| == 8
  {
    seq(8, j requires 0 <= j < 8 => B32.BitsByte(x[56 - 8 * j..64 - 8 * j]))
  }

  /** The bytes a state gives, eight a step. */
  function Stream(s: Words, n: nat): (bytes: seq<Byte>)
    ensures |bytes| == n
    decreases n
  {
    if n < 8 then LeBytes(Output(s))[..n] else LeBytes(Output(s)) + Stream(Next(s), n - 8)
  }

  function Steps(n: nat): nat {
    (n + 7) / 8
  }

  lemma {:induction false} AfterNext(s: Words, n: nat)
    ensures After(Next(s), n) == Next(After(s, n))
  {
    hide Next;
    if n > 0 { AfterNext(s, n - 1); }
  }

  /** Two fillings are one, as long as the first ends with a whole step. */
  lemma {:induction false} StreamSplits(s: Words, k: nat, n: nat)
    ensures Stream(s, 8 * k + n) == Stream(s, 8 * k) + Stream(After(s, k), n)
    decreases k
  {
    hide Next, LeBytes, Output;
    if k == 0 {
      StreamOfNone(s);
    } else {
      StreamSplits(Next(s), k - 1, n);
      AfterNext(s, k - 1);
      assert Stream(s, 8 * k) == LeBytes(Output(s)) + Stream(Next(s), 8 * (k - 1));
      assert Stream(s, 8 * k + n) == LeBytes(Output(s)) + Stream(Next(s), 8 * (k - 1) + n);
    }
  }

  lemma {:induction false} StreamOfNone(s: Words)
    ensures Stream(s, 0) == []
  {
    hide LeBytes, Output, Next;
  }

  lemma {:induction false} OneChunk(s: Words, size: nat)
    requires size <= 8
    ensures Stream(s, size) == LeBytes(Output(s))[..size]
  {
    hide LeBytes, Output, Next;
    if size == 8 { StreamOfNone(Next(s)); }
  }

  class SeededEntropy {
    var a: Word
    var b: Word
    var c: Word
    var d: Word

    function State(): Words
      reads this
    {
      Words(a, b, c, d)
    }

    constructor (seed: Word)
      ensures State() == Seeded(seed)
    {
      hide Mix, Plus;
      var z := Plus(seed, GAMMA);
      a := Mix(z);
      z := Plus(z, GAMMA);
      b := Mix(z);
      z := Plus(z, GAMMA);
      c := Mix(z);
      z := Plus(z, GAMMA);
      d := Mix(z);
      PlusPlus(seed, GAMMA, GAMMA);
      PlusPlus(seed, 2 * GAMMA, GAMMA);
      PlusPlus(seed, 3 * GAMMA, GAMMA);
      assert 1 * GAMMA == GAMMA && 2 * GAMMA == GAMMA + GAMMA;
      assert 3 * GAMMA == 2 * GAMMA + GAMMA && 4 * GAMMA == 3 * GAMMA + GAMMA;
    }

    method NextU64() returns (result: Word)
      modifies this
      ensures result == Output(old(State())) && State() == Next(old(State()))
    {
      hide Xor, ShiftLeft, RotateLeft, Times;
      result := Times(RotateLeft(Times(b, 5), 7), 9);
      var t := ShiftLeft(b, 17);
      c := Xor(c, a);
      d := Xor(d, b);
      b := Xor(b, c);
      a := Xor(a, d);
      c := Xor(c, t);
      d := RotateLeft(d, 45);
    }

    method Fill(buf: array<Byte>)
      modifies this, buf
      ensures buf[..] == Stream(old(State()), buf.Length)
      ensures State() == After(old(State()), Steps(buf.Length))
    {
      hide LeBytes, Next, Output;
      var at := 0;
      ghost var k := 0;
      StreamOfNone(State());
      while at < buf.Length
        invariant at <= buf.Length && (at == 8 * k || at == buf.Length) && (at == buf.Length ==> k == Steps(buf.Length))
        invariant State() == After(old(State()), k)
        invariant buf[..at] == Stream(old(State()), at)
      {
        ghost var was, before := State(), buf[..at];
        var word := NextU64();
        var bytes := LeBytes(word);
        var size := if buf.Length - at < 8 then buf.Length - at else 8;
        forall i | 0 <= i < size {
          buf[at + i] := bytes[i];
        }
        StreamSplits(old(State()), k, size);
        OneChunk(was, size);
        assert buf[..at + size] == before + bytes[..size];
        at := at + size;
        k := k + 1;
      }
    }
  }
}
