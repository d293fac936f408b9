/** Base32 without padding: section 6 of RFC 4648, and the same packing under another alphabet. */
module Base32 {
  import opened Bytes

  type Digit = d: int | 0 <= d < 32

  // ---- bits, most significant first ----

  function ToNat(bits: seq<bool>): nat {
    if bits == [] then 0 else 2 * ToNat(bits[..|bits| - 1]) + (if bits[|bits| - 1] then 1 else 0)
  }

  function ToBits(n: nat, width: nat): (bits: seq<bool>)
    ensures |bits| == width
    decreases width
  {
    if width == 0 then [] else ToBits(n / 2, width - 1) + [n % 2 == 1]
  }

  function Pow2(k: nat): (p: nat)
    ensures p > 0
  {
    if k == 0 then 1 else 2 * Pow2(k - 1)
  }

  lemma {:induction false} ToNatBound(bits: seq<bool>)
    ensures ToNat(bits) < Pow2(|bits|)
  {
    if bits != [] { ToNatBound(bits[..|bits| - 1]); }
  }

  lemma {:induction false} ToNatAppend(a: seq<bool>, b: seq<bool>)
    ensures ToNat(a + b) == ToNat(a) * Pow2(|b|) + ToNat(b)
  {
    if b == [] {
      assert a + b == a;
    } else {
      var init := b[..|b| - 1];
      ToNatAppend(a, init);
      assert (a + b)[..|a + b| - 1] == a + init;
      assert 2 * (ToNat(a) * Pow2(|init|)) == ToNat(a) * Pow2(|b|);
    }
  }

  lemma {:induction false} ToBitsToNat(bits: seq<bool>)
    ensures ToBits(ToNat(bits), |bits|) == bits
  {
    if bits != [] {
      ToBitsToNat(bits[..|bits| - 1]);
      assert bits == bits[..|bits| - 1] + [bits[|bits| - 1]];
    }
  }

  lemma {:induction false} ToNatToBits(n: nat, width: nat)
    requires n < Pow2(width)
    ensures ToNat(ToBits(n, width)) == n
    decreases width
  {
    if width > 0 {
      ToNatToBits(n / 2, width - 1);
      assert ToBits(n, width)[..width - 1] == ToBits(n / 2, width - 1);
    }
  }

  lemma {:induction false} SmallPowers()
    ensures Pow2(5) == 32 && Pow2(8) == 0x100
  {
  }

  function ByteBits(b: Byte): (bits: seq<bool>)
    ensures |bits| == 8
  {
    ToBits(b, 8)
  }

  function BitsByte(bits: seq<bool>): Byte
    requires |bits| == 8
  {
    ToNatBound(bits);
    SmallPowers();
    ToNat(bits)
  }

  function DigitBits(d: Digit): (bits: seq<bool>)
    ensures |bits| == 5
  {
    ToBits(d, 5)
  }

  function Group(bits: seq<bool>): Digit
    requires |bits| == 5
  {
    ToNatBound(bits);
    SmallPowers();
    ToNat(bits)
  }

  lemma {:induction false} ByteRoundTrip(b: Byte)
    ensures BitsByte(ByteBits(b)) == b && ToNat(ByteBits(b)) == b
  {
    SmallPowers();
    ToNatToBits(b, 8);
  }

  lemma {:induction false} BitsByteRoundTrip(bits: seq<bool>)
    requires |bits| == 8
    ensures ByteBits(BitsByte(bits)) == bits
  {
    ToBitsToNat(bits);
  }

  lemma {:induction false} DigitRoundTrip(d: Digit)
    ensures Group(DigitBits(d)) == d
  {
    SmallPowers();
    ToNatToBits(d, 5);
  }

  lemma {:induction false} GroupRoundTrip(bits: seq<bool>)
    requires |bits| == 5
    ensures DigitBits(Group(bits)) == bits
  {
    ToBitsToNat(bits);
  }

  /** Shifting right and masking five bits picks the group that ends `after` bits from the end. */
  lemma {:induction false} ShiftAndMask(before: seq<bool>, group: seq<bool>, after: seq<bool>)
    requires |group| == 5
    ensures ToNat(before + group + after) / Pow2(|after|) % 32 == Group(group)
  {
    ToNatAppend(before + group, after);
    ToNatAppend(before, group);
    ToNatBound(after);
    DivideExact(ToNat(before + group), Pow2(|after|), ToNat(after));
    LowGroup(ToNat(before), group);
  }

  lemma {:induction false} LowGroup(high: nat, group: seq<bool>)
    requires |group| == 5
    ensures (high * Pow2(5) + ToNat(group)) % 32 == Group(group)
  {
    ToNatBound(group);
    SmallPowers();
  }

  lemma {:induction false} DivideExact(q: nat, d: nat, r: nat)
    requires r < d
    ensures (q * d + r) / d == q
  {
    var n := q * d + r;
    var x := n / d;
    assert n == x * d + n % d;
    if x > q { MulMonotone(q + 1, x, d); }
    if x < q { MulMonotone(x + 1, q, d); }
  }

  lemma {:induction false} MulMonotone(a: int, b: int, d: nat)
    requires a <= b
    ensures a * d <= b * d
  {
    assert (b - a) * d >= 0;
  }

  function BytesToBits(data: seq<Byte>): (bits: seq<bool>)
    ensures |bits| == 8 * |data|
  {
    if data == [] then [] else BytesToBits(data[..|data| - 1]) + ByteBits(data[|data| - 1])
  }

  function BitsToBytes(bits: seq<bool>): (data: seq<Byte>)
    requires |bits| % 8 == 0
    ensures 8 * |data| == |bits|
  {
    if bits == [] then [] else BitsToBytes(bits[..|bits| - 8]) + [BitsByte(bits[|bits| - 8..])]
  }

  function Zeros(n: nat): (bits: seq<bool>)
    ensures |bits| == n
  {
    seq(n, _ => false)
  }

  /** The zero bits that complete the last group of five. */
  function Padded(bits: seq<bool>): (padded: seq<bool>)
    ensures |padded| % 5 == 0 && bits <= padded && |padded| - |bits| < 5
  {
    bits + Zeros((5 - |bits| % 5) % 5)
  }

  lemma {:induction false} PaddedIs(bits: seq<bool>, n: nat)
    requires n < 5 && (|bits| + n) % 5 == 0
    ensures Padded(bits) == bits + Zeros(n)
  {
  }

  function Groups(bits: seq<bool>): (digits: seq<Digit>)
    requires |bits| % 5 == 0
    ensures 5 * |digits| == |bits|
  {
    if bits == [] then [] else Groups(bits[..|bits| - 5]) + [Group(bits[|bits| - 5..])]
  }

  /** The 5-bit digits of the zero-padded bit string. */
  function Digits(data: seq<Byte>): (digits: seq<Digit>)
    ensures |digits| == (8 * |data| + 4) / 5
  {
    Groups(Padded(BytesToBits(data)))
  }

  function DigitsToBits(digits: seq<Digit>): (bits: seq<bool>)
    ensures |bits| == 5 * |digits|
  {
    if digits == [] then [] else DigitsToBits(digits[..|digits| - 1]) + DigitBits(digits[|digits| - 1])
  }

  /** As many bits as make whole bytes. */
  function WholeBytes(n: nat): (w: nat)
    ensures w <= n < w + 8 && w % 8 == 0
  {
    n - n % 8
  }

  lemma {:induction false} WholeBytesIs(n: nat, count: nat)
    requires 8 * count <= n < 8 * count + 8
    ensures WholeBytes(n) == 8 * count
  {
  }

  /** Whole bytes are taken out; a leftover of a whole digit, or one that is not zero, refuses the text. */
  function Undigits(digits: seq<Digit>): Option<seq<Byte>> {
    var bits := DigitsToBits(digits);
    var whole := WholeBytes(|bits|);
    if |bits| - whole >= 5 || bits[whole..] != Zeros(|bits| - whole) then None
    else Some(BitsToBytes(bits[..whole]))
  }

  // ---- round trips ----

  lemma {:induction false} BytesRoundTrip(data: seq<Byte>)
    ensures BitsToBytes(BytesToBits(data)) == data
  {
    hide ByteBits, BitsByte;
    if data != [] {
      var init, last := data[..|data| - 1], data[|data| - 1];
      BytesRoundTrip(init);
      var bits := BytesToBits(init) + ByteBits(last);
      assert bits[..|bits| - 8] == BytesToBits(init) && bits[|bits| - 8..] == ByteBits(last);
      ByteRoundTrip(last);
      assert data == init + [last];
    }
  }

  lemma {:induction false} BitsRoundTrip(bits: seq<bool>)
    requires |bits| % 8 == 0
    ensures BytesToBits(BitsToBytes(bits)) == bits
  {
    hide ByteBits, BitsByte;
    if bits != [] {
      var init, last := bits[..|bits| - 8], bits[|bits| - 8..];
      BitsRoundTrip(init);
      BitsByteRoundTrip(last);
      var data := BitsToBytes(init) + [BitsByte(last)];
      assert data[..|data| - 1] == BitsToBytes(init) && data[|data| - 1] == BitsByte(last);
      assert bits == init + last;
    }
  }

  lemma {:induction false} GroupsRoundTrip(bits: seq<bool>)
    requires |bits| % 5 == 0
    ensures DigitsToBits(Groups(bits)) == bits
  {
    hide DigitBits, Group;
    if bits != [] {
      var init, last := bits[..|bits| - 5], bits[|bits| - 5..];
      GroupsRoundTrip(init);
      GroupRoundTrip(last);
      var digits := Groups(init) + [Group(last)];
      assert digits[..|digits| - 1] == Groups(init) && digits[|digits| - 1] == Group(last);
      assert bits == init + last;
    }
  }

  lemma {:induction false} NoGroups()
    ensures Groups([]) == []
  {
  }

  lemma {:induction false} DigitsRoundTrip(digits: seq<Digit>)
    ensures Groups(DigitsToBits(digits)) == digits
  {
    hide DigitBits, Group, Groups;
    if digits == [] {
      NoGroups();
    } else {
      var init, last := digits[..|digits| - 1], digits[|digits| - 1];
      DigitsRoundTrip(init);
      DigitRoundTrip(last);
      GroupsAppend(DigitsToBits(init), DigitBits(last));
      assert digits == init + [last];
    }
  }

  /** Text decodes to `data` exactly when it is the encoding of `data`: the decoder refuses everything else. */
  lemma {:induction false} UndigitsIffDigits(digits: seq<Digit>, data: seq<Byte>)
    ensures Undigits(digits) == Some(data) <==> digits == Digits(data)
  {
    if Undigits(digits) == Some(data) { UndigitsSound(digits, data); }
    if digits == Digits(data) { UndigitsComplete(data); }
  }

  lemma {:induction false} UndigitsSound(digits: seq<Digit>, data: seq<Byte>)
    requires Undigits(digits) == Some(data)
    ensures digits == Digits(data)
  {
    hide Digits, WholeBytes;
    var bits := DigitsToBits(digits);
    var whole := WholeBytes(|bits|);
    assert bits == bits[..whole] + Zeros(|bits| - whole);
    DigitsOfPadded(digits, bits[..whole], |bits| - whole);
  }

  lemma {:induction false} DigitsOfPadded(digits: seq<Digit>, front: seq<bool>, n: nat)
    requires DigitsToBits(digits) == front + Zeros(n) && |front| % 8 == 0 && n < 5
    ensures digits == Digits(BitsToBytes(front))
  {
    hide Group, DigitBits, ByteBits, BitsByte, Padded;
    assert |front| + n == 5 * |digits|;
    BitsRoundTrip(front);
    PaddedIs(front, n);
    DigitsRoundTrip(digits);
  }

  lemma {:induction false} UndigitsComplete(data: seq<Byte>)
    ensures Undigits(Digits(data)) == Some(data)
  {
    hide Group, DigitBits, ByteBits, BitsByte, Padded, WholeBytes;
    var raw := BytesToBits(data);
    var bits := Padded(raw);
    GroupsRoundTrip(bits);
    var n := |bits| - |raw|;
    PaddedIs(raw, n);
    WholeBytesIs(|bits|, |data|);
    assert bits[..|raw|] == raw && bits[|raw|..] == Zeros(n);
    BytesRoundTrip(data);
  }

  lemma {:induction false} DigitsInjective(a: seq<Byte>, b: seq<Byte>)
    requires Digits(a) == Digits(b)
    ensures a == b
  {
    UndigitsIffDigits(Digits(a), a);
    UndigitsIffDigits(Digits(a), b);
  }

  // ---- the packer ----

  /** The next five bits of `all`, of which `bits` are still to be written. */
  lemma {:induction false} NextGroup(all: seq<bool>, bits: nat)
    requires 5 <= bits <= |all| && (|all| - bits) % 5 == 0
    ensures Groups(all[..|all| - (bits - 5)]) == Groups(all[..|all| - bits]) + [ToNat(all) / Pow2(bits - 5) % 32]
  {
    hide Group, ByteBits, Pow2;
    var n := |all| - bits;
    var done, group, left := all[..n], all[n..n + 5], all[n + 5..];
    assert all == done + group + left && all[..n + 5] == done + group;
    ShiftAndMask(done, group, left);
    GroupsAppend(done, group);
  }

  lemma {:induction false} GroupsAppend(bits: seq<bool>, group: seq<bool>)
    requires |bits| % 5 == 0 && |group| == 5
    ensures Groups(bits + group) == Groups(bits) + [Group(group)]
  {
    hide Group, ByteBits, Pow2;
    var all := bits + group;
    assert all[..|all| - 5] == bits && all[|all| - 5..] == group;
  }

  /** The last, short group is shifted up so that zero bits complete it. */
  lemma {:induction false} LastGroup(all: seq<bool>, bits: nat)
    requires 0 < bits < 5 && bits <= |all| && (|all| - bits) % 5 == 0
    ensures Groups(Padded(all)) == Groups(all[..|all| - bits]) + [ToNat(all) * Pow2(5 - bits) % 32]
  {
    hide Group, Padded, Pow2;
    var done, last := all[..|all| - bits], all[|all| - bits..];
    PaddedIs(all, 5 - bits);
    LastValue(done, last);
    assert all == done + last && all + Zeros(5 - bits) == done + (last + Zeros(5 - bits));
    GroupsAppend(done, last + Zeros(5 - bits));
  }

  lemma {:induction false} LastValue(done: seq<bool>, last: seq<bool>)
    requires 0 < |last| < 5
    ensures ToNat(done + last) * Pow2(5 - |last|) % 32 == Group(last + Zeros(5 - |last|))
  {
    hide Group, Pow2;
    var zeros := Zeros(5 - |last|);
    ToNatAppend(done + last, zeros);
    ToNatZeros(5 - |last|);
    assert done + last + zeros == done + (last + zeros);
    ToNatAppend(done, last + zeros);
    LowGroup(ToNat(done), last + zeros);
  }

  /** `(acc << 8) | byte` */
  function Accumulated(acc: nat, byte: Byte): nat {
    acc * 0x100 + byte
  }

  /** `(acc >> bits) & 0x1F` */
  function FiveBits(acc: nat, bits: nat): Digit {
    acc / Pow2(bits) % 32
  }

  /** `(acc << (5 - bits)) & 0x1F` */
  function LastBits(acc: nat, bits: nat): Digit
    requires bits < 5
  {
    acc * Pow2(5 - bits) % 32
  }

  /** After `i` bytes: `acc` is all of them as one number, `out` every whole group, and `bits` bits wait. */
  ghost predicate Packed(data: seq<Byte>, i: nat, bits: nat, acc: nat, out: seq<Digit>)
    requires i <= |data|
  {
    var all := BytesToBits(data[..i]);
    acc == ToNat(all) && bits <= |all| && (|all| - bits) % 5 == 0 && out == Groups(all[..|all| - bits])
  }

  lemma {:induction false} PackNothing(data: seq<Byte>)
    ensures Packed(data, 0, 0, 0, [])
  {
  }

  lemma {:induction false} PackByte(data: seq<Byte>, i: nat, bits: nat, acc: nat, out: seq<Digit>)
    requires i < |data| && Packed(data, i, bits, acc, out)
    ensures Packed(data, i + 1, bits + 8, Accumulated(acc, data[i]), out)
  {
    hide Group, ByteBits, Pow2;
    AddByte(data, i);
    var before, all := BytesToBits(data[..i]), BytesToBits(data[..i + 1]);
    assert all[..|all| - (bits + 8)] == before[..|before| - bits];
  }

  lemma {:induction false} PackGroup(data: seq<Byte>, i: nat, bits: nat, acc: nat, out: seq<Digit>)
    requires i <= |data| && bits >= 5 && Packed(data, i, bits, acc, out)
    ensures Packed(data, i, bits - 5, acc, out + [FiveBits(acc, bits - 5)])
  {
    hide Group, ByteBits, Pow2;
    NextGroup(BytesToBits(data[..i]), bits);
  }

  lemma {:induction false} PackLast(data: seq<Byte>, bits: nat, acc: nat, out: seq<Digit>)
    requires bits < 5 && Packed(data, |data|, bits, acc, out)
    ensures Digits(data) == if bits > 0 then out + [LastBits(acc, bits)] else out
  {
    hide Group, ByteBits, Pow2;
    assert data[..|data|] == data;
    var all := BytesToBits(data);
    if bits > 0 {
      LastGroup(all, bits);
    } else {
      assert Padded(all) == all && all[..|all| - 0] == all;
    }
  }

  /** The accumulator is never masked: it holds every byte so far, and only its low bits are looked at. */
  method Pack(data: seq<Byte>) returns (out: seq<Digit>)
    ensures out == Digits(data)
  {
    out := [];
    var bits: nat, acc: nat, i: nat := 0, 0, 0;
    PackNothing(data);
    hide *;
    while i < |data|
      invariant i <= |data| && bits < 5
      invariant Packed(data, i, bits, acc, out)
    {
      PackByte(data, i, bits, acc, out);
      acc := Accumulated(acc, data[i]);
      bits := bits + 8;
      i := i + 1;
      while bits >= 5
        invariant Packed(data, i, bits, acc, out)
        decreases bits
      {
        PackGroup(data, i, bits, acc, out);
        bits := bits - 5;
        out := out + [FiveBits(acc, bits)];
      }
    }
    PackLast(data, bits, acc, out);
    if bits > 0 {
      out := out + [LastBits(acc, bits)];
    }
  }

  lemma {:induction false} ToNatZeros(n: nat)
    ensures ToNat(Zeros(n)) == 0
  {
    if n > 0 {
      ToNatZeros(n - 1);
      assert Zeros(n)[..n - 1] == Zeros(n - 1);
    }
  }

  lemma {:induction false} AddByte(data: seq<Byte>, i: nat)
    requires i < |data|
    ensures
      var all := BytesToBits(data[..i]) + ByteBits(data[i]);
      BytesToBits(data[..i + 1]) == all && ToNat(all) == ToNat(BytesToBits(data[..i])) * 0x100 + data[i]
  {
    hide ByteBits, BitsByte;
    assert data[..i + 1][..i] == data[..i];
    ToNatAppend(BytesToBits(data[..i]), ByteBits(data[i]));
    SmallPowers();
    ByteRoundTrip(data[i]);
  }
}
