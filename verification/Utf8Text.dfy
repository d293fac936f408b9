/** UTF-8 by section 3 of RFC 3629, against the recognizer of section 4: what a text may hold is exactly the encodings of
    sequences of Unicode scalar values. */
module Utf8Text {
  import opened Bytes
  import opened Cbor

  /** A code point that is not a surrogate. */
  type Scalar = c: int | 0 <= c <= 0x10FFFF && !(0xD800 <= c <= 0xDFFF)

  function Encode(c: Scalar): (s: seq<Byte>)
    ensures 1 <= |s| <= 4
  {
    if c < 0x80 then [c]
    else if c < 0x800 then [0xC0 + c / 0x40, 0x80 + c % 0x40]
    else if c < 0x1_0000 then [0xE0 + c / 0x1000, 0x80 + c / 0x40 % 0x40, 0x80 + c % 0x40]
    else [0xF0 + c / 0x4_0000, 0x80 + c / 0x1000 % 0x40, 0x80 + c / 0x40 % 0x40, 0x80 + c % 0x40]
  }

  function EncodeAll(cs: seq<Scalar>): seq<Byte> {
    if cs == [] then [] else Encode(cs[0]) + EncodeAll(cs[1..])
  }

  /** A text is what some sequence of scalar values encodes to. */
  ghost predicate EncodesSomething(s: seq<Byte>) {
    exists cs: seq<Scalar> :: EncodeAll(cs) == s
  }

  lemma {:induction false} ValidIffEncoded(s: seq<Byte>)
    ensures ValidUtf8(s) <==> EncodesSomething(s)
  {
    if ValidUtf8(s) {
      var cs := Decoded(s);
    }
    forall cs: seq<Scalar> | EncodeAll(cs) == s ensures ValidUtf8(s) {
      EncodedIsValid(cs);
    }
  }

  lemma {:induction false} EncodedIsValid(cs: seq<Scalar>)
    ensures ValidUtf8(EncodeAll(cs))
  {
    if cs != [] {
      EncodedIsValid(cs[1..]);
      OneMore(cs[0], EncodeAll(cs[1..]));
    }
  }

  lemma {:induction false} OneMore(c: Scalar, rest: seq<Byte>)
    requires ValidUtf8(rest)
    ensures ValidUtf8(Encode(c) + rest)
  {
    var s := Encode(c) + rest;
    if c < 0x80 {
      assert s[1..] == rest;
    } else if c < 0x800 {
      assert s[2..] == rest;
    } else if c < 0x1_0000 {
      OneMoreOfThree(c, rest);
    } else {
      OneMoreOfFour(c, rest);
    }
  }

  lemma {:induction false} OneMoreOfThree(c: Scalar, rest: seq<Byte>)
    requires ValidUtf8(rest) && 0x800 <= c < 0x1_0000
    ensures ValidUtf8(Encode(c) + rest)
  {
    var s := Encode(c) + rest;
    assert s[3..] == rest && s[0] == 0xE0 + c / 0x1000 && s[1] == 0x80 + c / 0x40 % 0x40 && Tail(s[1]) && Tail(s[2]);
  }

  lemma {:induction false} OneMoreOfFour(c: Scalar, rest: seq<Byte>)
    requires ValidUtf8(rest) && 0x1_0000 <= c
    ensures ValidUtf8(Encode(c) + rest)
  {
    var s := Encode(c) + rest;
    assert s[4..] == rest && s[0] == 0xF0 + c / 0x4_0000 && s[1] == 0x80 + c / 0x1000 % 0x40 && Tail(s[1]) && Tail(s[2]) && Tail(s[3]);
  }

  lemma {:induction false} Decoded(s: seq<Byte>) returns (cs: seq<Scalar>)
    requires ValidUtf8(s)
    ensures EncodeAll(cs) == s
  {
    if s == [] {
      cs := [];
    } else {
      var c, n := First(s);
      var others := Decoded(s[n..]);
      cs := [c] + others;
      assert cs[1..] == others && s == s[..n] + s[n..];
    }
  }

  lemma {:induction false} Groups(a: nat, b: nat, c: nat, d: nat)
    requires b < 0x40 && c < 0x40 && d < 0x40
    ensures
      var x := 0x4_0000 * a + 0x1000 * b + 0x40 * c + d;
      x / 0x4_0000 == a && x / 0x1000 == 0x40 * a + b && x / 0x1000 % 0x40 == b && x / 0x40 % 0x40 == c && x % 0x40 == d
  {
    var x := 0x4_0000 * a + 0x1000 * b + 0x40 * c + d;
    Group(0x1000 * a + 0x40 * b + c, d);
    Group(0x40 * a + b, c);
    Group(a, b);
    Twice(x);
    Twice(x / 0x40);
    assert x / 0x40 == 0x1000 * a + 0x40 * b + c;
    assert x / 0x1000 == 0x40 * a + b;
    assert x / 0x4_0000 == x / 0x40 / 0x1000;
  }

  lemma {:induction false} Group(q: nat, r: nat)
    requires r < 0x40
    ensures (0x40 * q + r) / 0x40 == q && (0x40 * q + r) % 0x40 == r
  {
  }

  lemma {:induction false} Twice(x: nat)
    ensures x / 0x1000 == x / 0x40 / 0x40 && x / 0x4_0000 == x / 0x40 / 0x1000
  {
  }

  lemma {:induction false} First(s: seq<Byte>) returns (c: Scalar, n: nat)
    requires ValidUtf8(s) && s != []
    ensures 1 <= n <= |s| && Encode(c) == s[..n] && ValidUtf8(s[n..])
  {
    if s[0] < 0x80 {
      c, n := s[0], 1;
    } else if s[0] <= 0xDF {
      c := OfTwo(s[0] - 0xC0, s[1] - 0x80);
      n := 2;
    } else if s[0] <= 0xEF {
      c := OfThree(s[0] - 0xE0, s[1] - 0x80, s[2] - 0x80);
      n := 3;
    } else {
      c := OfFour(s[0] - 0xF0, s[1] - 0x80, s[2] - 0x80, s[3] - 0x80);
      n := 4;
    }
  }

  lemma {:induction false} OfTwo(a: nat, b: nat) returns (c: Scalar)
    requires 2 <= a < 0x20 && b < 0x40
    ensures Encode(c) == [0xC0 + a, 0x80 + b]
  {
    c := 0x40 * a + b;
  }

  lemma {:induction false} OfThree(a: nat, b: nat, d: nat) returns (c: Scalar)
    requires a < 0x10 && b < 0x40 && d < 0x40 && (a == 0 ==> b >= 0x20) && (a == 0xD ==> b < 0x20)
    ensures Encode(c) == [0xE0 + a, 0x80 + b, 0x80 + d]
  {
    Groups(0, a, b, d);
    c := 0x1000 * a + 0x40 * b + d;
  }

  lemma {:induction false} OfFour(a: nat, b: nat, d: nat, e: nat) returns (c: Scalar)
    requires a <= 4 && b < 0x40 && d < 0x40 && e < 0x40 && (a == 0 ==> b >= 0x10) && (a == 4 ==> b < 0x10)
    ensures Encode(c) == [0xF0 + a, 0x80 + b, 0x80 + d, 0x80 + e]
  {
    Groups(a, b, d, e);
    c := 0x4_0000 * a + 0x1000 * b + 0x40 * d + e;
  }
}
