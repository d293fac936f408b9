/** Bytes, their lexicographic order, and big-endian numbers. */
module Bytes {

  type Byte = b: int | 0 <= b < 0x100

  const U64: int := 0x1_0000_0000_0000_0000
  type u64 = n: int | 0 <= n < U64

  datatype Option<+T> = None | Some(value: T)

  // ---- lexicographic order, the order of `Vec<u8>` and `[u8; 16]` ----

  predicate LexLess(a: seq<Byte>, b: seq<Byte>) {
    b != [] && (a == [] || a[0] < b[0] || (a[0] == b[0] && LexLess(a[1..], b[1..])))
  }

  lemma {:induction false} LexTotal(a: seq<Byte>, b: seq<Byte>)
    ensures LexLess(a, b) || a == b || LexLess(b, a)
    ensures !(LexLess(a, b) && LexLess(b, a)) && !LexLess(a, a)
  {
    if a != [] && b != [] {
      LexTotal(a[1..], b[1..]);
      assert a == [a[0]] + a[1..] && b == [b[0]] + b[1..];
    }
    if a != [] { LexTotal(a[1..], a[1..]); }
  }

  lemma {:induction false} LexTransitive(a: seq<Byte>, b: seq<Byte>, c: seq<Byte>)
    requires LexLess(a, b) && LexLess(b, c)
    ensures LexLess(a, c)
  {
    if a != [] { LexTransitiveTail(a, b, c); }
  }

  lemma {:induction false} LexTransitiveTail(a: seq<Byte>, b: seq<Byte>, c: seq<Byte>)
    requires a != [] && LexLess(a, b) && LexLess(b, c)
    ensures LexLess(a, c)
    decreases |a|
  {
    if a[0] == b[0] && b[0] == c[0] && a[1..] != [] { LexTransitiveTail(a[1..], b[1..], c[1..]); }
  }

  // ---- big-endian numbers ----

  function Pow256(k: nat): (p: nat)
    ensures p > 0
  {
    if k == 0 then 1 else 0x100 * Pow256(k - 1)
  }

  function ToBE(n: nat, width: nat): (s: seq<Byte>)
    ensures |s| == width
    decreases width
  {
    if width == 0 then [] else ToBE(n / 0x100, width - 1) + [n % 0x100]
  }

  function FromBE(s: seq<Byte>): (n: nat)
    ensures n < Pow256(|s|)
  {
    if s == [] then 0 else 0x100 * FromBE(s[..|s| - 1]) + s[|s| - 1]
  }

  lemma {:induction false} FromToBE(n: nat, width: nat)
    requires n < Pow256(width)
    ensures FromBE(ToBE(n, width)) == n
    decreases width
  {
    if width > 0 {
      FromToBE(n / 0x100, width - 1);
      assert ToBE(n, width)[..width - 1] == ToBE(n / 0x100, width - 1);
    }
  }
}
