/** The fingerprint people compare: fifteen bytes of a digest as six groups of four symbols. */
module Fingerprints {
  import opened Bytes
  import B32 = Base32

  const FP_ALPHABET := "0123456789ABCDEFGHJKMNPQRSTVWXYZ"
  const FP_BYTES := 15
  const FP_GROUPS := 6
  const FP_GROUP_LEN := 4

  function Symbol(d: B32.Digit): char {
    FP_ALPHABET[d]
  }

  /** Which digit a symbol stands for. The alphabet leaves out I, L, O and U. */
  function DigitOf(c: char): int {
    var n := c as int;
    if n <= '9' as int then n - '0' as int
    else if n <= 'H' as int then n - 'A' as int + 10
    else if n <= 'K' as int then n - 'J' as int + 18
    else if n <= 'N' as int then n - 'M' as int + 20
    else if n <= 'T' as int then n - 'P' as int + 22
    else n - 'V' as int + 27
  }

  lemma {:induction false} SymbolsDiffer(d: B32.Digit)
    ensures DigitOf(Symbol(d)) == d
  {
  }

  function Symbols(digits: seq<B32.Digit>): (text: string)
    ensures |text| == |digits|
  {
    seq(|digits|, i requires 0 <= i < |digits| => Symbol(digits[i]))
  }

  /** The text cut into pieces of four, as many as there are groups; slices past the end are short. */
  function Group(text: string, i: nat): string {
    if FP_GROUP_LEN * i >= |text| then []
    else if FP_GROUP_LEN * (i + 1) > |text| then text[FP_GROUP_LEN * i..]
    else text[FP_GROUP_LEN * i..FP_GROUP_LEN * (i + 1)]
  }

  function Grouped(text: string): (groups: seq<string>)
    ensures |groups| == FP_GROUPS
  {
    seq(FP_GROUPS, i requires 0 <= i < FP_GROUPS => Group(text, i))
  }

  function JoinedBy(groups: seq<string>): string {
    if groups == [] then []
    else if |groups| == 1 then groups[0]
    else groups[0] + "-" + JoinedBy(groups[1..])
  }

  function Fingerprint(digest: seq<Byte>): string
    requires |digest| >= FP_BYTES
  {
    JoinedBy(Grouped(Symbols(B32.Digits(digest[..FP_BYTES]))))
  }

  function Concat(groups: seq<string>): string {
    if groups == [] then [] else groups[0] + Concat(groups[1..])
  }

  /** Twenty-four symbols are cut into exactly six groups of four, and nothing is left over. */
  lemma {:induction false} SixGroupsOfFour(text: string)
    requires |text| == 24
    ensures forall i | 0 <= i < FP_GROUPS :: |Grouped(text)[i]| == FP_GROUP_LEN
    ensures Concat(Grouped(text)) == text
  {
    var g := Grouped(text);
    assert Concat(g[6..]) == [];
    assert g[5..][1..] == g[6..] && g[4..][1..] == g[5..] && g[3..][1..] == g[4..];
    assert g[2..][1..] == g[3..] && g[1..][1..] == g[2..];
    assert Concat(g[5..]) == text[20..];
    assert Concat(g[4..]) == text[16..];
    assert Concat(g[3..]) == text[12..];
    assert Concat(g[2..]) == text[8..];
    assert Concat(g[1..]) == text[4..];
  }

  /** Groups of one length are read back from their joined text. */
  lemma {:induction false} JoinedApart(a: seq<string>, b: seq<string>)
    requires |a| == |b| && JoinedBy(a) == JoinedBy(b)
    requires forall i | 0 <= i < |a| :: |a[i]| == FP_GROUP_LEN && |b[i]| == FP_GROUP_LEN
    ensures a == b
  {
    if |a| == 1 {
      assert a == [a[0]] && b == [b[0]];
    } else if |a| > 1 {
      var s, t := JoinedBy(a), JoinedBy(b);
      assert a[0] == s[..FP_GROUP_LEN] && b[0] == t[..FP_GROUP_LEN];
      assert JoinedBy(a[1..]) == s[FP_GROUP_LEN + 1..] && JoinedBy(b[1..]) == t[FP_GROUP_LEN + 1..];
      JoinedApart(a[1..], b[1..]);
      assert a == [a[0]] + a[1..] && b == [b[0]] + b[1..];
    }
  }

  lemma {:induction false} SymbolsApart(d: seq<B32.Digit>, e: seq<B32.Digit>)
    requires Symbols(d) == Symbols(e)
    ensures d == e
  {
    assert |Symbols(d)| == |Symbols(e)|;
    forall i | 0 <= i < |d| ensures d[i] == e[i] {
      assert Symbols(d)[i] == Symbols(e)[i];
      SymbolsDiffer(d[i]);
      SymbolsDiffer(e[i]);
    }
  }

  /** Two digests look alike to people exactly when their first fifteen bytes are the same. */
  lemma {:induction false} FingerprintIff(a: seq<Byte>, b: seq<Byte>)
    requires |a| >= FP_BYTES && |b| >= FP_BYTES
    ensures Fingerprint(a) == Fingerprint(b) <==> a[..FP_BYTES] == b[..FP_BYTES]
  {
    if Fingerprint(a) == Fingerprint(b) {
      var s, t := Symbols(B32.Digits(a[..FP_BYTES])), Symbols(B32.Digits(b[..FP_BYTES]));
      SixGroupsOfFour(s);
      SixGroupsOfFour(t);
      JoinedApart(Grouped(s), Grouped(t));
      SymbolsApart(B32.Digits(a[..FP_BYTES]), B32.Digits(b[..FP_BYTES]));
      B32.DigitsInjective(a[..FP_BYTES], b[..FP_BYTES]);
    }
  }
}
