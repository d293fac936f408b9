/** The order of keys, said byte by byte and number by number, and the bytes of section 3 of RFC 8949, from the examples of
    its Appendix A. */
module CanonicalOrder {
  import opened Bytes
  import opened Cbor
  import opened Canonical
  import Laws = CanonicalLaws
  import Theorems = CanonicalTheorems

  // ---- the order of byte strings ----

  /** Place `k` decides that `a` comes before `b`: either `a` ends there or its byte is the smaller. */
  predicate DecidedAt(a: seq<Byte>, b: seq<Byte>, k: nat) {
    k <= |a| && k < |b| && a[..k] == b[..k] && (k == |a| || a[k] < b[k])
  }

  /** `a` comes before `b` as byte strings do: at the first place where they differ, or as a proper prefix. */
  ghost predicate Before(a: seq<Byte>, b: seq<Byte>) {
    exists k: nat :: DecidedAt(a, b, k)
  }

  /** That is how the encoder compares keys. */
  lemma {:induction false} FirstDifferenceDecides(a: seq<Byte>, b: seq<Byte>)
    ensures LexLess(a, b) <==> Before(a, b)
  {
    if LexLess(a, b) {
      var k := Decided(a, b);
    }
    forall k: nat | DecidedAt(a, b, k) ensures LexLess(a, b) {
      Decides(a, b, k);
    }
  }

  lemma {:induction false} Decided(a: seq<Byte>, b: seq<Byte>) returns (k: nat)
    requires LexLess(a, b)
    ensures DecidedAt(a, b, k)
  {
    if a == [] || a[0] < b[0] {
      k := 0;
    } else {
      var l := Decided(a[1..], b[1..]);
      k := l + 1;
      assert a[..k] == [a[0]] + a[1..][..l] && b[..k] == [b[0]] + b[1..][..l];
    }
  }

  lemma {:induction false} Decides(a: seq<Byte>, b: seq<Byte>, k: nat)
    requires DecidedAt(a, b, k)
    ensures LexLess(a, b)
  {
    if k > 0 {
      assert a[0] == a[..k][0] && b[0] == b[..k][0];
      assert a[1..][..k - 1] == a[..k][1..] && b[1..][..k - 1] == b[..k][1..];
      Decides(a[1..], b[1..], k - 1);
    }
  }

  // ---- the order of keys ----

  /** In every map at every depth, of any two keys the later is written greater at the first byte that differs. */
  ghost predicate KeysRise(v: Value) {
    match v
    case Array(items) => forall i | 0 <= i < |items| :: KeysRise(items[i])
    case Map(es) =>
      (forall i | 0 <= i < |es| :: KeysRise(es[i].key) && KeysRise(es[i].val)) &&
      (forall i, j | 0 <= i < j < |es| :: Before(Write(es[i].key), Write(es[j].key)))
    case Tag(_, inner) => KeysRise(inner)
    case _ => true
  }

  lemma {:induction false} InOrderIsRising(v: Value)
    ensures InOrder(v) <==> KeysRise(v)
  {
    match v
    case Array(items) =>
      forall i | 0 <= i < |items| ensures InOrder(items[i]) <==> KeysRise(items[i]) {
        InOrderIsRising(items[i]);
      }
    case Map(es) =>
      forall i | 0 <= i < |es| ensures (InOrder(es[i].key) <==> KeysRise(es[i].key)) && (InOrder(es[i].val) <==> KeysRise(es[i].val)) {
        InOrderIsRising(es[i].key);
        InOrderIsRising(es[i].val);
      }
      AscendingIff(es);
    case Tag(_, inner) => InOrderIsRising(inner);
    case _ =>
  }

  lemma {:induction false} AscendingIff(es: seq<Entry>)
    ensures Ascending(es) <==> forall i, j | 0 <= i < j < |es| :: Before(Write(es[i].key), Write(es[j].key))
  {
    hide Before;
    if |es| >= 2 {
      var others := es[1..];
      AscendingIff(others);
      FirstDifferenceDecides(Write(es[0].key), Write(es[1].key));
      if Ascending(es) {
        forall i, j | 0 <= i < j < |es| ensures Before(Write(es[i].key), Write(es[j].key)) {
          if i == 0 {
            Laws.AscendingFromHead(es, j);
            FirstDifferenceDecides(Write(es[0].key), Write(es[j].key));
          } else {
            assert es[i] == others[i - 1] && es[j] == others[j - 1];
          }
        }
      }
      if forall i, j | 0 <= i < j < |es| :: Before(Write(es[i].key), Write(es[j].key)) {
        forall i, j | 0 <= i < j < |others| ensures Before(Write(others[i].key), Write(others[j].key)) {
          assert others[i] == es[i + 1] && others[j] == es[j + 1];
        }
      }
    }
  }

  /** What encodes, and what decodes, has its keys in that order. */
  lemma {:induction false} CanonicalRises(v: Value, bytes: seq<Byte>, limit: nat)
    requires |bytes| < U64
    ensures Canonicalize(v).Ok? ==> KeysRise(Canonicalize(v).value)
    ensures DecodeValue(bytes, limit).Ok? ==> KeysRise(DecodeValue(bytes, limit).value)
  {
    if Canonicalize(v).Ok? {
      Laws.CanonicalizeFaithful(v, limit);
      InOrderIsRising(Canonicalize(v).value);
    }
    if DecodeValue(bytes, limit).Ok? {
      Theorems.DecodeSound(bytes, limit);
      InOrderIsRising(DecodeValue(bytes, limit).value);
    }
  }

  // ---- what the order means for keys of one kind, and between kinds ----

  lemma {:induction false} LexAppend(a: seq<Byte>, b: seq<Byte>, x: seq<Byte>, y: seq<Byte>)
    requires |a| == |b|
    ensures LexLess(a, b) ==> LexLess(a + x, b + y)
    ensures a == b && LexLess(x, y) ==> LexLess(a + x, b + y)
  {
    if a == [] {
      assert a + x == x && b + y == y;
    } else {
      LexAppend(a[1..], b[1..], x, y);
      assert (a + x)[1..] == a[1..] + x && (b + y)[1..] == b[1..] + y;
    }
  }

  lemma {:induction false} BigEndianRises(m: nat, n: nat, width: nat)
    requires m < n < Pow256(width)
    ensures LexLess(ToBE(m, width), ToBE(n, width))
    decreases width
  {
    if width > 0 {
      if m / 0x100 < n / 0x100 {
        BigEndianRises(m / 0x100, n / 0x100, width - 1);
      }
      LexAppend(ToBE(m / 0x100, width - 1), ToBE(n / 0x100, width - 1), [m % 0x100], [n % 0x100]);
    }
  }

  lemma {:induction false} HeadsRise(major: nat, m: nat, n: nat)
    requires major < 8 && m < n < U64
    ensures LexLess(Head(major, m), Head(major, n))
  {
    var h, g := Head(major, m), Head(major, n);
    if h[0] == g[0] {
      var width := |h| - 1;
      PowersOf256();
      BigEndianRises(m, n, width);
      LexAppend([h[0]], [g[0]], ToBE(m, width), ToBE(n, width));
    }
  }

  /** Keys that are numbers come in numeric order, whatever their size. */
  lemma {:induction false} NumbersRise(m: nat, n: nat)
    requires m < U64 && n < U64
    ensures LexLess(Write(Integer(m)), Write(Integer(n))) <==> m < n
  {
    if m < n { HeadsRise(UNSIGNED, m, n); }
    if n < m { HeadsRise(UNSIGNED, n, m); }
    LexTotal(Write(Integer(m)), Write(Integer(n)));
  }

  /** The major types of section 3.1. */
  function Major(v: Value): nat {
    match v
    case Integer(n) => if n >= 0 then 0 else 1
    case Bytes(_) => 2
    case Text(_) => 3
    case Array(_) => 4
    case Map(_) => 5
    case Tag(_, _) => 6
    case _ => 7
  }

  /** Keys of different kinds come in the order of their major types. */
  lemma {:induction false} KindsRise(a: Value, b: Value)
    ensures Write(a)[0] / 32 == Major(a)
    ensures Major(a) < Major(b) ==> LexLess(Write(a), Write(b))
  {
    FirstByte(a);
    FirstByte(b);
  }

  lemma {:induction false} FirstByte(a: Value)
    ensures Write(a)[0] / 32 == Major(a)
  {
    match a
    case Integer(n) => HeadMajor(Major(a), if n >= 0 then n else -1 - n);
    case Bytes(s) => HeadMajor(2, |s|);
    case Text(s) => HeadMajor(3, |s|);
    case Array(items) => HeadMajor(4, |items|);
    case Map(es) => HeadMajor(5, |es|);
    case Tag(tag, inner) => HeadMajor(6, tag);
    case Bool(b) => HeadMajor(7, if b then 21 else 20);
    case Null => HeadMajor(7, 22);
  }

  lemma {:induction false} HeadMajor(major: nat, n: nat)
    requires major < 8
    ensures Head(major, n)[0] / 32 == major
  {
  }

  // ---- Appendix A of RFC 8949 ----

  lemma {:induction false} Snoc(n: nat, width: nat, x: Byte)
    ensures ToBE(0x100 * n + x, width + 1) == ToBE(n, width) + [x]
  {
  }

  /** A number after its last four bytes. */
  lemma {:induction false} Four(n: nat, width: nat, a: Byte, b: Byte, c: Byte, d: Byte)
    ensures ToBE(0x1_0000_0000 * n + 0x100_0000 * a + 0x1_0000 * b + 0x100 * c + d, width + 4) == ToBE(n, width) + [a, b, c, d]
  {
    Snoc(n, width, a);
    Snoc(0x100 * n + a, width + 1, b);
    Snoc(0x1_0000 * n + 0x100 * a + b, width + 2, c);
    Snoc(0x100_0000 * n + 0x1_0000 * a + 0x100 * b + c, width + 3, d);
    assert ToBE(n, width) + [a] + [b] + [c] + [d] == ToBE(n, width) + [a, b, c, d];
  }

  lemma {:induction false} Two(a: Byte, b: Byte)
    ensures ToBE(a, 1) == [a] && ToBE(0x100 * a + b, 2) == [a, b]
  {
    assert ToBE(0, 0) == [];
    Snoc(0, 0, a);
    Snoc(a, 1, b);
  }

  lemma {:induction false} WrittenSmall()
    ensures Write(Integer(0)) == [0x00] && Write(Integer(3)) == [0x03] && Write(Integer(10)) == [0x0a] && Write(Integer(23)) == [0x17]
    ensures Write(Integer(24)) == [0x18, 0x18] && Write(Integer(100)) == [0x18, 0x64] && Write(Integer(1000)) == [0x19, 0x03, 0xe8]
    ensures Write(Integer(-1)) == [0x20] && Write(Integer(-100)) == [0x38, 0x63] && Write(Integer(-1000)) == [0x39, 0x03, 0xe7]
    ensures Write(Bool(false)) == [0xf4] && Write(Bool(true)) == [0xf5] && Write(Null) == [0xf6]
  {
    Two(24, 0);
    Two(100, 0);
    Two(99, 0);
    Two(3, 0xe8);
    Two(3, 0xe7);
  }

  /** A head of four bytes, and one of eight, the most significant first. */
  lemma {:induction false} LongHead(major: nat, n: nat, a: Byte, b: Byte, c: Byte, d: Byte)
    requires major < 8 && n == 0x100_0000 * a + 0x1_0000 * b + 0x100 * c + d && n >= 0x1_0000
    ensures Head(major, n) == [0x20 * major + 26, a, b, c, d]
  {
    Four(0, 0, a, b, c, d);
    assert ToBE(0, 0) == [];
  }

  lemma {:induction false} LongestHead(major: nat, high: nat, a: Byte, b: Byte, c: Byte, d: Byte, e: Byte, f: Byte, g: Byte, h: Byte)
    requires major < 8 && high == 0x100_0000 * a + 0x1_0000 * b + 0x100 * c + d && high > 0
    ensures Head(major, 0x1_0000_0000 * high + 0x100_0000 * e + 0x1_0000 * f + 0x100 * g + h) == [0x20 * major + 27, a, b, c, d, e, f, g, h]
  {
    assert ToBE(0, 0) == [];
    Four(0, 0, a, b, c, d);
    Four(high, 4, e, f, g, h);
  }

  lemma {:induction false} WrittenLarge()
    ensures Write(Integer(1000000)) == [0x1a, 0x00, 0x0f, 0x42, 0x40]
    ensures Write(Integer(1000000000000)) == [0x1b, 0x00, 0x00, 0x00, 0xe8, 0xd4, 0xa5, 0x10, 0x00]
    ensures Write(Integer(18446744073709551615)) == [0x1b, 0xff, 0xff, 0xff, 0xff, 0xff, 0xff, 0xff, 0xff]
    ensures Write(Integer(-18446744073709551616)) == [0x3b, 0xff, 0xff, 0xff, 0xff, 0xff, 0xff, 0xff, 0xff]
  {
    hide Head;
    LongHead(0, 1000000, 0x00, 0x0f, 0x42, 0x40);
    LongestHead(0, 0xe8, 0x00, 0x00, 0x00, 0xe8, 0xd4, 0xa5, 0x10, 0x00);
    LongestHead(0, 0xffff_ffff, 0xff, 0xff, 0xff, 0xff, 0xff, 0xff, 0xff, 0xff);
    LongestHead(1, 0xffff_ffff, 0xff, 0xff, 0xff, 0xff, 0xff, 0xff, 0xff, 0xff);
  }

  /** h'01020304' and 1(1363896240). */
  lemma {:induction false} WrittenWrapped()
    ensures Write(Bytes([1, 2, 3, 4])) == [0x44, 0x01, 0x02, 0x03, 0x04]
    ensures Write(Tag(1, Integer(1363896240))) == [0xc1, 0x1a, 0x51, 0x4b, 0x67, 0xb0]
  {
    LongHead(0, 1363896240, 0x51, 0x4b, 0x67, 0xb0);
    assert Write(Integer(1363896240)) == [0x1a, 0x51, 0x4b, 0x67, 0xb0];
  }

  /** [1, 2, 3] is 83 01 02 03. */
  lemma {:induction false} WrittenArray(u: Value, v: Value, w: Value)
    ensures Write(Array([u, v, w])) == [0x83] + (Write(u) + (Write(v) + Write(w)))
  {
    assert [u] + [v, w] == [u, v, w] && [v] + [w] == [v, w] && [w] + [] == [w];
    WrittenItems(u, [v, w]);
    WrittenItems(v, [w]);
    WrittenItems(w, []);
    assert WriteItems([w]) == Write(w);
  }

  /** {1: 2, 3: 4} is a2 01 02 03 04. */
  lemma {:induction false} WrittenMap(e: Entry, f: Entry)
    ensures Write(Map([e, f])) == [0xa2] + (WriteEntry(e) + WriteEntry(f))
  {
    assert [e] + [f] == [e, f] && [f] + [] == [f];
    WrittenEntries(e, [f]);
    WrittenEntries(f, []);
    assert WriteEntries([f]) == WriteEntry(f);
  }

  lemma {:induction false} WrittenItems(v: Value, others: seq<Value>)
    ensures WriteItems([v] + others) == Write(v) + WriteItems(others)
  {
    assert ([v] + others)[1..] == others;
  }

  lemma {:induction false} WrittenEntries(e: Entry, others: seq<Entry>)
    ensures WriteEntries([e] + others) == WriteEntry(e) + WriteEntries(others)
  {
    assert ([e] + others)[1..] == others;
  }

  /** "a", and "IETF". */
  lemma {:induction false} WrittenText()
    ensures ValidUtf8([0x61]) && Write(Text([0x61])) == [0x61, 0x61]
    ensures ValidUtf8([0x49, 0x45, 0x54, 0x46]) && Write(Text([0x49, 0x45, 0x54, 0x46])) == [0x64, 0x49, 0x45, 0x54, 0x46]
  {
    assert ValidUtf8([]) && ValidUtf8([0x46]) && ValidUtf8([0x54, 0x46]) && ValidUtf8([0x45, 0x54, 0x46]) by {
      assert [0x46][1..] == [] && [0x54, 0x46][1..] == [0x46] && [0x45, 0x54, 0x46][1..] == [0x54, 0x46];
    }
    assert [0x49, 0x45, 0x54, 0x46][1..] == [0x45, 0x54, 0x46] && [0x61][1..] == [];
  }

  /** The keys 3 and 24, given the other way round, come out in this order. */
  lemma {:induction false} ThreeBeforeTwentyFour(u: Value, v: Value)
    requires Canonicalize(u) == Ok(u) && Canonicalize(v) == Ok(v)
    ensures EncodeValue(Map([Entry(Integer(24), u), Entry(Integer(3), v)])) == Ok([0xa2, 0x03] + Write(v) + [0x18, 0x18] + Write(u))
  {
    hide Write;
    var e, f := Entry(Integer(24), u), Entry(Integer(3), v);
    var k, l := Keyed(Write(e.key), e), Keyed(Write(f.key), f);
    assert CanonicalEntry(e) == Ok(k) && CanonicalEntry(f) == Ok(l);
    NumbersRise(3, 24);
    TwoSwapped(e, f, k, l);
    WrittenMap(f, e);
    WrittenSmall();
    Joined(f, e);
    assert Write(f.key) == [0x03] && Write(e.key) == [0x18, 0x18];
    assert [0xa2] + [0x03] + Write(v) + [0x18, 0x18] + Write(u) == [0xa2, 0x03] + Write(v) + [0x18, 0x18] + Write(u);
  }

  lemma {:induction false} Joined(e: Entry, f: Entry)
    ensures [0xa2] + (WriteEntry(e) + WriteEntry(f)) == [0xa2] + Write(e.key) + Write(e.val) + Write(f.key) + Write(f.val)
  {
  }

  lemma {:induction false} TwoSwapped(e: Entry, f: Entry, k: Keyed, l: Keyed)
    requires CanonicalEntry(e) == Ok(k) && CanonicalEntry(f) == Ok(l) && LexLess(l.bytes, k.bytes) && k.entry == e && l.entry == f
    ensures Canonicalize(Map([e, f])) == Ok(Map([f, e]))
  {
    var es := [e, f];
    assert es[1..] == [f] && [f][1..] == [];
    assert CanonicalEntries([f][1..]) == Ok([]);
    assert [l] + [] == [l];
    assert CanonicalEntries([f]) == Ok([l]);
    assert CanonicalEntries(es) == Ok([k] + [l]);
    var ks := [k] + [l];
    assert ks[1..] == [l] && [l][1..] == [];
    LexTotal(k.bytes, l.bytes);
    assert SortByKey([l]) == [l] && Insert(k, []) == [k] && Insert(k, [l]) == [l] + [k];
    var sorted := [l] + [k];
    assert SortByKey(ks) == sorted && sorted[1..] == [k];
    assert FirstDuplicate(sorted) == None && EntriesOf(sorted) == [f, e];
  }

  // ---- what is refused, and as what ----

  /** Of the keys that occur twice the one that sorts first is reported. */
  lemma {:induction false} DuplicateReported(s: seq<Keyed>) returns (i: nat)
    requires FirstDuplicate(s).Some?
    ensures i + 1 < |s| && s[i].bytes == s[i + 1].bytes == FirstDuplicate(s).value
    ensures forall j | 0 <= j < i :: s[j].bytes != s[j + 1].bytes
  {
    if s[0].bytes == s[1].bytes {
      i := 0;
    } else {
      var t := s[1..];
      i := DuplicateReported(t);
      assert s[i + 1] == t[i] && s[i + 2] == t[i + 1];
      i := i + 1;
      forall j | 0 <= j < i ensures s[j].bytes != s[j + 1].bytes {
        if j > 0 { assert s[j] == t[j - 1] && s[j + 1] == t[j]; }
      }
    }
  }

  lemma {:induction false} OnlyDuplicates(v: Value)
    ensures Canonicalize(v).Err? ==> Canonicalize(v).error.DuplicateKey?
  {
    match v
    case Array(items) => OnlyDuplicatesItems(items);
    case Map(es) => OnlyDuplicatesEntries(es);
    case Tag(_, inner) => OnlyDuplicates(inner);
    case _ =>
  }

  lemma {:induction false} OnlyDuplicatesItems(items: seq<Value>)
    ensures CanonicalItems(items).Err? ==> CanonicalItems(items).error.DuplicateKey?
  {
    if items != [] {
      OnlyDuplicates(items[0]);
      OnlyDuplicatesItems(items[1..]);
    }
  }

  lemma {:induction false} OnlyDuplicatesEntries(es: seq<Entry>)
    ensures CanonicalEntries(es).Err? ==> CanonicalEntries(es).error.DuplicateKey?
  {
    if es != [] {
      OnlyDuplicatesEntry(es[0]);
      OnlyDuplicatesEntries(es[1..]);
    }
  }

  lemma {:induction false} OnlyDuplicatesEntry(e: Entry)
    ensures CanonicalEntry(e).Err? ==> CanonicalEntry(e).error.DuplicateKey?
  {
    OnlyDuplicates(e.key);
    OnlyDuplicates(e.val);
  }

  /** What does not read is `Decode`; what reads and has one key twice in some map is `DuplicateKey`; what reads, has no
      key twice and is not the encoding of what it says is `NotCanonical`. */
  lemma {:induction false} DecodeRefuses(bytes: seq<Byte>, limit: nat)
    requires |bytes| < U64
    ensures
      var r, got := DecodeValue(bytes, limit), Read(bytes, limit);
      (r == Err(Decode) <==> got.Fail?) &&
      ((r.Err? && r.error.DuplicateKey?) <==> got.Got? && !Unambiguous(got.value)) &&
      (r == Err(NotCanonical) <==> got.Got? && Unambiguous(got.value) && EncodeValue(got.value) != Ok(bytes))
  {
    match Read(bytes, limit)
    case Fail =>
    case Got(v, _) =>
      Theorems.ReadReadable(bytes, limit);
      Theorems.EncodesIffUnambiguous(v, limit);
      OnlyDuplicates(v);
  }
}
