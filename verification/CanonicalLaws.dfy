/** What the canonical encoding promises: one byte string per value, and one value per byte string. */
module CanonicalLaws {
  import opened Bytes
  import opened Cbor
  import opened Canonical

  /** A value the reader can give back: lengths a machine has, nesting within its limit. */
  predicate Readable(v: Value, limit: nat) {
    Fits(v) && Within(v, limit)
  }

  lemma {:induction false} WriteInjective(a: Value, b: Value, limit: nat)
    requires Readable(a, limit) && Readable(b, limit) && Write(a) == Write(b)
    ensures a == b
  {
    hide Fits, Within, Write, Read;
    ReadWrite(a, limit, []);
    ReadWrite(b, limit, []);
    assert Write(a) + [] == Write(b) + [];
  }

  // ---- order ----

  lemma {:induction false} AscendingFromHead(es: seq<Entry>, j: nat)
    requires Ascending(es) && 0 < j < |es|
    ensures LexLess(Write(es[0].key), Write(es[j].key))
  {
    hide Write;
    if j > 1 {
      AscendingFromHead(es[1..], j - 1);
      LexTransitive(Write(es[0].key), Write(es[1].key), Write(es[j].key));
    }
  }

  /** Values in order that mean the same are the same. */
  lemma {:induction false} InOrderUnique(a: Value, b: Value)
    requires InOrder(a) && InOrder(b) && Denote(a) == Denote(b)
    ensures a == b
    decreases a, 1
  {
    match a
    case Array(items) =>
      forall i | 0 <= i < |items| ensures items[i] == b.items[i] {
        assert DenoteItems(items)[i] == DenoteItems(b.items)[i];
        InOrderUnique(items[i], b.items[i]);
      }
      assert items == b.items;
    case Map(es) => EntriesInOrderUnique(es, b.entries);
    case Tag(_, inner) => InOrderUnique(inner, b.inner);
    case _ =>
  }

  predicate AllInOrder(es: seq<Entry>) {
    forall i | 0 <= i < |es| :: InOrder(es[i].key) && InOrder(es[i].val)
  }

  function PairBag(es: seq<Entry>): multiset<Pair> {
    multiset(DenoteEntries(es))
  }

  lemma {:induction false} EntriesInOrderUnique(es: seq<Entry>, fs: seq<Entry>)
    requires AllInOrder(es) && AllInOrder(fs) && Ascending(es) && Ascending(fs)
    requires PairBag(es) == PairBag(fs)
    ensures es == fs
    decreases es, 0
  {
    hide Write, PairBag;
    BagSize(es);
    BagSize(fs);
    if es != [] {
      var j := BagIndex(fs, es);
      var i := BagIndex(es, fs);
      EntryInOrderUnique(es[0], fs[j]);
      EntryInOrderUnique(es[i], fs[0]);
      HeadsAgree(es, fs, i, j);
      BagFront(es);
      BagFront(fs);
      EntriesInOrderUnique(es[1..], fs[1..]);
      assert es == [es[0]] + es[1..] && fs == [fs[0]] + fs[1..];
    }
  }

  lemma {:induction false} BagSize(es: seq<Entry>)
    ensures |PairBag(es)| == |es|
  {
  }

  lemma {:induction false} BagFront(es: seq<Entry>)
    requires es != []
    ensures PairBag(es) == multiset{DenoteEntry(es[0])} + PairBag(es[1..])
    ensures PairBag(es[1..]) == PairBag(es) - multiset{DenoteEntry(es[0])}
  {
    assert DenoteEntries(es) == [DenoteEntry(es[0])] + DenoteEntries(es[1..]);
  }

  /** The head of one list is somewhere in the other. */
  lemma {:induction false} BagIndex(es: seq<Entry>, fs: seq<Entry>) returns (i: nat)
    requires fs != [] && PairBag(es) == PairBag(fs)
    ensures i < |es| && DenoteEntry(es[i]) == DenoteEntry(fs[0])
  {
    var ps, qs := DenoteEntries(es), DenoteEntries(fs);
    assert qs[0] in multiset(ps);
    i :| 0 <= i < |es| && ps[i] == qs[0];
  }

  lemma {:induction false} HeadsAgree(es: seq<Entry>, fs: seq<Entry>, i: nat, j: nat)
    requires Ascending(es) && Ascending(fs) && i < |es| && j < |fs| && es[0] == fs[j] && es[i] == fs[0]
    ensures es[0] == fs[0]
  {
    hide Write;
    if j > 0 { AscendingFromHead(fs, j); }
    if i > 0 { AscendingFromHead(es, i); }
    LexTotal(Write(es[0].key), Write(fs[0].key));
  }

  lemma {:induction false} EntryInOrderUnique(e: Entry, f: Entry)
    requires InOrder(e.key) && InOrder(e.val) && InOrder(f.key) && InOrder(f.val)
    requires DenoteEntry(e) == DenoteEntry(f)
    ensures e == f
    decreases e, 2
  {
    InOrderUnique(e.key, f.key);
    InOrderUnique(e.val, f.val);
  }

  // ---- canonicalizing keeps the meaning and puts it in order ----

  /** `c` is what canonicalizing made of `v`. */
  predicate Faithful(v: Value, c: Value, limit: nat) {
    InOrder(c) && Denote(c) == Denote(v) && (Readable(v, limit) <==> Readable(c, limit))
  }

  predicate FaithfulEntry(e: Entry, k: Keyed, limit: nat) {
    k.bytes == Write(k.entry.key) && Faithful(e.key, k.entry.key, limit) && Faithful(e.val, k.entry.val, limit)
  }

  predicate AllFaithful(es: seq<Entry>, ks: seq<Keyed>, limit: nat) {
    |ks| == |es| && forall i | 0 <= i < |es| :: FaithfulEntry(es[i], ks[i], limit)
  }

  function Below(limit: nat): nat {
    if limit == 0 then 0 else limit - 1
  }

  lemma {:induction false} CanonicalizeFaithful(v: Value, limit: nat)
    requires Canonicalize(v).Ok?
    ensures Faithful(v, Canonicalize(v).value, limit)
    decreases v, 1
  {
    var c := Canonicalize(v).value;
    var below := Below(limit);
    match v
    case Array(items) =>
      CanonicalItemsFaithful(items, below);
      ArrayFaithful(items, c.items, limit);
    case Map(es) =>
      CanonicalEntriesFaithful(es, below);
      MapFaithful(es, CanonicalEntries(es).value, SortByKey(CanonicalEntries(es).value), limit);
    case Tag(_, inner) =>
      CanonicalizeFaithful(inner, below);
    case _ =>
  }

  lemma {:induction false} CanonicalItemsFaithful(items: seq<Value>, limit: nat)
    requires CanonicalItems(items).Ok?
    ensures forall i | 0 <= i < |items| :: Faithful(items[i], CanonicalItems(items).value[i], limit)
    decreases items, 0
  {
    hide Faithful;
    if items != [] {
      CanonicalizeFaithful(items[0], limit);
      CanonicalItemsFaithful(items[1..], limit);
    }
  }

  lemma {:induction false} CanonicalEntriesFaithful(es: seq<Entry>, limit: nat)
    requires CanonicalEntries(es).Ok?
    ensures AllFaithful(es, CanonicalEntries(es).value, limit)
    decreases es, 0
  {
    hide Faithful;
    if es != [] {
      CanonicalEntryFaithful(es[0], limit);
      CanonicalEntriesFaithful(es[1..], limit);
    }
  }

  lemma {:induction false} CanonicalEntryFaithful(e: Entry, limit: nat)
    requires CanonicalEntry(e).Ok?
    ensures FaithfulEntry(e, CanonicalEntry(e).value, limit)
    decreases e, 2
  {
    hide Faithful;
    CanonicalizeFaithful(e.key, limit);
    CanonicalizeFaithful(e.val, limit);
  }

  lemma {:induction false} ArrayFaithful(items: seq<Value>, cs: seq<Value>, limit: nat)
    requires |cs| == |items|
    requires forall i | 0 <= i < |items| :: Faithful(items[i], cs[i], Below(limit))
    ensures Faithful(Array(items), Array(cs), limit)
  {
    assert DenoteItems(items) == DenoteItems(cs);
  }

  lemma {:induction false} MapFaithful(es: seq<Entry>, ks: seq<Keyed>, sorted: seq<Keyed>, limit: nat)
    requires AllFaithful(es, ks, Below(limit)) && sorted == SortByKey(ks) && FirstDuplicate(sorted).None?
    ensures Faithful(Map(es), Map(EntriesOf(sorted)), limit)
  {
    hide Faithful, AllFaithful, Write, Readable, PairBag;
    SortSorts(ks);
    NeighboursSuffice(sorted);
    MapMeaning(es, ks, sorted, limit);
    SortKeeps(ks, []);
    MapReadable(es, ks, sorted, limit);
    MapInOrder(es, ks, sorted, Below(limit));
    MapFaithfulFrom(es, EntriesOf(sorted), limit);
  }

  lemma {:induction false} MapInOrder(es: seq<Entry>, ks: seq<Keyed>, sorted: seq<Keyed>, limit: nat)
    requires AllFaithful(es, ks, limit) && multiset(sorted) == multiset(ks) && Strict(sorted)
    ensures AllInOrder(EntriesOf(sorted)) && Ascending(EntriesOf(sorted))
  {
    hide FaithfulEntry, Write;
    SameElements(sorted, ks);
    forall i | 0 <= i < |sorted|
      ensures sorted[i].bytes == Write(sorted[i].entry.key) && InOrder(sorted[i].entry.key) && InOrder(sorted[i].entry.val)
    {
      var j :| 0 <= j < |ks| && ks[j] == sorted[i];
      FaithfulEntryInOrder(es[j], ks[j], limit);
    }
    SortedAscending(sorted);
  }

  lemma {:induction false} FaithfulEntryInOrder(e: Entry, k: Keyed, limit: nat)
    requires FaithfulEntry(e, k, limit)
    ensures k.bytes == Write(k.entry.key) && InOrder(k.entry.key) && InOrder(k.entry.val)
    ensures DenoteEntry(k.entry) == DenoteEntry(e)
    ensures ReadableEntry(e, limit) <==> ReadableEntry(k.entry, limit)
  {
    hide Readable;
  }

  lemma {:induction false} MapFaithfulFrom(es: seq<Entry>, cs: seq<Entry>, limit: nat)
    requires AllInOrder(cs) && Ascending(cs) && PairBag(es) == PairBag(cs)
    requires Readable(Map(es), limit) <==> Readable(Map(cs), limit)
    ensures Faithful(Map(es), Map(cs), limit)
  {
  }

  lemma {:induction false} SameElements(s: seq<Keyed>, t: seq<Keyed>)
    requires multiset(s) == multiset(t)
    ensures |s| == |t| && forall i | 0 <= i < |s| :: exists j :: 0 <= j < |t| && t[j] == s[i]
  {
    assert |multiset(s)| == |s| && |multiset(t)| == |t|;
    forall i | 0 <= i < |s|
      ensures exists j :: 0 <= j < |t| && t[j] == s[i]
    {
      assert s[i] in multiset(t);
    }
  }

  predicate ReadableEntry(e: Entry, limit: nat) {
    Readable(e.key, limit) && Readable(e.val, limit)
  }

  predicate AllReadable(es: seq<Entry>, limit: nat) {
    forall i | 0 <= i < |es| :: ReadableEntry(es[i], limit)
  }

  lemma {:induction false} ReadableMap(es: seq<Entry>, limit: nat)
    ensures Readable(Map(es), limit) <==> |es| < U64 && limit > 0 && AllReadable(es, limit - 1)
  {
  }

  lemma {:induction false} MapReadable(es: seq<Entry>, ks: seq<Keyed>, sorted: seq<Keyed>, limit: nat)
    requires AllFaithful(es, ks, Below(limit)) && multiset(sorted) == multiset(ks)
    ensures Readable(Map(es), limit) <==> Readable(Map(EntriesOf(sorted)), limit)
  {
    hide Readable, FaithfulEntry;
    ReadableMap(es, limit);
    ReadableMap(EntriesOf(sorted), limit);
    if limit > 0 {
      forall i | 0 <= i < |es|
        ensures ReadableEntry(es[i], limit - 1) <==> ReadableEntry(ks[i].entry, limit - 1)
      {
        FaithfulEntryInOrder(es[i], ks[i], limit - 1);
      }
      ReadableElements(ks, sorted, limit - 1);
      ReadableElements(sorted, ks, limit - 1);
      assert |multiset(sorted)| == |sorted| && |multiset(ks)| == |ks|;
      AllReadableKeyed(es, ks, limit - 1);
    } else {
      assert |multiset(sorted)| == |sorted| && |multiset(ks)| == |ks|;
    }
  }

  lemma {:induction false} AllReadableKeyed(es: seq<Entry>, ks: seq<Keyed>, limit: nat)
    requires |es| == |ks| && forall i | 0 <= i < |es| :: ReadableEntry(es[i], limit) <==> ReadableEntry(ks[i].entry, limit)
    ensures AllReadable(es, limit) <==> AllReadable(EntriesOf(ks), limit)
  {
    hide ReadableEntry;
    if AllReadable(EntriesOf(ks), limit) {
      forall i | 0 <= i < |es| ensures ReadableEntry(es[i], limit) {
        assert ReadableEntry(EntriesOf(ks)[i], limit);
      }
    }
  }

  lemma {:induction false} ReadableElements(s: seq<Keyed>, t: seq<Keyed>, limit: nat)
    requires multiset(s) == multiset(t)
    ensures AllReadable(EntriesOf(s), limit) ==> AllReadable(EntriesOf(t), limit)
  {
    hide ReadableEntry;
    SameElements(t, s);
    if AllReadable(EntriesOf(s), limit) {
    forall i | 0 <= i < |t| ensures ReadableEntry(EntriesOf(t)[i], limit) {
      var j :| 0 <= j < |s| && s[j] == t[i];
      assert ReadableEntry(EntriesOf(s)[j], limit);
    }
    }
  }

  lemma {:induction false} MapMeaning(es: seq<Entry>, ks: seq<Keyed>, sorted: seq<Keyed>, limit: nat)
    requires AllFaithful(es, ks, Below(limit)) && sorted == SortByKey(ks)
    ensures PairBag(es) == PairBag(EntriesOf(sorted))
  {
    hide FaithfulEntry, SortByKey;
    SortBag(ks);
    forall i | 0 <= i < |es| ensures DenoteEntry(es[i]) == DenoteEntry(ks[i].entry) {
      FaithfulEntryInOrder(es[i], ks[i], Below(limit));
    }
    assert DenoteEntries(EntriesOf(ks)) == DenoteEntries(es);
  }

  lemma {:induction false} SortedAscending(s: seq<Keyed>)
    requires Strict(s) && forall i | 0 <= i < |s| :: s[i].bytes == Write(s[i].entry.key)
    ensures Ascending(EntriesOf(s))
  {
    if |s| >= 2 {
      SortedAscending(s[1..]);
      assert EntriesOf(s)[1..] == EntriesOf(s[1..]);
    }
  }

  function Bag(s: seq<Keyed>): multiset<Pair> {
    PairBag(EntriesOf(s))
  }

  lemma {:induction false} BagAdd(x: Keyed, s: seq<Keyed>)
    ensures Bag([x] + s) == multiset{DenoteEntry(x.entry)} + Bag(s)
  {
    assert EntriesOf([x] + s)[1..] == EntriesOf(s);
  }

  lemma {:induction false} InsertBag(x: Keyed, s: seq<Keyed>)
    ensures Bag(Insert(x, s)) == multiset{DenoteEntry(x.entry)} + Bag(s)
  {
    hide Bag;
    if s == [] || !LexLess(s[0].bytes, x.bytes) {
      BagAdd(x, s);
    } else {
      InsertBag(x, s[1..]);
      BagAdd(s[0], Insert(x, s[1..]));
      BagAdd(s[0], s[1..]);
      assert s == [s[0]] + s[1..];
    }
  }

  lemma {:induction false} SortBag(s: seq<Keyed>)
    ensures Bag(SortByKey(s)) == Bag(s)
  {
    hide Bag;
    if s != [] {
      SortBag(s[1..]);
      InsertBag(s[0], SortByKey(s[1..]));
      BagAdd(s[0], s[1..]);
      assert s == [s[0]] + s[1..];
    }
  }

  // ---- what is already canonical is left alone ----

  function KeyedOf(es: seq<Entry>): (ks: seq<Keyed>)
    ensures |ks| == |es| && EntriesOf(ks) == es
  {
    seq(|es|, i requires 0 <= i < |es| => Keyed(Write(es[i].key), es[i]))
  }

  lemma {:induction false} CanonicalFixed(v: Value)
    requires InOrder(v)
    ensures Canonicalize(v) == Ok(v)
    decreases v, 1
  {
    match v
    case Array(items) => CanonicalItemsFixed(items);
    case Map(es) =>
      CanonicalEntriesFixed(es);
      AscendingFixed(es);
    case Tag(_, inner) => CanonicalFixed(inner);
    case _ =>
  }

  lemma {:induction false} CanonicalItemsFixed(items: seq<Value>)
    requires forall i | 0 <= i < |items| :: InOrder(items[i])
    ensures CanonicalItems(items) == Ok(items)
    decreases items, 0
  {
    if items != [] {
      CanonicalFixed(items[0]);
      CanonicalItemsFixed(items[1..]);
      assert items == [items[0]] + items[1..];
    }
  }

  lemma {:induction false} CanonicalEntriesFixed(es: seq<Entry>)
    requires AllInOrder(es)
    ensures CanonicalEntries(es) == Ok(KeyedOf(es))
    decreases es, 0
  {
    if es != [] {
      var e := es[0];
      assert InOrder(e.key) && InOrder(e.val) && e.key < e && e.val < e;
      CanonicalFixed(e.key);
      CanonicalFixed(e.val);
      CanonicalEntriesFixed(es[1..]);
      assert KeyedOf(es) == [Keyed(Write(e.key), e)] + KeyedOf(es[1..]);
    }
  }

  lemma {:induction false} AscendingFixed(es: seq<Entry>)
    requires Ascending(es)
    ensures FromSorted(SortByKey(KeyedOf(es))) == Ok(Map(es))
  {
    AscendingStrict(es);
    SortFixed(KeyedOf(es));
    NeighboursSuffice(KeyedOf(es));
  }

  lemma {:induction false} AscendingStrict(es: seq<Entry>)
    requires Ascending(es)
    ensures Strict(KeyedOf(es))
  {
    if |es| >= 2 {
      AscendingStrict(es[1..]);
      assert KeyedOf(es)[1..] == KeyedOf(es[1..]);
    }
  }

  // ---- canonicalizing fails exactly on duplicates ----

  lemma {:induction false} CanonicalizesIffUnambiguous(v: Value, limit: nat)
    requires Readable(v, limit)
    ensures Canonicalize(v).Ok? <==> Unambiguous(v)
    decreases v, 1
  {
    match v
    case Array(items) => ItemsCanonicalizeIff(items, limit - 1);
    case Map(es) =>
      EntriesCanonicalizeIff(es, limit - 1);
      MapCanonicalizesIff(es, limit - 1);
    case Tag(_, inner) => CanonicalizesIffUnambiguous(inner, limit - 1);
    case _ =>
  }

  lemma {:induction false} MapCanonicalizesIff(es: seq<Entry>, limit: nat)
    requires AllReadable(es, limit) && (CanonicalEntries(es).Ok? <==> AllUnambiguous(es))
    ensures Canonicalize(Map(es)).Ok? <==> AllUnambiguous(es) && KeysDiffer(es)
  {
    hide AllReadable, AllUnambiguous, KeysDiffer, AllFaithful;
    if CanonicalEntries(es).Ok? {
      var ks := CanonicalEntries(es).value;
      CanonicalEntriesFaithful(es, limit);
      DistinctIff(es, ks, limit);
      SortSorts(ks);
      NeighboursSuffice(SortByKey(ks));
    }
  }

  lemma {:induction false} ItemsCanonicalizeIff(items: seq<Value>, limit: nat)
    requires forall i | 0 <= i < |items| :: Readable(items[i], limit)
    ensures CanonicalItems(items).Ok? <==> forall i | 0 <= i < |items| :: Unambiguous(items[i])
    decreases items, 0
  {
    hide Readable;
    if items != [] {
      CanonicalizesIffUnambiguous(items[0], limit);
      ItemsCanonicalizeIff(items[1..], limit);
      assert forall i | 0 < i < |items| :: items[i] == items[1..][i - 1];
    }
  }

  predicate AllUnambiguous(es: seq<Entry>) {
    forall i | 0 <= i < |es| :: Unambiguous(es[i].key) && Unambiguous(es[i].val)
  }

  lemma {:induction false} EntriesCanonicalizeIff(es: seq<Entry>, limit: nat)
    requires AllReadable(es, limit)
    ensures CanonicalEntries(es).Ok? <==> AllUnambiguous(es)
    decreases es, 0
  {
    hide Readable;
    if es != [] {
      var e := es[0];
      assert ReadableEntry(e, limit) && e.key < e && e.val < e;
      CanonicalizesIffUnambiguous(e.key, limit);
      CanonicalizesIffUnambiguous(e.val, limit);
      EntriesCanonicalizeIff(es[1..], limit);
      assert forall i | 0 < i < |es| :: es[i] == es[1..][i - 1];
    }
  }

  predicate KeysDiffer(es: seq<Entry>) {
    forall i, j | 0 <= i < j < |es| :: Denote(es[i].key) != Denote(es[j].key)
  }

  lemma {:induction false} DistinctIff(es: seq<Entry>, ks: seq<Keyed>, limit: nat)
    requires AllReadable(es, limit) && AllFaithful(es, ks, limit)
    ensures Distinct(ks) <==> KeysDiffer(es)
    decreases |es|
  {
    hide FaithfulEntry, ReadableEntry;
    if es != [] {
      DistinctIff(es[1..], ks[1..], limit);
      forall j | 0 < j < |es|
        ensures ks[j].bytes == ks[0].bytes <==> Denote(es[j].key) == Denote(es[0].key)
      {
        SameKey(es[0], ks[0], es[j], ks[j], limit);
      }
      DistinctFront(es, ks);
    }
  }

  lemma {:induction false} DistinctFront(es: seq<Entry>, ks: seq<Keyed>)
    requires es != [] && |ks| == |es| && (Distinct(ks[1..]) <==> KeysDiffer(es[1..]))
    requires forall j | 0 < j < |es| :: ks[j].bytes == ks[0].bytes <==> Denote(es[j].key) == Denote(es[0].key)
    ensures Distinct(ks) <==> KeysDiffer(es)
  {
    hide Denote;
    if HasKey(ks[1..], ks[0].bytes) {
      var j :| 0 <= j < |ks[1..]| && ks[1..][j].bytes == ks[0].bytes;
      assert Denote(es[j + 1].key) == Denote(es[0].key);
    }
    if KeysDiffer(es) {
      assert forall i, j | 0 <= i < j < |es| - 1 :: es[1..][i] == es[i + 1] && es[1..][j] == es[j + 1];
    }
    if Distinct(ks) {
      forall i, j | 0 <= i < j < |es| ensures Denote(es[i].key) != Denote(es[j].key) {
        if i > 0 {
          assert es[i] == es[1..][i - 1] && es[j] == es[1..][j - 1];
        } else {
          assert ks[1..][j - 1].bytes == ks[j].bytes;
        }
      }
    }
  }

  lemma {:induction false} SameKey(e: Entry, k: Keyed, f: Entry, l: Keyed, limit: nat)
    requires FaithfulEntry(e, k, limit) && FaithfulEntry(f, l, limit) && ReadableEntry(e, limit) && ReadableEntry(f, limit)
    ensures k.bytes == l.bytes <==> Denote(e.key) == Denote(f.key)
  {
    hide Readable, Write, Denote, InOrder;
    if k.bytes == l.bytes {
      WriteInjective(k.entry.key, l.entry.key, limit);
    }
    if Denote(e.key) == Denote(f.key) {
      InOrderUnique(k.entry.key, l.entry.key);
    }
  }
}
