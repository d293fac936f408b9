/** The laws of the encoder and the decoder, for every value and every byte string. */
module CanonicalTheorems {
  import opened Bytes
  import opened Cbor
  import opened Canonical
  import opened CanonicalLaws

  // ---- what reading gives ----

  predicate AllItemsReadable(items: seq<Value>, limit: nat) {
    forall i | 0 <= i < |items| :: Readable(items[i], limit)
  }

  lemma {:induction false} ReadReadable(bytes: seq<Byte>, limit: nat)
    requires |bytes| < U64
    ensures Read(bytes, limit).Got? ==> Readable(Read(bytes, limit).value, limit)
    decreases |bytes|, 0
  {
    var head := ReadHead(bytes);
    if head.Got? {
      var Lead(major, info, n) := head.value;
      if info == INDEFINITE {
        ReadIndefiniteReadable(major, head.rest, limit);
      } else if limit > 0 {
        if major == ARRAY { ReadItemsReadable(n, head.rest, limit - 1); }
        if major == MAP { ReadEntriesReadable(n, head.rest, limit - 1); }
        if major == TAG { ReadReadable(head.rest, limit - 1); }
      }
    }
  }

  lemma {:induction false} ReadIndefiniteReadable(major: nat, bytes: seq<Byte>, limit: nat)
    requires |bytes| < U64
    ensures
      var r := ReadIndefinite(major, bytes, limit);
      r.Got? ==> Readable(r.value, limit)
    decreases |bytes|, 3
  {
    ReadChunksShort(major, bytes);
    if limit > 0 {
      if major == ARRAY { ReadItemsToBreakReadable(bytes, limit - 1); }
      if major == MAP { ReadEntriesToBreakReadable(bytes, limit - 1); }
    }
  }

  lemma {:induction false} ReadChunksShort(major: nat, bytes: seq<Byte>)
    ensures
      var r := ReadChunks(major, bytes);
      r.Got? ==> |r.value| <= |bytes|
    decreases |bytes|
  {
    var head := ReadHead(bytes);
    if head.Got? && head.value.n <= |head.rest| { ReadChunksShort(major, head.rest[head.value.n..]); }
  }

  lemma {:induction false} ReadItemsReadable(count: nat, bytes: seq<Byte>, limit: nat)
    requires |bytes| < U64
    ensures
      var r := ReadItems(count, bytes, limit);
      r.Got? ==> AllItemsReadable(r.value, limit) && |r.value| + |r.rest| <= |bytes|
    decreases |bytes|, 1
  {
    hide ReadHead, Readable;
    if count > 0 {
      ReadReadable(bytes, limit);
      var first := Read(bytes, limit);
      if first.Got? { ReadItemsReadable(count - 1, first.rest, limit); }
    }
  }

  lemma {:induction false} ReadItemsToBreakReadable(bytes: seq<Byte>, limit: nat)
    requires |bytes| < U64
    ensures
      var r := ReadItemsToBreak(bytes, limit);
      r.Got? ==> AllItemsReadable(r.value, limit) && |r.value| + |r.rest| <= |bytes|
    decreases |bytes|, 1
  {
    hide ReadHead, Readable;
    ReadReadable(bytes, limit);
    var first := Read(bytes, limit);
    if first.Got? { ReadItemsToBreakReadable(first.rest, limit); }
  }

  lemma {:induction false} ReadEntryReadable(bytes: seq<Byte>, limit: nat)
    requires |bytes| < U64
    ensures
      var r := ReadEntry(bytes, limit);
      r.Got? ==> ReadableEntry(r.value, limit)
    decreases |bytes|, 1
  {
    hide ReadHead, Readable;
    ReadReadable(bytes, limit);
    var key := Read(bytes, limit);
    if key.Got? { ReadReadable(key.rest, limit); }
  }

  lemma {:induction false} ReadEntriesReadable(count: nat, bytes: seq<Byte>, limit: nat)
    requires |bytes| < U64
    ensures
      var r := ReadEntries(count, bytes, limit);
      r.Got? ==> AllReadable(r.value, limit) && |r.value| + |r.rest| <= |bytes|
    decreases |bytes|, 2
  {
    hide ReadHead, ReadableEntry;
    if count > 0 {
      ReadEntryReadable(bytes, limit);
      var first := ReadEntry(bytes, limit);
      if first.Got? { ReadEntriesReadable(count - 1, first.rest, limit); }
    }
  }

  lemma {:induction false} ReadEntriesToBreakReadable(bytes: seq<Byte>, limit: nat)
    requires |bytes| < U64
    ensures
      var r := ReadEntriesToBreak(bytes, limit);
      r.Got? ==> AllReadable(r.value, limit) && |r.value| + |r.rest| <= |bytes|
    decreases |bytes|, 2
  {
    hide ReadHead, ReadableEntry;
    ReadEntryReadable(bytes, limit);
    var first := ReadEntry(bytes, limit);
    if first.Got? { ReadEntriesToBreakReadable(first.rest, limit); }
  }

  // ---- ambiguity is a matter of meaning ----

  lemma {:induction false} AmbiguityIsMeaning(a: Value, b: Value)
    requires Denote(a) == Denote(b) && Unambiguous(a)
    ensures Unambiguous(b)
    decreases a, 1
  {
    match a
    case Array(items) =>
      forall i | 0 <= i < |items| ensures Unambiguous(b.items[i]) {
        assert DenoteItems(items)[i] == DenoteItems(b.items)[i];
        AmbiguityIsMeaning(items[i], b.items[i]);
      }
    case Map(es) =>
      var fs := b.entries;
      assert multiset(DenoteEntries(es)) == multiset(DenoteEntries(fs));
      forall j | 0 <= j < |fs| ensures Unambiguous(fs[j].key) && Unambiguous(fs[j].val) {
        assert DenoteEntries(fs)[j] in multiset(DenoteEntries(es));
        var i :| 0 <= i < |es| && DenoteEntries(es)[i] == DenoteEntries(fs)[j];
        AmbiguityIsMeaningEntry(es[i], fs[j]);
      }
      KeysDifferPermuted(es, fs);
    case Tag(_, inner) => AmbiguityIsMeaning(inner, b.inner);
    case _ =>
  }

  lemma {:induction false} AmbiguityIsMeaningEntry(e: Entry, f: Entry)
    requires DenoteEntry(e) == DenoteEntry(f) && Unambiguous(e.key) && Unambiguous(e.val)
    ensures Unambiguous(f.key) && Unambiguous(f.val)
    decreases e, 2
  {
    AmbiguityIsMeaning(e.key, f.key);
    AmbiguityIsMeaning(e.val, f.val);
  }

  lemma {:induction false} KeysDifferPermuted(es: seq<Entry>, fs: seq<Entry>)
    requires KeysDiffer(es) && multiset(DenoteEntries(es)) == multiset(DenoteEntries(fs))
    ensures KeysDiffer(fs)
  {
    hide Denote;
    var ps, qs := DenoteEntries(es), DenoteEntries(fs);
    forall i, j | 0 <= i < j < |fs| ensures Denote(fs[i].key) != Denote(fs[j].key) {
      var k, l := TwoPlaces(ps, qs, i, j);
      var low, high := if k < l then k else l, if k < l then l else k;
      assert Denote(es[low].key) != Denote(es[high].key);
    }
  }

  /** Two places of one sequence have two places in any rearrangement. */
  lemma {:induction false} TwoPlaces<T>(s: seq<T>, t: seq<T>, i: nat, j: nat) returns (k: nat, l: nat)
    requires multiset(s) == multiset(t) && i < j < |t|
    ensures k < |s| && l < |s| && k != l && s[k] == t[i] && s[l] == t[j]
  {
    assert t[i] in multiset(s);
    k :| 0 <= k < |s| && s[k] == t[i];
    Without(s, k);
    Without(t, i);
    var without := s[..k] + s[k + 1..];
    assert (t[..i] + t[i + 1..])[j - 1] == t[j];
    assert t[j] in multiset(without);
    var m :| 0 <= m < |without| && without[m] == t[j];
    l := if m < k then m else m + 1;
  }

  lemma {:induction false} Without<T>(s: seq<T>, k: nat)
    requires k < |s|
    ensures multiset(s[..k] + s[k + 1..]) == multiset(s) - multiset{s[k]}
  {
    assert s == s[..k] + [s[k]] + s[k + 1..];
  }

  // ---- the laws ----

  /** Encoding fails exactly when some map, at some depth, has two keys that mean the same. */
  lemma {:induction false} EncodesIffUnambiguous(v: Value, limit: nat)
    requires Readable(v, limit)
    ensures EncodeValue(v).Ok? <==> Unambiguous(v)
  {
    CanonicalizesIffUnambiguous(v, limit);
  }

  /** Canonicalizing again changes nothing. */
  lemma {:induction false} CanonicalizeIdempotent(v: Value)
    requires Canonicalize(v).Ok?
    ensures Canonicalize(Canonicalize(v).value) == Canonicalize(v)
  {
    CanonicalizeFaithful(v, 0);
    CanonicalFixed(Canonicalize(v).value);
  }

  /** The order of entries, in any map at any depth, decides neither whether a value encodes nor to what. */
  lemma {:induction false} EntryOrderIsForgotten(a: Value, b: Value, limit: nat)
    requires Denote(a) == Denote(b) && Readable(a, limit) && Readable(b, limit)
    ensures Canonicalize(a).Ok? <==> Canonicalize(b).Ok?
    ensures Canonicalize(a).Ok? ==> Canonicalize(a) == Canonicalize(b) && EncodeValue(a) == EncodeValue(b)
  {
    CanonicalizesIffUnambiguous(a, limit);
    CanonicalizesIffUnambiguous(b, limit);
    if Unambiguous(a) { AmbiguityIsMeaning(a, b); }
    if Unambiguous(b) { AmbiguityIsMeaning(b, a); }
    if Canonicalize(a).Ok? {
      CanonicalizeFaithful(a, limit);
      CanonicalizeFaithful(b, limit);
      InOrderUnique(Canonicalize(a).value, Canonicalize(b).value);
    }
  }

  /** Equal encodings, equal canonical forms and equal meanings are one and the same. */
  lemma {:induction false} EncodingIsMeaning(a: Value, b: Value, limit: nat)
    requires Readable(a, limit) && Readable(b, limit) && EncodeValue(a).Ok? && EncodeValue(b).Ok?
    ensures EncodeValue(a) == EncodeValue(b) <==> Canonicalize(a) == Canonicalize(b)
    ensures EncodeValue(a) == EncodeValue(b) <==> Denote(a) == Denote(b)
  {
    CanonicalizeFaithful(a, limit);
    CanonicalizeFaithful(b, limit);
    if EncodeValue(a) == EncodeValue(b) {
      WriteInjective(Canonicalize(a).value, Canonicalize(b).value, limit);
    }
    if Denote(a) == Denote(b) {
      InOrderUnique(Canonicalize(a).value, Canonicalize(b).value);
    }
  }

  /** Decoding an encoding gives the canonical form, provided the reader's limit admits the value. */
  lemma {:induction false} DecodeEncode(v: Value, limit: nat)
    requires Readable(v, limit) && EncodeValue(v).Ok?
    ensures DecodeValue(EncodeValue(v).value, limit) == Canonicalize(v)
  {
    var c := Canonicalize(v).value;
    CanonicalizeFaithful(v, limit);
    CanonicalFixed(c);
    ReadWrite(c, limit, []);
    assert Write(c) + [] == Write(c);
  }

  /** What decoding accepts is a value in canonical order, and the bytes are its one encoding. */
  lemma {:induction false} DecodeSound(bytes: seq<Byte>, limit: nat)
    requires |bytes| < U64 && DecodeValue(bytes, limit).Ok?
    ensures
      var v := DecodeValue(bytes, limit).value;
      InOrder(v) && Readable(v, limit) && Write(v) == bytes && EncodeValue(v) == Ok(bytes)
  {
    var v := DecodeValue(bytes, limit).value;
    ReadReadable(bytes, limit);
    var c := Canonicalize(v).value;
    CanonicalizeFaithful(v, limit);
    ReadWrite(c, limit, []);
    assert Write(c) + [] == bytes;
  }

  /** Decoding accepts exactly the image of encoding. */
  lemma {:induction false} DecodeIffEncoding(bytes: seq<Byte>, v: Value, limit: nat)
    requires |bytes| < U64
    ensures DecodeValue(bytes, limit) == Ok(v) <==>
              Readable(v, limit) && Canonicalize(v) == Ok(v) && EncodeValue(v) == Ok(bytes)
  {
    if DecodeValue(bytes, limit) == Ok(v) {
      DecodeSound(bytes, limit);
      CanonicalFixed(v);
    }
    if Readable(v, limit) && Canonicalize(v) == Ok(v) && EncodeValue(v) == Ok(bytes) {
      DecodeEncode(v, limit);
    }
  }

  /** Of all byte strings that read as one value, at most one decodes: an unsorted map, a longer head,
      an indefinite length or bytes left over make another string, and that string is refused. */
  lemma {:induction false} OneEncodingPerMeaning(bytes: seq<Byte>, other: seq<Byte>, limit: nat)
    requires |bytes| < U64 && |other| < U64
    requires DecodeValue(bytes, limit).Ok? && DecodeValue(other, limit).Ok?
    ensures bytes == other <==> Denote(DecodeValue(bytes, limit).value) == Denote(DecodeValue(other, limit).value)
  {
    DecodeSound(bytes, limit);
    DecodeSound(other, limit);
    if Denote(DecodeValue(bytes, limit).value) == Denote(DecodeValue(other, limit).value) {
      InOrderUnique(DecodeValue(bytes, limit).value, DecodeValue(other, limit).value);
    }
  }

  /** No encoding is followed by anything. */
  lemma {:induction false} TrailingBytesRefused(bytes: seq<Byte>, more: seq<Byte>, limit: nat)
    requires |bytes + more| < U64 && DecodeValue(bytes, limit).Ok? && more != []
    ensures DecodeValue(bytes + more, limit) == Err(NotCanonical)
  {
    DecodeSound(bytes, limit);
    var v := DecodeValue(bytes, limit).value;
    ReadWrite(v, limit, more);
    assert bytes != bytes + more;
  }

  // ---- the code that fills, sorts and scans one vector ----

  /** The same function as `Canonicalize`, computed over a local vector of keyed entries. */
  method CanonicalizeInPlace(v: Value) returns (r: Result<Value>)
    ensures r == Canonicalize(v)
    decreases v, 1
  {
    match v
    case Array(items) =>
      var canonical := CanonicalizeItems(items);
      if canonical.Err? { return Err(canonical.error); }
      return Ok(Array(canonical.value));
    case Map(es) =>
      var keyed := CanonicalizeEntries(es);
      if keyed.Err? { return Err(keyed.error); }
      var sorted := SortInPlace(keyed.value);
      r := RefuseDuplicates(sorted);
    case Tag(tag, inner) =>
      var canonical := CanonicalizeInPlace(inner);
      if canonical.Err? { return Err(canonical.error); }
      return Ok(Tag(tag, canonical.value));
    case _ =>
      return Ok(v);
  }

  method CanonicalizeItems(items: seq<Value>) returns (r: Result<seq<Value>>)
    ensures r == CanonicalItems(items)
    decreases items, 0
  {
    var canonical: seq<Value> := [];
    var i := 0;
    assert items[0..] == items && forall t: seq<Value> :: [] + t == t;
    while i < |items|
      invariant 0 <= i <= |items|
      invariant CanonicalItems(items) == Prepend(canonical, CanonicalItems(items[i..]))
    {
      assert items[i..][0] == items[i] && items[i..][1..] == items[i + 1..];
      var item := CanonicalizeInPlace(items[i]);
      if item.Err? { return Err(item.error); }
      assert forall t: seq<Value> :: canonical + ([item.value] + t) == canonical + [item.value] + t;
      canonical := canonical + [item.value];
      i := i + 1;
    }
    assert canonical + [] == canonical;
    r := Ok(canonical);
  }

  method CanonicalizeEntries(es: seq<Entry>) returns (r: Result<seq<Keyed>>)
    ensures r == CanonicalEntries(es)
    decreases es, 0
  {
    var keyed: seq<Keyed> := [];
    var i := 0;
    assert es[0..] == es && forall t: seq<Keyed> :: [] + t == t;
    while i < |es|
      invariant 0 <= i <= |es|
      invariant CanonicalEntries(es) == Prepend(keyed, CanonicalEntries(es[i..]))
    {
      var e := es[i];
      assert e.key < e && e.val < e;
      assert es[i..][0] == e && es[i..][1..] == es[i + 1..];
      var key := CanonicalizeInPlace(e.key);
      if key.Err? { return Err(key.error); }
      var val := CanonicalizeInPlace(e.val);
      if val.Err? { return Err(val.error); }
      var k := Keyed(Write(key.value), Entry(key.value, val.value));
      assert forall t: seq<Keyed> :: keyed + ([k] + t) == keyed + [k] + t;
      keyed := keyed + [k];
      i := i + 1;
    }
    assert keyed + [] == keyed;
    r := Ok(keyed);
  }

  /** Neighbours are compared pair by pair; the first equal pair is reported. */
  method RefuseDuplicates(sorted: seq<Keyed>) returns (r: Result<Value>)
    ensures r == FromSorted(sorted)
  {
    var j := 1;
    while j < |sorted|
      invariant 1 <= j && (sorted == [] || j <= |sorted|)
      invariant sorted != [] ==> FirstDuplicate(sorted) == FirstDuplicate(sorted[j - 1..])
    {
      assert sorted[j - 1..][1..] == sorted[j..];
      if sorted[j - 1].bytes == sorted[j].bytes { return Err(DuplicateKey(sorted[j - 1].bytes)); }
      j := j + 1;
    }
    r := Ok(Map(EntriesOf(sorted)));
  }

  function Prepend<T>(done: seq<T>, r: Result<seq<T>>): Result<seq<T>> {
    match r
    case Err(error) => Err(error)
    case Ok(others) => Ok(done + others)
  }

  /** A stable sort, last to first: each entry sinks past the smaller ones. */
  method SortInPlace(keyed: seq<Keyed>) returns (sorted: seq<Keyed>)
    ensures sorted == SortByKey(keyed)
  {
    sorted := [];
    var i := |keyed|;
    while i > 0
      invariant 0 <= i <= |keyed| && sorted == SortByKey(keyed[i..])
    {
      i := i - 1;
      assert keyed[i..][0] == keyed[i] && keyed[i..][1..] == keyed[i + 1..];
      var at := 0;
      while at < |sorted| && LexLess(sorted[at].bytes, keyed[i].bytes)
        invariant 0 <= at <= |sorted|
        invariant Insert(keyed[i], sorted) == sorted[..at] + Insert(keyed[i], sorted[at..])
      {
        assert sorted[at..][0] == sorted[at] && sorted[at..][1..] == sorted[at + 1..];
        assert sorted[..at] + ([sorted[at]] + Insert(keyed[i], sorted[at + 1..])) == sorted[..at + 1] + Insert(keyed[i], sorted[at + 1..]);
        at := at + 1;
      }
      assert sorted[..at] + ([keyed[i]] + sorted[at..]) == sorted[..at] + [keyed[i]] + sorted[at..];
      sorted := sorted[..at] + [keyed[i]] + sorted[at..];
    }
    assert keyed[0..] == keyed;
  }
}
