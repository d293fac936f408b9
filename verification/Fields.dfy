/** Reading numbered fields out of a map, as every structure of the protocol does. */
module Fields {
  import opened Bytes
  import opened Cbor
  import opened Canonical
  import opened CanonicalLaws
  import opened CanonicalTheorems

  const KEY_PROTOCOL_VERSION := 1
  const PROTOCOL_VERSION := 0

  /** A parsed structure beside the very bytes it came from: signatures and hashes are taken over those. */
  datatype Raw<+T> = Raw(bytes: seq<Byte>, value: T)

  function Get(es: seq<Entry>, key: nat): Option<Value> {
    if es == [] then None
    else if es[0].key.Integer? && es[0].key.n == key then Some(es[0].val)
    else Get(es[1..], key)
  }

  function Require(es: seq<Entry>, key: nat): Result<Value> {
    match Get(es, key)
    case Some(v) => Ok(v)
    case None => Err(MissingField(key))
  }

  function AsU64(v: Value): Result<u64> {
    if v.Integer? && v.n >= 0 then Ok(v.n) else Err(TypeMismatch)
  }

  function AsText(v: Value): Result<Utf8> {
    if v.Text? then Ok(v.text) else Err(TypeMismatch)
  }

  function AsBytes(v: Value): Result<seq<Byte>> {
    if v.Bytes? then Ok(v.bytes) else Err(TypeMismatch)
  }

  function AsArray(v: Value, size: nat): (r: Result<seq<Byte>>)
    ensures r.Ok? ==> |r.value| == size
  {
    var bytes :- AsBytes(v);
    if |bytes| == size then Ok(bytes) else Err(TypeMismatch)
  }

  function AsMap(v: Value): Result<seq<Entry>> {
    if v.Map? then Ok(v.entries) else Err(TypeMismatch)
  }

  function CheckVersion(es: seq<Entry>): Result<nat> {
    var raw :- Require(es, KEY_PROTOCOL_VERSION);
    var version :- AsU64(raw);
    if version > PROTOCOL_VERSION then Err(FutureVersion(version, PROTOCOL_VERSION)) else Ok(version)
  }

  // ---- structures with small numeric keys ----

  function Field(key: nat, val: Value): Entry
    requires key < 24
  {
    Entry(Integer(key), val)
  }

  /** Keys are numbers below 24, in ascending order: one byte each, so this is canonical order too. */
  predicate Numbered(es: seq<Entry>) {
    (forall i | 0 <= i < |es| :: es[i].key.Integer? && 0 <= es[i].key.n < 24) &&
    (forall i | 0 < i < |es| :: es[i - 1].key.n < es[i].key.n)
  }

  lemma {:induction false} NumberedAscends(es: seq<Entry>)
    requires Numbered(es)
    ensures Ascending(es)
  {
    if |es| >= 2 {
      assert Write(es[0].key) == [es[0].key.n] && Write(es[1].key) == [es[1].key.n];
      NumberedAscends(es[1..]);
    }
  }

  lemma {:induction false} NumberedInOrder(es: seq<Entry>)
    requires Numbered(es) && forall i | 0 <= i < |es| :: InOrder(es[i].val)
    ensures InOrder(Map(es)) && Canonicalize(Map(es)) == Ok(Map(es))
  {
    NumberedAscends(es);
    CanonicalFixed(Map(es));
  }

  lemma {:induction false} NumberedApart(es: seq<Entry>, i: nat, j: nat)
    requires Numbered(es) && i < j < |es|
    ensures es[i].key.n < es[j].key.n
  {
    if i < j - 1 { NumberedApart(es, i, j - 1); }
  }

  lemma {:induction false} GetAt(es: seq<Entry>, i: nat)
    requires Numbered(es) && i < |es|
    ensures Get(es, es[i].key.n) == Some(es[i].val)
  {
    if i > 0 {
      NumberedApart(es, 0, i);
      GetAt(es[1..], i - 1);
    }
  }

  lemma {:induction false} GetAbsent(es: seq<Entry>, key: nat)
    requires forall i | 0 <= i < |es| :: es[i].key.Integer? && es[i].key.n != key
    ensures Get(es, key) == None
  {
    if es != [] { GetAbsent(es[1..], key); }
  }

  /** A field that is pushed, or left out. */
  function With(es: seq<Entry>, present: bool, key: nat, val: Value): seq<Entry>
    requires key < 24
  {
    if present then es + [Field(key, val)] else es
  }

  predicate NumberedBelow(es: seq<Entry>, bound: nat) {
    Numbered(es) && (es == [] || es[|es| - 1].key.n < bound)
  }

  lemma {:induction false} NumberedIs(es: seq<Entry>, bound: nat)
    requires NumberedBelow(es, bound)
    ensures Numbered(es)
  {
  }

  lemma {:induction false} NumberedWith(es: seq<Entry>, bound: nat, present: bool, key: nat, val: Value)
    requires NumberedBelow(es, bound) && bound <= key < 24
    ensures NumberedBelow(With(es, present, key, val), key + 1)
  {
  }

  lemma {:induction false} AbsentAbove(es: seq<Entry>, bound: nat, key: nat)
    requires NumberedBelow(es, bound) && bound <= key
    ensures Get(es, key) == None
  {
    forall i | 0 <= i < |es| ensures es[i].key.n != key {
      if i < |es| - 1 { NumberedApart(es, i, |es| - 1); }
    }
    GetAbsent(es, key);
  }

  /** Reading a pushed field back, and every other field as if it had not been pushed. */
  lemma {:induction false} GetWith(es: seq<Entry>, bound: nat, present: bool, key: nat, val: Value, other: nat)
    requires NumberedBelow(es, bound) && bound <= key < 24
    ensures Get(With(es, present, key, val), other) == if other == key && present then Some(val) else Get(es, other)
  {
    if present {
      if other == key { AbsentAbove(es, bound, key); }
      GetAppend(es, [Field(key, val)], other);
    }
  }

  lemma {:induction false} GetAppend(a: seq<Entry>, b: seq<Entry>, key: nat)
    ensures Get(a + b, key) == if Get(a, key).Some? then Get(a, key) else Get(b, key)
  {
    if a == [] {
      assert a + b == b;
    } else {
      GetAppend(a[1..], b, key);
      assert (a + b)[1..] == a[1..] + b;
    }
  }

  function Replaced(es: seq<Entry>, at: nat, val: Value): (cs: seq<Entry>)
    requires at < |es|
    ensures |cs| == |es| && forall i | 0 <= i < |es| :: cs[i] == if i == at then Entry(es[at].key, val) else es[i]
  {
    es[at := Entry(es[at].key, val)]
  }

  /** Where one field alone may be out of order, canonicalizing that field is all that happens, and
      the structure fails exactly when that field does. */
  lemma {:induction false} CanonicalField(es: seq<Entry>, at: nat, limit: nat)
    requires at < |es| && Numbered(es) && Readable(Map(es), limit)
    requires forall i | 0 <= i < |es| && i != at :: InOrder(es[i].val)
    ensures Canonicalize(Map(es)).Ok? <==> Canonicalize(es[at].val).Ok?
    ensures Canonicalize(es[at].val).Ok? ==>
              var cs := Map(Replaced(es, at, Canonicalize(es[at].val).value));
              Canonicalize(Map(es)) == Ok(cs) && Readable(cs, limit)
  {
    hide Readable, InOrder, Denote, Unambiguous;
    ReadableMap(es, limit);
    if Canonicalize(es[at].val).Ok? {
      var c := Canonicalize(es[at].val).value;
      CanonicalizeFaithful(es[at].val, limit - 1);
      var cs := Replaced(es, at, c);
      ReplacedInOrder(es, at, c);
      ReplacedReadable(es, at, c, limit);
      ReplacedMeaning(es, at, c);
      EntryOrderIsForgotten(Map(es), Map(cs), limit);
    } else {
      assert ReadableEntry(es[at], limit - 1);
      CanonicalizesIffUnambiguous(es[at].val, limit - 1);
      CanonicalizesIffUnambiguous(Map(es), limit);
      AmbiguousField(es, at);
    }
  }

  lemma {:induction false} AmbiguousField(es: seq<Entry>, at: nat)
    requires at < |es| && !Unambiguous(es[at].val)
    ensures !Unambiguous(Map(es))
  {
  }

  lemma {:induction false} ReplacedInOrder(es: seq<Entry>, at: nat, c: Value)
    requires at < |es| && Numbered(es) && InOrder(c)
    requires forall i | 0 <= i < |es| && i != at :: InOrder(es[i].val)
    ensures InOrder(Map(Replaced(es, at, c))) && Canonicalize(Map(Replaced(es, at, c))) == Ok(Map(Replaced(es, at, c)))
  {
    NumberedInOrder(Replaced(es, at, c));
  }

  lemma {:induction false} ReplacedReadable(es: seq<Entry>, at: nat, c: Value, limit: nat)
    requires at < |es| && Readable(Map(es), limit) && Readable(c, Below(limit))
    ensures Readable(Map(Replaced(es, at, c)), limit)
  {
    hide Readable;
    ReadableMap(es, limit);
    ReadableMap(Replaced(es, at, c), limit);
    forall i | 0 <= i < |es| ensures ReadableEntry(Replaced(es, at, c)[i], limit - 1) {
      assert ReadableEntry(es[i], limit - 1);
    }
  }

  lemma {:induction false} ReplacedMeaning(es: seq<Entry>, at: nat, c: Value)
    requires at < |es| && Denote(es[at].val) == Denote(c)
    ensures Denote(Map(es)) == Denote(Map(Replaced(es, at, c)))
  {
    assert DenoteEntries(es) == DenoteEntries(Replaced(es, at, c));
  }
}
