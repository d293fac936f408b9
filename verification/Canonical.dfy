/** Deterministic CBOR: section 4.2.1 of RFC 8949 with duplicate keys refused. */
module Canonical {
  import opened Bytes
  import opened Cbor

  datatype CodecError =
    | Encode
    | Decode
    | DuplicateKey(bytes: seq<Byte>)
    | NotCanonical
    | MissingField(key: nat)
    | TypeMismatch
    | FutureVersion(got: nat, supported: nat)
    | BadContactUri
    | StaleCardVersion(got: nat, known: nat)
    | IdentityChanged

  datatype Result<+T> = Ok(value: T) | Err(error: CodecError) {
    predicate IsFailure() {
      Err?
    }

    function PropagateFailure<U>(): (r: Result<U>)
      requires Err?
    {
      Err(error)
    }

    function Extract(): T
      requires Ok?
    {
      value
    }
  }

  /** A map entry in canonical form beside its encoded key. */
  datatype Keyed = Keyed(bytes: seq<Byte>, entry: Entry)

  function Canonicalize(v: Value): Result<Value> {
    match v
    case Map(es) =>
      var keyed :- CanonicalEntries(es);
      FromSorted(SortByKey(keyed))
    case Array(items) =>
      var canonical :- CanonicalItems(items);
      Ok(Array(canonical))
    case Tag(tag, inner) =>
      var canonical :- Canonicalize(inner);
      Ok(Tag(tag, canonical))
    case _ => Ok(v)
  }

  function CanonicalItems(items: seq<Value>): (r: Result<seq<Value>>)
    ensures r.Ok? ==> |r.value| == |items|
  {
    if items == [] then Ok([])
    else
      var first :- Canonicalize(items[0]);
      var others :- CanonicalItems(items[1..]);
      Ok([first] + others)
  }

  function CanonicalEntry(e: Entry): (r: Result<Keyed>) {
    var key :- Canonicalize(e.key);
    var val :- Canonicalize(e.val);
    Ok(Keyed(Write(key), Entry(key, val)))
  }

  function CanonicalEntries(es: seq<Entry>): (r: Result<seq<Keyed>>)
    ensures r.Ok? ==> |r.value| == |es|
  {
    if es == [] then Ok([])
    else
      var first :- CanonicalEntry(es[0]);
      var others :- CanonicalEntries(es[1..]);
      Ok([first] + others)
  }

  /** A stable sort by encoded key. */
  function SortByKey(s: seq<Keyed>): (r: seq<Keyed>)
    ensures |r| == |s|
  {
    if s == [] then [] else Insert(s[0], SortByKey(s[1..]))
  }

  function Insert(x: Keyed, s: seq<Keyed>): (r: seq<Keyed>)
    ensures |r| == |s| + 1
  {
    if s == [] || !LexLess(s[0].bytes, x.bytes) then [x] + s
    else [s[0]] + Insert(x, s[1..])
  }

  /** The first key that stands next to an equal one. */
  function FirstDuplicate(s: seq<Keyed>): Option<seq<Byte>> {
    if |s| < 2 then None
    else if s[0].bytes == s[1].bytes then Some(s[0].bytes)
    else FirstDuplicate(s[1..])
  }

  function FromSorted(sorted: seq<Keyed>): Result<Value> {
    match FirstDuplicate(sorted)
    case Some(key) => Err(DuplicateKey(key))
    case None => Ok(Map(EntriesOf(sorted)))
  }

  function EntriesOf(s: seq<Keyed>): (es: seq<Entry>)
    ensures |es| == |s|
  {
    seq(|s|, i requires 0 <= i < |s| => s[i].entry)
  }

  function EncodeValue(v: Value): Result<seq<Byte>> {
    var sorted :- Canonicalize(v);
    Ok(Write(sorted))
  }

  /** Reads one item and insists that it encodes back to all the bytes given. */
  function DecodeValue(bytes: seq<Byte>, limit: nat): Result<Value> {
    match Read(bytes, limit)
    case Fail => Err(Decode)
    case Got(value, _) =>
      var reencoded :- EncodeValue(value);
      if reencoded != bytes then Err(NotCanonical) else Ok(value)
  }

  // ---- what a value means: entry order is the only thing forgotten ----

  datatype Pair = Pair(key: Meaning, val: Meaning)

  datatype Meaning =
    | Atom(v: Value)
    | ListOf(items: seq<Meaning>)
    | TableOf(pairs: multiset<Pair>)
    | Tagged(tag: TagNumber, inner: Meaning)

  function Denote(v: Value): Meaning {
    match v
    case Array(items) => ListOf(DenoteItems(items))
    case Map(es) => TableOf(multiset(DenoteEntries(es)))
    case Tag(tag, inner) => Tagged(tag, Denote(inner))
    case _ => Atom(v)
  }

  function DenoteItems(items: seq<Value>): (ms: seq<Meaning>)
    ensures |ms| == |items| && forall i | 0 <= i < |ms| :: ms[i] == Denote(items[i])
  {
    if items == [] then [] else [Denote(items[0])] + DenoteItems(items[1..])
  }

  function DenoteEntry(e: Entry): Pair {
    Pair(Denote(e.key), Denote(e.val))
  }

  function DenoteEntries(es: seq<Entry>): (ps: seq<Pair>)
    ensures |ps| == |es| && forall i | 0 <= i < |ps| :: ps[i] == DenoteEntry(es[i])
  {
    if es == [] then [] else [DenoteEntry(es[0])] + DenoteEntries(es[1..])
  }

  /** No map at any depth has two keys that mean the same. */
  predicate Unambiguous(v: Value) {
    match v
    case Array(items) => forall i | 0 <= i < |items| :: Unambiguous(items[i])
    case Map(es) =>
      (forall i | 0 <= i < |es| :: Unambiguous(es[i].key) && Unambiguous(es[i].val)) &&
      (forall i, j | 0 <= i < j < |es| :: Denote(es[i].key) != Denote(es[j].key))
    case Tag(_, inner) => Unambiguous(inner)
    case _ => true
  }

  /** Every map at every depth is in strictly ascending order of its encoded keys. */
  predicate InOrder(v: Value) {
    match v
    case Array(items) => forall i | 0 <= i < |items| :: InOrder(items[i])
    case Map(es) =>
      (forall i | 0 <= i < |es| :: InOrder(es[i].key) && InOrder(es[i].val)) && Ascending(es)
    case Tag(_, inner) => InOrder(inner)
    case _ => true
  }

  predicate Ascending(es: seq<Entry>) {
    |es| < 2 || (LexLess(Write(es[0].key), Write(es[1].key)) && Ascending(es[1..]))
  }

  // ---- sorting ----

  predicate Sorted(s: seq<Keyed>) {
    |s| < 2 || (!LexLess(s[1].bytes, s[0].bytes) && Sorted(s[1..]))
  }

  predicate Strict(s: seq<Keyed>) {
    |s| < 2 || (LexLess(s[0].bytes, s[1].bytes) && Strict(s[1..]))
  }

  predicate HasKey(s: seq<Keyed>, bytes: seq<Byte>) {
    exists i | 0 <= i < |s| :: s[i].bytes == bytes
  }

  predicate Distinct(s: seq<Keyed>) {
    s == [] || (!HasKey(s[1..], s[0].bytes) && Distinct(s[1..]))
  }

  lemma HasKeyFront(x: Keyed, s: seq<Keyed>, bytes: seq<Byte>)
    ensures HasKey([x] + s, bytes) <==> x.bytes == bytes || HasKey(s, bytes)
  {
    var r := [x] + s;
    if x.bytes == bytes { assert r[0].bytes == bytes; }
    if HasKey(s, bytes) {
      var i :| 0 <= i < |s| && s[i].bytes == bytes;
      assert r[i + 1].bytes == bytes;
    }
  }

  /** In a sorted sequence nothing lies below a bound of its head. */
  lemma {:induction false} BelowHead(s: seq<Keyed>, bytes: seq<Byte>)
    requires Sorted(s) && (s == [] || LexLess(bytes, s[0].bytes))
    ensures !HasKey(s, bytes)
  {
    if s != [] {
      var others := s[1..];
      if others != [] {
        LexTotal(s[0].bytes, others[0].bytes);
        if s[0].bytes != others[0].bytes { LexTransitive(bytes, s[0].bytes, others[0].bytes); }
      }
      BelowHead(others, bytes);
      LexTotal(bytes, bytes);
      HasKeyFront(s[0], others, bytes);
      assert s == [s[0]] + others;
    }
  }

  lemma {:induction false} InsertSorts(x: Keyed, s: seq<Keyed>)
    requires Sorted(s)
    ensures
      var r := Insert(x, s);
      Sorted(r) && (r[0] == x || (s != [] && r[0] == s[0] && LexLess(s[0].bytes, x.bytes)))
    ensures Strict(Insert(x, s)) <==> Strict(s) && !HasKey(s, x.bytes)
  {
    if s != [] {
      var others := s[1..];
      LexTotal(s[0].bytes, x.bytes);
      assert s == [s[0]] + others;
      HasKeyFront(s[0], others, x.bytes);
      if LexLess(s[0].bytes, x.bytes) {
        InsertSorts(x, others);
        var t := Insert(x, others);
        assert ([s[0]] + t)[1..] == t;
        LexTotal(t[0].bytes, s[0].bytes);
        if others != [] && t[0] == x {
          LexTotal(others[0].bytes, x.bytes);
          if LexLess(x.bytes, others[0].bytes) { LexTransitive(s[0].bytes, x.bytes, others[0].bytes); }
        }
      } else {
        assert ([x] + s)[1..] == s;
        if LexLess(x.bytes, s[0].bytes) { BelowHead(s, x.bytes); }
      }
    }
  }

  lemma {:induction false} InsertKeeps(x: Keyed, s: seq<Keyed>, bytes: seq<Byte>)
    ensures multiset(Insert(x, s)) == multiset(s) + multiset{x}
    ensures HasKey(Insert(x, s), bytes) <==> x.bytes == bytes || HasKey(s, bytes)
  {
    if s == [] || !LexLess(s[0].bytes, x.bytes) {
      HasKeyFront(x, s, bytes);
    } else {
      var others := s[1..];
      assert s == [s[0]] + others;
      InsertKeeps(x, others, bytes);
      HasKeyFront(s[0], others, bytes);
      HasKeyFront(s[0], Insert(x, others), bytes);
    }
  }

  lemma {:induction false} SortKeeps(s: seq<Keyed>, bytes: seq<Byte>)
    ensures multiset(SortByKey(s)) == multiset(s)
    ensures HasKey(SortByKey(s), bytes) <==> HasKey(s, bytes)
  {
    if s != [] {
      SortKeeps(s[1..], bytes);
      InsertKeeps(s[0], SortByKey(s[1..]), bytes);
      HasKeyFront(s[0], s[1..], bytes);
      assert s == [s[0]] + s[1..];
    }
  }

  lemma {:induction false} SortSorts(s: seq<Keyed>)
    ensures Sorted(SortByKey(s))
    ensures Strict(SortByKey(s)) <==> Distinct(s)
  {
    if s != [] {
      SortSorts(s[1..]);
      InsertSorts(s[0], SortByKey(s[1..]));
      SortKeeps(s[1..], s[0].bytes);
    }
  }

  /** Comparing neighbours after the sort misses no duplicate. */
  lemma {:induction false} NeighboursSuffice(s: seq<Keyed>)
    requires Sorted(s)
    ensures FirstDuplicate(s).None? <==> Strict(s)
  {
    if |s| >= 2 {
      LexTotal(s[0].bytes, s[1].bytes);
      NeighboursSuffice(s[1..]);
    }
  }

  /** Sorting what is already strictly ascending changes nothing. */
  lemma {:induction false} SortFixed(s: seq<Keyed>)
    requires Strict(s)
    ensures SortByKey(s) == s && Sorted(s)
  {
    if s != [] {
      SortFixed(s[1..]);
      assert s == [s[0]] + s[1..];
      if |s| >= 2 { LexTotal(s[0].bytes, s[1].bytes); }
    }
  }
}
