/** The CBOR data model of section 3 of RFC 8949, a writer that always takes the shortest head, and a
    reader that takes every well-formed head. Floats and bignums are outside the model. */
module Cbor {
  import opened Bytes

  type Int65 = n: int | -U64 <= n < U64
  type Utf8 = s: seq<Byte> | ValidUtf8(s)
  type TagNumber = t: int | 0 <= t < U64 && t != 2 && t != 3

  datatype Entry = Entry(key: Value, val: Value)

  datatype Value =
    | Integer(n: Int65)
    | Bytes(bytes: seq<Byte>)
    | Text(text: Utf8)
    | Array(items: seq<Value>)
    | Map(entries: seq<Entry>)
    | Tag(tag: TagNumber, inner: Value)
    | Bool(b: bool)
    | Null

  /** Section 4 of RFC 3629: what a Rust string can hold. */
  predicate ValidUtf8(s: seq<Byte>) {
    s == [] ||
    (s[0] < 0x80 && ValidUtf8(s[1..])) ||
    (|s| >= 2 && 0xC2 <= s[0] <= 0xDF && Tail(s[1]) && ValidUtf8(s[2..])) ||
    (|s| >= 3 && 0xE0 <= s[0] <= 0xEF && Tail(s[1]) && Tail(s[2]) &&
     (s[0] == 0xE0 ==> s[1] >= 0xA0) && (s[0] == 0xED ==> s[1] <= 0x9F) && ValidUtf8(s[3..])) ||
    (|s| >= 4 && 0xF0 <= s[0] <= 0xF4 && Tail(s[1]) && Tail(s[2]) && Tail(s[3]) &&
     (s[0] == 0xF0 ==> s[1] >= 0x90) && (s[0] == 0xF4 ==> s[1] <= 0x8F) && ValidUtf8(s[4..]))
  }

  predicate Tail(b: Byte) {
    0x80 <= b <= 0xBF
  }

  /** Every length is a `usize`: what any value held in memory satisfies. */
  predicate Fits(v: Value) {
    match v
    case Bytes(b) => |b| < U64
    case Text(t) => |t| < U64
    case Array(items) => |items| < U64 && forall i | 0 <= i < |items| :: Fits(items[i])
    case Map(es) => |es| < U64 && forall i | 0 <= i < |es| :: Fits(es[i].key) && Fits(es[i].val)
    case Tag(_, inner) => Fits(inner)
    case _ => true
  }

  /** The value nests at most `limit` arrays, maps and tags: what the reader's recursion limit lets through. */
  predicate Within(v: Value, limit: nat) {
    match v
    case Array(items) => limit > 0 && forall i | 0 <= i < |items| :: Within(items[i], limit - 1)
    case Map(es) => limit > 0 && forall i | 0 <= i < |es| :: Within(es[i].key, limit - 1) && Within(es[i].val, limit - 1)
    case Tag(_, inner) => limit > 0 && Within(inner, limit - 1)
    case _ => true
  }

  // ---- writer ----

  const UNSIGNED := 0
  const NEGATIVE := 1
  const BYTES := 2
  const TEXT := 3
  const ARRAY := 4
  const MAP := 5
  const TAG := 6
  const SIMPLE := 7

  const FALSE := 20
  const TRUE := 21
  const NULL := 22
  const UNDEFINED := 23
  const INDEFINITE := 31
  const BREAK: Byte := 0xFF

  /** The shortest head. Arguments of 2^64 and more, which no value in memory has, wrap. */
  function Head(major: nat, n: nat): (h: seq<Byte>)
    requires major < 8
    ensures h != []
  {
    var m := 0x20 * major;
    if n < 24 then [m + n]
    else if n < 0x100 then [m + 24] + ToBE(n, 1)
    else if n < 0x1_0000 then [m + 25] + ToBE(n, 2)
    else if n < 0x1_0000_0000 then [m + 26] + ToBE(n, 4)
    else [m + 27] + ToBE(n, 8)
  }

  function Write(v: Value): (s: seq<Byte>)
    ensures s != []
  {
    match v
    case Integer(n) => if n >= 0 then Head(UNSIGNED, n) else Head(NEGATIVE, -1 - n)
    case Bytes(b) => Head(BYTES, |b|) + b
    case Text(t) => Head(TEXT, |t|) + t
    case Array(items) => Head(ARRAY, |items|) + WriteItems(items)
    case Map(es) => Head(MAP, |es|) + WriteEntries(es)
    case Tag(tag, inner) => Head(TAG, tag) + Write(inner)
    case Bool(b) => Head(SIMPLE, if b then TRUE else FALSE)
    case Null => Head(SIMPLE, NULL)
  }

  function WriteItems(items: seq<Value>): seq<Byte> {
    if items == [] then [] else Write(items[0]) + WriteItems(items[1..])
  }

  function WriteEntries(es: seq<Entry>): seq<Byte> {
    if es == [] then [] else WriteEntry(es[0]) + WriteEntries(es[1..])
  }

  function WriteEntry(e: Entry): seq<Byte> {
    Write(e.key) + Write(e.val)
  }

  // ---- reader ----

  datatype Parsed<+T> = Fail | Got(value: T, rest: seq<Byte>)

  /** Major type, additional information, and the argument it announces (0 for indefinite lengths). */
  datatype Lead = Lead(major: nat, info: nat, n: nat)

  function ReadHead(bytes: seq<Byte>): (r: Parsed<Lead>)
    ensures r.Got? ==> |r.rest| < |bytes|
  {
    if bytes == [] then Fail
    else
      var major, info := bytes[0] / 0x20, bytes[0] % 0x20;
      if info < 24 then Got(Lead(major, info, info), bytes[1..])
      else if info == INDEFINITE then Got(Lead(major, info, 0), bytes[1..])
      else if info > 27 then Fail
      else
        var width := if info == 24 then 1 else if info == 25 then 2 else if info == 26 then 4 else 8;
        if |bytes| < 1 + width then Fail
        else Got(Lead(major, info, FromBE(bytes[1..1 + width])), bytes[1 + width..])
  }

  /** `limit` counts the arrays, maps and tags that may still be opened. */
  function Read(bytes: seq<Byte>, limit: nat): (r: Parsed<Value>)
    ensures r.Got? ==> |r.rest| < |bytes|
    decreases |bytes|, 0
  {
    var head := ReadHead(bytes);
    if head.Fail? then Fail
    else
      var Lead(major, info, n) := head.value;
      var rest := head.rest;
      if info == INDEFINITE then ReadIndefinite(major, rest, limit)
      else if major == UNSIGNED then (if n < U64 then Got(Integer(n), rest) else Fail)
      else if major == NEGATIVE then (if n < U64 then Got(Integer(-1 - n), rest) else Fail)
      else if major == BYTES then (if n <= |rest| then Got(Bytes(rest[..n]), rest[n..]) else Fail)
      else if major == TEXT then
        (if n <= |rest| && ValidUtf8(rest[..n]) then Got(Text(rest[..n]), rest[n..]) else Fail)
      else if major == ARRAY then
        if limit == 0 then Fail
        else
          var items := ReadItems(n, rest, limit - 1);
          if items.Fail? then Fail else Got(Array(items.value), items.rest)
      else if major == MAP then
        if limit == 0 then Fail
        else
          var entries := ReadEntries(n, rest, limit - 1);
          if entries.Fail? then Fail else Got(Map(entries.value), entries.rest)
      else if major == TAG then
        if limit == 0 || n == 2 || n == 3 || n >= U64 then Fail
        else
          var inner := Read(rest, limit - 1);
          if inner.Fail? then Fail else Got(Tag(n, inner.value), inner.rest)
      else if info == FALSE then Got(Bool(false), rest)
      else if info == TRUE then Got(Bool(true), rest)
      else if info == NULL || info == UNDEFINED then Got(Null, rest)
      else Fail
  }

  function ReadIndefinite(major: nat, bytes: seq<Byte>, limit: nat): (r: Parsed<Value>)
    ensures r.Got? ==> |r.rest| <= |bytes|
    decreases |bytes|, 3
  {
    if major == BYTES then
      var chunks := ReadChunks(major, bytes);
      if chunks.Fail? then Fail else Got(Bytes(chunks.value), chunks.rest)
    else if major == TEXT then
      var chunks := ReadChunks(major, bytes);
      if chunks.Fail? || !ValidUtf8(chunks.value) then Fail else Got(Text(chunks.value), chunks.rest)
    else if major == ARRAY && limit > 0 then
      var items := ReadItemsToBreak(bytes, limit - 1);
      if items.Fail? then Fail else Got(Array(items.value), items.rest)
    else if major == MAP && limit > 0 then
      var entries := ReadEntriesToBreak(bytes, limit - 1);
      if entries.Fail? then Fail else Got(Map(entries.value), entries.rest)
    else Fail
  }

  function ReadItems(count: nat, bytes: seq<Byte>, limit: nat): (r: Parsed<seq<Value>>)
    ensures r.Got? ==> |r.rest| <= |bytes|
    decreases |bytes|, 1
  {
    if count == 0 then Got([], bytes)
    else
      var first := Read(bytes, limit);
      if first.Fail? then Fail
      else
        var others := ReadItems(count - 1, first.rest, limit);
        if others.Fail? then Fail else Got([first.value] + others.value, others.rest)
  }

  function ReadItemsToBreak(bytes: seq<Byte>, limit: nat): (r: Parsed<seq<Value>>)
    ensures r.Got? ==> |r.rest| <= |bytes|
    decreases |bytes|, 1
  {
    if bytes != [] && bytes[0] == BREAK then Got([], bytes[1..])
    else
      var first := Read(bytes, limit);
      if first.Fail? then Fail
      else
        var others := ReadItemsToBreak(first.rest, limit);
        if others.Fail? then Fail else Got([first.value] + others.value, others.rest)
  }

  function ReadEntry(bytes: seq<Byte>, limit: nat): (r: Parsed<Entry>)
    ensures r.Got? ==> |r.rest| < |bytes|
    decreases |bytes|, 1
  {
    var key := Read(bytes, limit);
    if key.Fail? then Fail
    else
      var val := Read(key.rest, limit);
      if val.Fail? then Fail else Got(Entry(key.value, val.value), val.rest)
  }

  function ReadEntries(count: nat, bytes: seq<Byte>, limit: nat): (r: Parsed<seq<Entry>>)
    ensures r.Got? ==> |r.rest| <= |bytes|
    decreases |bytes|, 2
  {
    if count == 0 then Got([], bytes)
    else
      var first := ReadEntry(bytes, limit);
      if first.Fail? then Fail
      else
        var others := ReadEntries(count - 1, first.rest, limit);
        if others.Fail? then Fail else Got([first.value] + others.value, others.rest)
  }

  function ReadEntriesToBreak(bytes: seq<Byte>, limit: nat): (r: Parsed<seq<Entry>>)
    ensures r.Got? ==> |r.rest| <= |bytes|
    decreases |bytes|, 2
  {
    if bytes != [] && bytes[0] == BREAK then Got([], bytes[1..])
    else
      var first := ReadEntry(bytes, limit);
      if first.Fail? then Fail
      else
        var others := ReadEntriesToBreak(first.rest, limit);
        if others.Fail? then Fail else Got([first.value] + others.value, others.rest)
  }

  /** The chunks of an indefinite string: definite strings of the same type, up to the break. */
  function ReadChunks(major: nat, bytes: seq<Byte>): (r: Parsed<seq<Byte>>)
    ensures r.Got? ==> |r.rest| <= |bytes|
    decreases |bytes|
  {
    var head := ReadHead(bytes);
    if bytes != [] && bytes[0] == BREAK then Got([], bytes[1..])
    else if head.Fail? || head.value.major != major || head.value.info == INDEFINITE || head.value.n > |head.rest| then Fail
    else
      var n := head.value.n;
      if major == TEXT && !ValidUtf8(head.rest[..n]) then Fail
      else
        var others := ReadChunks(major, head.rest[n..]);
        if others.Fail? then Fail else Got(head.rest[..n] + others.value, others.rest)
  }

  // ---- the reader undoes the writer ----

  lemma {:induction false} HeadRead(major: nat, n: nat, rest: seq<Byte>)
    requires major < 8 && n < U64
    ensures
      var r := ReadHead(Head(major, n) + rest);
      r.Got? && r.value.major == major && r.value.n == n && r.rest == rest &&
      r.value.info != INDEFINITE && (n < 24 ==> r.value.info == n)
  {
    PowersOf256();
    if n < 24 {
      assert ([0x20 * major + n] + rest)[1..] == rest;
    } else if n < 0x100 {
      LongHeadRead(major, 24, 1, n, rest);
    } else if n < 0x1_0000 {
      LongHeadRead(major, 25, 2, n, rest);
    } else if n < 0x1_0000_0000 {
      LongHeadRead(major, 26, 4, n, rest);
    } else {
      LongHeadRead(major, 27, 8, n, rest);
    }
  }

  lemma {:induction false} LongHeadRead(major: nat, info: nat, width: nat, n: nat, rest: seq<Byte>)
    requires major < 8 && n < Pow256(width)
    requires (info == 24 && width == 1) || (info == 25 && width == 2) || (info == 26 && width == 4) || (info == 27 && width == 8)
    ensures ReadHead([0x20 * major + info] + ToBE(n, width) + rest) == Got(Lead(major, info, n), rest)
  {
    hide ToBE, FromBE;
    var first: Byte := 0x20 * major + info;
    assert first / 0x20 == major && first % 0x20 == info;
    LongHeadSplits(first, ToBE(n, width), rest);
    FromToBE(n, width);
  }

  lemma {:induction false} LongHeadSplits(first: Byte, number: seq<Byte>, rest: seq<Byte>)
    ensures
      var bytes := [first] + number + rest;
      bytes[0] == first && bytes[1..1 + |number|] == number && bytes[1 + |number|..] == rest
  {
  }

  lemma {:induction false} PowersOf256()
    ensures Pow256(1) == 0x100 && Pow256(2) == 0x1_0000 && Pow256(4) == 0x1_0000_0000 && Pow256(8) == U64
  {
    assert Pow256(3) == 0x100_0000;
    assert Pow256(5) == 0x100_0000_0000;
    assert Pow256(6) == 0x1_0000_0000_0000;
    assert Pow256(7) == 0x100_0000_0000_0000;
  }

  /** Whatever follows, the reader takes exactly the bytes the writer gave: encodings are prefix-free. */
  predicate RoundTrips(v: Value, limit: nat, rest: seq<Byte>) {
    Read(Write(v) + rest, limit) == Got(v, rest)
  }

  predicate ItemsRoundTrip(items: seq<Value>, limit: nat, rest: seq<Byte>) {
    ReadItems(|items|, WriteItems(items) + rest, limit) == Got(items, rest)
  }

  predicate EntriesRoundTrip(es: seq<Entry>, limit: nat, rest: seq<Byte>) {
    ReadEntries(|es|, WriteEntries(es) + rest, limit) == Got(es, rest)
  }

  lemma {:induction false} ReadWrite(v: Value, limit: nat, rest: seq<Byte>)
    requires Fits(v) && Within(v, limit)
    ensures RoundTrips(v, limit, rest)
    decreases v, 1
  {
    hide RoundTrips, ItemsRoundTrip, EntriesRoundTrip, Head, ReadHead;
    match v
    case Integer(_) => ReadWriteAtom(v, limit, rest);
    case Bool(_) => ReadWriteAtom(v, limit, rest);
    case Null => ReadWriteAtom(v, limit, rest);
    case Bytes(_) => ReadWriteString(v, limit, rest);
    case Text(_) => ReadWriteString(v, limit, rest);
    case Array(items) =>
      ReadWriteItems(items, limit - 1, rest);
      ReadWriteArray(items, limit, rest);
    case Map(es) =>
      ReadWriteEntries(es, limit - 1, rest);
      ReadWriteMap(es, limit, rest);
    case Tag(tag, inner) =>
      ReadWrite(inner, limit - 1, rest);
      ReadWriteTag(tag, inner, limit, rest);
  }

  lemma {:induction false} ReadWriteItems(items: seq<Value>, limit: nat, rest: seq<Byte>)
    requires forall i | 0 <= i < |items| :: Fits(items[i]) && Within(items[i], limit)
    ensures ItemsRoundTrip(items, limit, rest)
    decreases items, 0
  {
    if items != [] {
      hide RoundTrips, ItemsRoundTrip, Head;
      ReadWrite(items[0], limit, WriteItems(items[1..]) + rest);
      ReadWriteItems(items[1..], limit, rest);
      ReadWriteItemsStep(items, limit, rest);
    }
  }

  lemma {:induction false} ReadWriteEntries(es: seq<Entry>, limit: nat, rest: seq<Byte>)
    requires forall i | 0 <= i < |es| :: Fits(es[i].key) && Fits(es[i].val)
    requires forall i | 0 <= i < |es| :: Within(es[i].key, limit) && Within(es[i].val, limit)
    ensures EntriesRoundTrip(es, limit, rest)
    decreases es, 0
  {
    if es != [] {
      hide RoundTrips, EntriesRoundTrip, Head;
      var e := es[0];
      assert e.key < e && e.val < e;
      ReadWrite(e.key, limit, Write(e.val) + (WriteEntries(es[1..]) + rest));
      ReadWrite(e.val, limit, WriteEntries(es[1..]) + rest);
      ReadWriteEntries(es[1..], limit, rest);
      ReadWriteEntriesStep(es, limit, rest);
    }
  }

  lemma {:induction false} ReadWriteAtom(v: Value, limit: nat, rest: seq<Byte>)
    requires v.Integer? || v.Bool? || v.Null?
    ensures RoundTrips(v, limit, rest)
  {
    hide Head, ReadHead;
    match v
    case Integer(n) => HeadRead(if n >= 0 then UNSIGNED else NEGATIVE, if n >= 0 then n else -1 - n, rest);
    case Bool(b) => HeadRead(SIMPLE, if b then TRUE else FALSE, rest);
    case Null => HeadRead(SIMPLE, NULL, rest);
  }

  lemma {:induction false} ReadWriteString(v: Value, limit: nat, rest: seq<Byte>)
    requires (v.Bytes? || v.Text?) && Fits(v)
    ensures RoundTrips(v, limit, rest)
  {
    hide Head, ReadHead;
    var major, body := if v.Bytes? then BYTES else TEXT, if v.Bytes? then v.bytes else v.text;
    HeadRead(major, |body|, body + rest);
    assert Head(major, |body|) + body + rest == Head(major, |body|) + (body + rest);
    assert (body + rest)[..|body|] == body && (body + rest)[|body|..] == rest;
  }

  lemma {:induction false} ReadWriteArray(items: seq<Value>, limit: nat, rest: seq<Byte>)
    requires |items| < U64 && limit > 0 && ItemsRoundTrip(items, limit - 1, rest)
    ensures RoundTrips(Array(items), limit, rest)
  {
    hide Head, ReadHead, ReadIndefinite;
    HeadRead(ARRAY, |items|, WriteItems(items) + rest);
    assert Head(ARRAY, |items|) + WriteItems(items) + rest == Head(ARRAY, |items|) + (WriteItems(items) + rest);
  }

  lemma {:induction false} ReadWriteMap(es: seq<Entry>, limit: nat, rest: seq<Byte>)
    requires |es| < U64 && limit > 0 && EntriesRoundTrip(es, limit - 1, rest)
    ensures RoundTrips(Map(es), limit, rest)
  {
    hide Head, ReadHead, ReadIndefinite;
    HeadRead(MAP, |es|, WriteEntries(es) + rest);
    assert Head(MAP, |es|) + WriteEntries(es) + rest == Head(MAP, |es|) + (WriteEntries(es) + rest);
  }

  lemma {:induction false} ReadWriteTag(tag: TagNumber, inner: Value, limit: nat, rest: seq<Byte>)
    requires limit > 0 && RoundTrips(inner, limit - 1, rest)
    ensures RoundTrips(Tag(tag, inner), limit, rest)
  {
    hide Head, ReadHead, ReadIndefinite;
    HeadRead(TAG, tag, Write(inner) + rest);
    assert Head(TAG, tag) + Write(inner) + rest == Head(TAG, tag) + (Write(inner) + rest);
  }

  lemma {:induction false} ReadWriteItemsStep(items: seq<Value>, limit: nat, rest: seq<Byte>)
    requires items != [] && RoundTrips(items[0], limit, WriteItems(items[1..]) + rest)
    requires ItemsRoundTrip(items[1..], limit, rest)
    ensures ItemsRoundTrip(items, limit, rest)
  {
    hide Head, ReadHead, ReadIndefinite;
    assert WriteItems(items) + rest == Write(items[0]) + (WriteItems(items[1..]) + rest);
    assert items == [items[0]] + items[1..];
  }

  lemma {:induction false} ReadWriteEntriesStep(es: seq<Entry>, limit: nat, rest: seq<Byte>)
    requires es != [] && RoundTrips(es[0].key, limit, Write(es[0].val) + (WriteEntries(es[1..]) + rest))
    requires RoundTrips(es[0].val, limit, WriteEntries(es[1..]) + rest)
    requires EntriesRoundTrip(es[1..], limit, rest)
    ensures EntriesRoundTrip(es, limit, rest)
  {
    hide Head, ReadHead, ReadIndefinite;
    var others := WriteEntries(es[1..]) + rest;
    assert ReadEntry(Write(es[0].key) + (Write(es[0].val) + others), limit) == Got(es[0], others);
    assert WriteEntries(es) + rest == Write(es[0].key) + (Write(es[0].val) + others);
    assert es == [es[0]] + es[1..];
  }
}
