/** What the reader takes that the writer never gives: longer heads and indefinite lengths. It is read for what it says, and
    then refused as not canonical. */
module LooseForms {
  import opened Bytes
  import opened Cbor
  import opened Canonical
  import Laws = CanonicalLaws
  import Theorems = CanonicalTheorems

  // ---- longer heads ----

  /** A number below 2^(8 * width) in a head of that width, though a shorter would do. */
  function LongHead(major: nat, info: nat, n: nat): seq<Byte>
    requires major < 8 && 24 <= info <= 27
  {
    [0x20 * major + info] + ToBE(n, Width(info))
  }

  function Width(info: nat): nat {
    if info == 24 then 1 else if info == 25 then 2 else if info == 26 then 4 else 8
  }

  lemma {:induction false} LongNumberReads(info: nat, n: nat, rest: seq<Byte>, limit: nat)
    requires 24 <= info <= 27 && n < U64 && n < Pow256(Width(info))
    ensures Read(LongHead(0, info, n) + rest, limit) == Got(Integer(n), rest)
    ensures Read(LongHead(1, info, n) + rest, limit) == Got(Integer(-1 - n), rest)
  {
    hide ReadHead, ToBE, FromBE;
    PowersOf256();
    LongHeadRead(0, info, Width(info), n, rest);
    LongHeadRead(1, info, Width(info), n, rest);
  }

  /** A number in a head longer than it needs is refused as not canonical. */
  lemma {:induction false} LongNumberRefused(info: nat, n: nat, limit: nat)
    requires 24 <= info <= 27 && n < U64 && n < Pow256(Width(info)) && |Head(0, n)| < 1 + Width(info)
    ensures DecodeValue(LongHead(0, info, n), limit) == Err(NotCanonical)
    ensures DecodeValue(LongHead(1, info, n), limit) == Err(NotCanonical)
  {
    hide Read, Head, ToBE;
    LongNumberReads(info, n, [], limit);
    assert LongHead(0, info, n) + [] == LongHead(0, info, n) && LongHead(1, info, n) + [] == LongHead(1, info, n);
    SameSize(n);
    assert EncodeValue(Integer(n)) == Ok(Head(0, n)) && EncodeValue(Integer(-1 - n)) == Ok(Head(1, n));
  }

  lemma {:induction false} SameSize(n: nat)
    ensures |Head(0, n)| == |Head(1, n)|
  {
  }

  // ---- indefinite lengths ----

  /** No encoding begins like a break. */
  lemma {:induction false} NoBreak(v: Value)
    ensures Write(v) != [] && Write(v)[0] != 0xFF
  {
    match v
    case Integer(n) => HeadIsNoBreak(if n >= 0 then 0 else 1, if n >= 0 then n else -1 - n);
    case Bytes(s) => HeadIsNoBreak(2, |s|);
    case Text(s) => HeadIsNoBreak(3, |s|);
    case Array(items) => HeadIsNoBreak(4, |items|);
    case Map(es) => HeadIsNoBreak(5, |es|);
    case Tag(tag, inner) => HeadIsNoBreak(6, tag);
    case Bool(b) => HeadIsNoBreak(7, if b then 21 else 20);
    case Null => HeadIsNoBreak(7, 22);
  }

  lemma {:induction false} HeadIsNoBreak(major: nat, n: nat)
    requires major < 8 && (major == 7 ==> n < 24)
    ensures Head(major, n)[0] != 0xFF
  {
  }

  predicate AllFit(items: seq<Value>, limit: nat) {
    forall i | 0 <= i < |items| :: Fits(items[i]) && Within(items[i], limit)
  }

  lemma {:induction false} ItemsToBreak(items: seq<Value>, limit: nat, rest: seq<Byte>)
    requires AllFit(items, limit)
    ensures ReadItemsToBreak(WriteItems(items) + ([0xFF] + rest), limit) == Got(items, rest)
  {
    hide Read, Write, Fits, Within;
    var end := [0xFF] + rest;
    if items == [] {
      assert WriteItems(items) + end == end && end[1..] == rest;
    } else {
      var others := items[1..];
      forall i | 0 <= i < |others| ensures Fits(others[i]) && Within(others[i], limit) {
        assert others[i] == items[i + 1];
      }
      ItemsToBreak(others, limit, rest);
      var more := WriteItems(others) + end;
      assert WriteItems(items) + end == Write(items[0]) + more;
      ReadWrite(items[0], limit, more);
      NoBreak(items[0]);
      assert items == [items[0]] + others;
    }
  }

  /** An array of no stated length is read as the items up to the break. */
  lemma {:induction false} OpenArrayReads(items: seq<Value>, limit: nat, rest: seq<Byte>)
    requires limit > 0 && AllFit(items, limit - 1)
    ensures Read([0x9F] + WriteItems(items) + [0xFF] + rest, limit) == Got(Array(items), rest)
  {
    hide Fits, Within, ReadItemsToBreak;
    var body := WriteItems(items) + ([0xFF] + rest);
    assert [0x9F] + WriteItems(items) + [0xFF] + rest == [0x9F] + body;
    ItemsToBreak(items, limit - 1, rest);
    OpenHead(4, 0x9F, body);
    OpenedArray(body, limit);
  }

  lemma {:induction false} OpenHead(major: nat, first: Byte, body: seq<Byte>)
    requires major < 8 && first == 0x20 * major + 31
    ensures ReadHead([first] + body) == Got(Lead(major, 31, 0), body)
  {
    assert ([first] + body)[1..] == body;
  }

  lemma {:induction false} OpenedArray(body: seq<Byte>, limit: nat)
    requires limit > 0 && ReadHead([0x9F] + body) == Got(Lead(4, 31, 0), body) && ReadItemsToBreak(body, limit - 1).Got?
    ensures Read([0x9F] + body, limit) == Got(Array(ReadItemsToBreak(body, limit - 1).value), ReadItemsToBreak(body, limit - 1).rest)
  {
    hide ReadHead, ReadItemsToBreak, ReadItems, ReadEntries, ReadEntriesToBreak, ReadChunks;
  }

  /** It is refused as not canonical, unless it is refused for a key that occurs twice. */
  lemma {:induction false} OpenArrayRefused(items: seq<Value>, limit: nat)
    requires limit > 0 && AllFit(items, limit - 1) && |items| < U64 && Unambiguous(Array(items))
    ensures DecodeValue([0x9F] + WriteItems(items) + [0xFF], limit) == Err(NotCanonical)
  {
    hide Read, Fits, Within, Write, Unambiguous;
    var bytes := [0x9F] + WriteItems(items) + [0xFF];
    assert bytes + [] == bytes;
    OpenArrayReads(items, limit, []);
    ArrayFits(items, limit);
    Theorems.EncodesIffUnambiguous(Array(items), limit);
    FirstDiffers(items);
  }

  lemma {:induction false} ArrayFits(items: seq<Value>, limit: nat)
    requires limit > 0 && AllFit(items, limit - 1) && |items| < U64
    ensures Laws.Readable(Array(items), limit)
  {
  }

  /** The canonical encoding of an array begins with its length. */
  lemma {:induction false} FirstDiffers(items: seq<Value>)
    ensures EncodeValue(Array(items)).Ok? ==> EncodeValue(Array(items)).value[0] != 0x9F
  {
    if EncodeValue(Array(items)).Ok? {
      var sorted := CanonicalItems(items).value;
      LengthHead(|sorted|);
      assert EncodeValue(Array(items)).value == Head(ARRAY, |sorted|) + WriteItems(sorted);
    }
  }

  lemma {:induction false} LengthHead(n: nat)
    ensures Head(ARRAY, n)[0] != 0x9F
  {
  }

  /** A byte string in pieces is read as the pieces joined. */
  lemma {:induction false} PiecesRead(a: seq<Byte>, b: seq<Byte>, rest: seq<Byte>, limit: nat)
    requires |a| < U64 && |b| < U64
    ensures Read([0x5F] + ((Head(2, |a|) + a) + ((Head(2, |b|) + b) + ([0xFF] + rest))), limit) == Got(Value.Bytes(a + b), rest)
  {
    hide Head, ReadHead, ReadChunks;
    var end := [0xFF] + rest;
    assert end[1..] == rest;
    EndOfPieces(rest);
    OnePiece(b, end, [], rest);
    OnePiece(a, (Head(2, |b|) + b) + end, b + [], rest);
    assert b + [] == b;
    var body := (Head(2, |a|) + a) + ((Head(2, |b|) + b) + end);
    OpenHead(2, 0x5F, body);
  }

  lemma {:induction false} EndOfPieces(rest: seq<Byte>)
    ensures ReadChunks(2, [0xFF] + rest) == Got([], rest)
  {
    assert ([0xFF] + rest)[1..] == rest;
  }

  lemma {:induction false} OnePiece(a: seq<Byte>, more: seq<Byte>, others: seq<Byte>, rest: seq<Byte>)
    requires |a| < U64 && ReadChunks(2, more) == Got(others, rest)
    ensures ReadChunks(2, (Head(2, |a|) + a) + more) == Got(a + others, rest)
  {
    hide Head, ReadHead;
    assert (Head(2, |a|) + a) + more == Head(2, |a|) + (a + more);
    HeadRead(2, |a|, a + more);
    HeadIsNoBreak(2, |a|);
    assert (a + more)[..|a|] == a && (a + more)[|a|..] == more;
  }
}
