/** A snapshot that is read back gives the cache and the address it was taken of, and exactly when every
    face in it is small enough. */
module SnapshotLaws {
  import opened Bytes
  import opened Cbor
  import opened Canonical
  import opened CanonicalLaws
  import opened CanonicalTheorems
  import opened Fields
  import opened CompanionCacheLaws
  import opened Snapshots
  import CC = CompanionCache

  // ---- canonical form of what is written ----

  function InCanonicalForm(v: Value): Value {
    match Canonicalize(v)
    case Ok(c) => c
    case Err(_) => v
  }

  function Tidied(codec: ItemCodec): ItemCodec {
    codec.(chatValue := (chat: CC.ChatSummary) => InCanonicalForm(codec.chatValue(chat)),
           messageValue := (m: CC.Message) => InCanonicalForm(codec.messageValue(m)))
  }

  /** Reading an item from its encoding gives the item back: what the item codec promises. */
  ghost predicate CodecRoundTrips(codec: ItemCodec) {
    (forall chat :: Canonicalize(codec.chatValue(chat)).Ok? && codec.chatFrom(InCanonicalForm(codec.chatValue(chat))) == Ok(chat)) &&
    (forall m :: Canonicalize(codec.messageValue(m)).Ok? && codec.messageFrom(InCanonicalForm(codec.messageValue(m))) == Ok(m))
  }

  lemma {:induction false} CanonicalArray(items: seq<Value>, cs: seq<Value>)
    requires |cs| == |items| && forall i | 0 <= i < |items| :: Canonicalize(items[i]) == Ok(cs[i])
    ensures Canonicalize(Array(items)) == Ok(Array(cs)) && CanonicalItems(items) == Ok(cs)
  {
    if items != [] {
      CanonicalArray(items[1..], cs[1..]);
      assert cs == [cs[0]] + cs[1..];
    }
  }

  lemma {:induction false} CanonicalEach(es: seq<Entry>, cs: seq<Entry>)
    requires |cs| == |es| && forall i | 0 <= i < |es| :: es[i].key.Integer? && cs[i].key == es[i].key
    requires forall i | 0 <= i < |es| :: Canonicalize(es[i].val) == Ok(cs[i].val)
    ensures CanonicalEntries(es) == Ok(KeyedOf(cs))
  {
    hide Write;
    if es != [] {
      CanonicalEach(es[1..], cs[1..]);
      assert KeyedOf(cs) == [Keyed(Write(cs[0].key), cs[0])] + KeyedOf(cs[1..]);
      assert CanonicalEntry(es[0]) == Ok(Keyed(Write(cs[0].key), cs[0]));
    }
  }

  lemma {:induction false} NumberedStrict(cs: seq<Entry>)
    requires Numbered(cs)
    ensures Strict(KeyedOf(cs))
  {
    if |cs| >= 2 {
      NumberedStrict(cs[1..]);
      assert KeyedOf(cs)[1..] == KeyedOf(cs[1..]);
      assert Write(cs[0].key) == [cs[0].key.n] && Write(cs[1].key) == [cs[1].key.n];
    }
  }

  /** A structure with small numeric keys in ascending order is canonical as soon as its fields are. */
  lemma {:induction false} CanonicalNumbered(es: seq<Entry>, cs: seq<Entry>)
    requires Numbered(es) && |cs| == |es| && forall i | 0 <= i < |es| :: cs[i].key == es[i].key
    requires forall i | 0 <= i < |es| :: Canonicalize(es[i].val) == Ok(cs[i].val)
    ensures Canonicalize(Map(es)) == Ok(Map(cs))
  {
    hide Write;
    CanonicalEach(es, cs);
    assert Numbered(cs);
    NumberedStrict(cs);
    SortFixed(KeyedOf(cs));
    NeighboursSuffice(KeyedOf(cs));
    assert EntriesOf(KeyedOf(cs)) == cs;
  }

  lemma {:induction false} FaceFieldsNumbered(face: CC.Face, chat: CC.Id)
    ensures Numbered(FaceFields(face)) && Canonicalize(Map(FaceFields(face))) == Ok(Map(FaceFields(face)))
    ensures Canonicalize(FaceValue(chat, face)) == Ok(FaceValue(chat, face))
  {
    hide Write;
    CanonicalNumbered(FaceFields(face), FaceFields(face));
    var es := FaceValue(chat, face).entries;
    CanonicalNumbered(es, es);
  }

  lemma {:induction false} PageCanonical(chat: CC.Id, page: seq<CC.Message>, codec: ItemCodec)
    requires CodecRoundTrips(codec)
    ensures Canonicalize(Map(PageFields(chat, page, codec))) == Ok(Map(PageFields(chat, page, Tidied(codec))))
  {
    hide Write;
    CanonicalArray(MessageValues(page, codec), MessageValues(page, Tidied(codec)));
    CanonicalNumbered(PageFields(chat, page, codec), PageFields(chat, page, Tidied(codec)));
  }

  lemma {:induction false} PagesCanonical(history: map<CC.Id, seq<CC.Message>>, order: seq<CC.Id>, codec: ItemCodec)
    requires CodecRoundTrips(codec) && forall chat | chat in order :: chat in history
    ensures Canonicalize(Array(PageValues(history, order, codec))) == Ok(Array(PageValues(history, order, Tidied(codec))))
  {
    forall i | 0 <= i < |order|
      ensures Canonicalize(PageValues(history, order, codec)[i]) == Ok(PageValues(history, order, Tidied(codec))[i])
    {
      PageCanonical(order[i], history[order[i]], codec);
    }
    CanonicalArray(PageValues(history, order, codec), PageValues(history, order, Tidied(codec)));
  }

  lemma {:induction false} FacesCanonical(avatars: map<CC.Id, CC.Face>, order: seq<CC.Id>)
    requires forall chat | chat in order :: chat in avatars
    ensures Canonicalize(Array(FaceValues(avatars, order))) == Ok(Array(FaceValues(avatars, order)))
  {
    forall i | 0 <= i < |order| ensures Canonicalize(FaceValues(avatars, order)[i]) == Ok(FaceValues(avatars, order)[i]) {
      FaceFieldsNumbered(avatars[order[i]], order[i]);
    }
    CanonicalArray(FaceValues(avatars, order), FaceValues(avatars, order));
  }

  lemma {:induction false} SnapshotNumbered(m: Memory, walk: Walk, codec: ItemCodec)
    requires Walks(walk, m.cache)
    ensures Numbered(SnapshotFields(m, walk, codec))
  {
    hide Walks, ChatValues, PageValues, FaceValues, PeerValues;
  }

  /** Encoding a snapshot only puts its items in canonical order. */
  lemma {:induction false} SnapshotCanonical(m: Memory, walk: Walk, codec: ItemCodec)
    requires Walks(walk, m.cache) && CodecRoundTrips(codec)
    ensures Canonicalize(SnapshotValue(m, walk, codec)) == Ok(SnapshotValue(m, walk, Tidied(codec)))
  {
    hide Write, PageValues, FaceValues, PeerValues, CodecRoundTrips, Numbered;
    var es, cs := SnapshotFields(m, walk, codec), SnapshotFields(m, walk, Tidied(codec));
    SnapshotNumbered(m, walk, codec);
    ChatsCanonical(m.cache.chats, codec);
    PagesCanonical(m.cache.history, walk.chats, codec);
    FacesCanonical(m.cache.avatars, walk.faces);
    PeersCanonical(m.address.peers);
    if m.cache.mine.Some? { FaceFieldsNumbered(m.cache.mine.value, seq(16, _ => 0)); }
    CanonicalNumbered(es, cs);
  }

  lemma {:induction false} ChatsCanonical(chats: seq<CC.ChatSummary>, codec: ItemCodec)
    requires CodecRoundTrips(codec)
    ensures Canonicalize(Array(ChatValues(chats, codec))) == Ok(Array(ChatValues(chats, Tidied(codec))))
  {
    CanonicalArray(ChatValues(chats, codec), ChatValues(chats, Tidied(codec)));
  }

  lemma {:induction false} PeersCanonical(peers: seq<Utf8>)
    ensures Canonicalize(Array(PeerValues(peers))) == Ok(Array(PeerValues(peers)))
  {
    CanonicalArray(PeerValues(peers), PeerValues(peers));
  }
}
