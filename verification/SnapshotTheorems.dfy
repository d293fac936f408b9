/** Reading a snapshot back. */
module SnapshotTheorems {
  import opened Bytes
  import opened Cbor
  import opened Canonical
  import opened CanonicalLaws
  import opened CanonicalTheorems
  import opened Fields
  import opened CompanionCacheLaws
  import opened CompanionPages
  import opened CompanionCacheTheorems
  import opened Snapshots
  import opened SnapshotLaws
  import CC = CompanionCache

  /** One codec reads exactly what another wrote, item by item. */
  ghost predicate Reads(codec: ItemCodec, writer: ItemCodec) {
    (forall chat :: codec.chatFrom(writer.chatValue(chat)) == Ok(chat)) &&
    (forall m :: codec.messageFrom(writer.messageValue(m)) == Ok(m))
  }

  predicate Small(face: CC.Face) {
    |face.bytes| <= MAX_AVATAR_BYTES
  }

  predicate FacesSmall(c: CC.CacheState) {
    (forall chat | chat in c.avatars :: Small(c.avatars[chat])) && (c.mine.Some? ==> Small(c.mine.value))
  }

  // ---- chats and messages ----

  lemma {:induction false} ChatsRead(chats: seq<CC.ChatSummary>, codec: ItemCodec, writer: ItemCodec)
    requires Reads(codec, writer)
    ensures ChatsFrom(ChatValues(chats, writer), codec) == Good(chats)
  {
    if chats != [] {
      ChatsRead(chats[1..], codec, writer);
      assert ChatValues(chats, writer)[1..] == ChatValues(chats[1..], writer);
      assert chats == [chats[0]] + chats[1..];
    }
  }

  lemma {:induction false} MessagesRead(page: seq<CC.Message>, codec: ItemCodec, writer: ItemCodec)
    requires Reads(codec, writer)
    ensures MessagesFrom(MessageValues(page, writer), codec) == Good(page)
  {
    if page != [] {
      MessagesRead(page[1..], codec, writer);
      assert MessageValues(page, writer)[1..] == MessageValues(page[1..], writer);
      assert page == [page[0]] + page[1..];
    }
  }

  // ---- pages ----

  /** Opening a chat that was not remembered, while there is room. */
  lemma {:induction false} TouchNew(c: CC.CacheState, chat: CC.Id)
    requires chat !in c.touched && |c.touched| < CC.DESKTOP_CACHE_CHATS
    ensures c.Touch(chat) == c.(touched := c.touched + [chat])
  {
    WithoutAbsent(c.touched, chat);
  }

  lemma {:induction false} WithoutAbsent(ids: seq<CC.Id>, id: CC.Id)
    requires id !in ids
    ensures CC.Without(ids, id) == ids
  {
    if ids != [] {
      assert ids == [ids[0]] + ids[1..];
      WithoutAbsent(ids[1..], id);
    }
  }

  lemma {:induction false} PageRead(c: CC.CacheState, chat: CC.Id, page: seq<CC.Message>, codec: ItemCodec, writer: ItemCodec)
    requires Reads(codec, writer) && |page| <= CC.DESKTOP_CACHE_PER_CHAT
    requires chat !in c.touched && |c.touched| < CC.DESKTOP_CACHE_CHATS
    ensures PageFrom(c, Map(PageFields(chat, page, writer)), codec) ==
            Good(c.(history := c.history[chat := page], touched := c.touched + [chat]))
  {
    hide Reads;
    var es := PageFields(chat, page, writer);
    MessagesRead(page, codec, writer);
    TouchNew(c.(history := c.history[chat := page]), chat);
    GetAt(es, 0);
    GetAt(es, 1);
  }

  function Pages(known: map<CC.Id, seq<CC.Message>>, history: map<CC.Id, seq<CC.Message>>, order: seq<CC.Id>):
    map<CC.Id, seq<CC.Message>>
    requires forall chat | chat in order :: chat in history
  {
    known + map chat | chat in order :: history[chat]
  }

  lemma {:induction false} PagesFromFront(c: CC.CacheState, items: seq<Value>, codec: ItemCodec, next: CC.CacheState)
    requires items != [] && PageFrom(c, items[0], codec) == Good(next)
    ensures PagesFrom(c, items, codec) == PagesFrom(next, items[1..], codec)
  {
    hide PageFrom;
  }

  lemma {:induction false} PageValuesFront(history: map<CC.Id, seq<CC.Message>>, order: seq<CC.Id>, codec: ItemCodec)
    requires order != [] && forall chat | chat in order :: chat in history
    ensures order[0] in history && forall chat | chat in order[1..] :: chat in history
    ensures PageValues(history, order, codec)[0] == Map(PageFields(order[0], history[order[0]], codec))
    ensures PageValues(history, order, codec)[1..] == PageValues(history, order[1..], codec)
  {
    assert order == [order[0]] + order[1..];
  }

  lemma {:induction false} PagesFront(known: map<CC.Id, seq<CC.Message>>, history: map<CC.Id, seq<CC.Message>>, order: seq<CC.Id>)
    requires order != [] && forall chat | chat in order :: chat in history
    ensures forall chat | chat in order[1..] :: chat in history
    ensures Pages(known[order[0] := history[order[0]]], history, order[1..]) == Pages(known, history, order)
  {
    assert order == [order[0]] + order[1..];
  }

  lemma {:induction false} PagesRead(c: CC.CacheState, history: map<CC.Id, seq<CC.Message>>, order: seq<CC.Id>, codec: ItemCodec, writer: ItemCodec)
    requires Reads(codec, writer) && NoTwice(order) && |c.touched| + |order| <= CC.DESKTOP_CACHE_CHATS
    requires forall chat | chat in order :: chat in history && chat !in c.touched && |history[chat]| <= CC.DESKTOP_CACHE_PER_CHAT
    ensures PagesFrom(c, PageValues(history, order, writer), codec) ==
            Good(c.(history := Pages(c.history, history, order), touched := c.touched + order))
    decreases |order|
  {
    hide Reads, PageFrom, PageValues, Pages, CC.CacheState.Touch, PageFields;
    if order == [] {
      NoPages(c.history, history);
      assert c.touched + order == c.touched;
      assert PageValues(history, order, writer) == [];
    } else {
      var chat := order[0];
      assert chat in order && forall x | x in order[1..] :: x in order;
      var next := c.(history := c.history[chat := history[chat]], touched := c.touched + [chat]);
      PageRead(c, chat, history[chat], codec, writer);
      PageValuesFront(history, order, writer);
      PagesFromFront(c, PageValues(history, order, writer), codec, next);
      PagesRead(next, history, order[1..], codec, writer);
      PagesFront(c.history, history, order);
      assert next.touched + order[1..] == c.touched + order;
    }
  }

  lemma {:induction false} NoPages(known: map<CC.Id, seq<CC.Message>>, history: map<CC.Id, seq<CC.Message>>)
    ensures Pages(known, history, []) == known
  {
  }

  // ---- faces ----

  lemma {:induction false} FaceRead(es: seq<Entry>, face: CC.Face)
    requires Get(es, SNAP_KEY_AVATAR) == Some(Value.Bytes(face.bytes)) && Get(es, SNAP_KEY_STAMP) == Some(Integer(face.stamp))
    requires FaceFit(face)
    ensures FaceFrom(es) == if Small(face) then Good(face) else Bad(Codec(TypeMismatch))
  {
  }

  lemma {:induction false} FaceFieldsRead(face: CC.Face, chat: CC.Id)
    requires FaceFit(face)
    ensures FaceFrom(FaceFields(face)) == if Small(face) then Good(face) else Bad(Codec(TypeMismatch))
    ensures FaceFrom(FaceValue(chat, face).entries) == FaceFrom(FaceFields(face))
    ensures Get(FaceValue(chat, face).entries, SNAP_KEY_CHAT) == Some(Value.Bytes(chat))
  {
    var es := FaceValue(chat, face).entries;
    GetAt(FaceFields(face), 0);
    GetAt(FaceFields(face), 1);
    GetAt(es, 0);
    GetAt(es, 1);
    GetAt(es, 2);
    FaceRead(FaceFields(face), face);
    FaceRead(es, face);
  }

  function Faces(known: map<CC.Id, CC.Face>, avatars: map<CC.Id, CC.Face>, order: seq<CC.Id>): map<CC.Id, CC.Face>
    requires forall chat | chat in order :: chat in avatars
  {
    known + map chat | chat in order :: avatars[chat]
  }

  predicate AllSmall(avatars: map<CC.Id, CC.Face>, order: seq<CC.Id>)
    requires forall chat | chat in order :: chat in avatars
  {
    forall chat | chat in order :: Small(avatars[chat])
  }

  lemma {:induction false} FacesFromFront(c: CC.CacheState, chat: CC.Id, face: CC.Face, items: seq<Value>)
    requires FaceFit(face) && items != [] && items[0] == FaceValue(chat, face)
    ensures FacesFrom(c, items) ==
            if Small(face) then FacesFrom(c.(avatars := c.avatars[chat := face]), items[1..]) else Bad(Codec(TypeMismatch))
  {
    hide FaceFrom;
    FaceFieldsRead(face, chat);
  }

  lemma {:induction false} FaceValuesFront(avatars: map<CC.Id, CC.Face>, order: seq<CC.Id>)
    requires order != [] && forall chat | chat in order :: chat in avatars
    ensures order[0] in avatars && forall chat | chat in order[1..] :: chat in avatars
    ensures FaceValues(avatars, order)[0] == FaceValue(order[0], avatars[order[0]])
    ensures FaceValues(avatars, order)[1..] == FaceValues(avatars, order[1..])
    ensures AllSmall(avatars, order) <==> Small(avatars[order[0]]) && AllSmall(avatars, order[1..])
  {
    assert order == [order[0]] + order[1..];
  }

  lemma {:induction false} FacesFront(known: map<CC.Id, CC.Face>, avatars: map<CC.Id, CC.Face>, order: seq<CC.Id>)
    requires order != [] && forall chat | chat in order :: chat in avatars
    ensures forall chat | chat in order[1..] :: chat in avatars
    ensures Faces(known[order[0] := avatars[order[0]]], avatars, order[1..]) == Faces(known, avatars, order)
  {
    assert order == [order[0]] + order[1..];
  }

  lemma {:induction false} FacesRead(c: CC.CacheState, avatars: map<CC.Id, CC.Face>, order: seq<CC.Id>)
    requires forall chat | chat in order :: chat in avatars && FaceFit(avatars[chat])
    ensures FacesFrom(c, FaceValues(avatars, order)) ==
            if AllSmall(avatars, order) then Good(c.(avatars := Faces(c.avatars, avatars, order))) else Bad(Codec(TypeMismatch))
    decreases |order|
  {
    hide FaceFrom, FaceValues, Faces, Small, FaceValue;
    if order == [] {
      NoFaces(c.avatars, avatars);
    } else {
      assert order[0] in order && forall x | x in order[1..] :: x in order;
      FaceValuesFront(avatars, order);
      FacesFromFront(c, order[0], avatars[order[0]], FaceValues(avatars, order));
      FacesRead(c.(avatars := c.avatars[order[0] := avatars[order[0]]]), avatars, order[1..]);
      FacesFront(c.avatars, avatars, order);
    }
  }

  lemma {:induction false} NoFaces(known: map<CC.Id, CC.Face>, avatars: map<CC.Id, CC.Face>)
    ensures Faces(known, avatars, []) == known
  {
  }

  // ---- the whole ----

  /** What comes back: the same content, unconfirmed and with nothing new, chats touched in walking order. */
  function Revived(c: CC.CacheState, order: seq<CC.Id>): CC.CacheState {
    c.(touched := order, dirty := false, confirmed := false)
  }

  lemma {:induction false} FieldsOf(m: Memory, walk: Walk, codec: ItemCodec)
    requires Walks(walk, m.cache)
    ensures var es := SnapshotFields(m, walk, codec);
            Get(es, SNAP_KEY_VERSION) == Some(Integer(SNAP_VERSION)) &&
            Get(es, SNAP_KEY_CHATS) == Some(Array(ChatValues(m.cache.chats, codec))) &&
            Get(es, SNAP_KEY_HISTORY) == Some(Array(PageValues(m.cache.history, walk.chats, codec))) &&
            Get(es, SNAP_KEY_AVATARS) == Some(Array(FaceValues(m.cache.avatars, walk.faces)))
    ensures var es := SnapshotFields(m, walk, codec);
            Get(es, SNAP_KEY_MINE) == (if m.cache.mine.Some? then Some(Map(FaceFields(m.cache.mine.value))) else None) &&
            Get(es, SNAP_KEY_ONION) == Some(Text(m.address.onion)) &&
            Get(es, SNAP_KEY_YGG) == Some(Value.Bytes(m.address.ygg)) &&
            Get(es, SNAP_KEY_PEERS) == Some(Array(PeerValues(m.address.peers)))
  {
    hide Walks, ChatValues, PageValues, FaceValues, PeerValues, FaceFields;
    var es := SnapshotFields(m, walk, codec);
    SnapshotNumbered(m, walk, codec);
    GetAt(es, 0);
    GetAt(es, 1);
    GetAt(es, 2);
    GetAt(es, 3);
    GetAt(es, |es| - 3);
    GetAt(es, |es| - 2);
    GetAt(es, |es| - 1);
    if m.cache.mine.Some? { GetAt(es, 4); } else { GetAbsent(es, SNAP_KEY_MINE); }
  }

  lemma {:induction false} WalkedFits(c: CC.CacheState, walk: Walk)
    requires Walks(walk, c) && Tidy(c)
    ensures |walk.chats| <= CC.DESKTOP_CACHE_CHATS && |walk.faces| <= CC.DESKTOP_CACHE_AVATARS
    ensures forall chat | chat in walk.chats :: |c.history[chat]| <= CC.DESKTOP_CACHE_PER_CHAT
    ensures forall chat | chat in walk.faces :: FaceFit(c.avatars[chat])
  {
    hide FaceFit, OncePerId;
    AsManyAsListed(walk.chats, c.history.Keys);
    AsManyAsListed(walk.faces, c.avatars.Keys);
    AsManyAsListed(c.touched, c.history.Keys);
  }

  lemma {:induction false} WalkedAll(c: CC.CacheState, walk: Walk)
    requires Walks(walk, c)
    ensures Pages(map[], c.history, walk.chats) == c.history && Faces(map[], c.avatars, walk.faces) == c.avatars
    ensures FacesSmall(c) <==> AllSmall(c.avatars, walk.faces) && (c.mine.Some? ==> Small(c.mine.value))
  {
    hide Small, NoTwice;
  }

  lemma {:induction false} FacesOfCache(c: CC.CacheState, chats: seq<CC.ChatSummary>, walk: Walk, codec: ItemCodec, writer: ItemCodec)
    requires Walks(walk, c) && Reads(codec, writer) && Tidy(c)
    ensures PagesFrom(CC.EMPTY.(chats := chats), PageValues(c.history, walk.chats, writer), codec) ==
            Good(CC.EMPTY.(chats := chats, history := c.history, touched := walk.chats))
    ensures var paged := CC.EMPTY.(chats := chats, history := c.history, touched := walk.chats);
            SomeFacesFrom(paged, Some(Array(FaceValues(c.avatars, walk.faces)))) ==
            if AllSmall(c.avatars, walk.faces) then Good(paged.(avatars := c.avatars)) else Bad(Codec(TypeMismatch))
  {
    hide Reads, PageFrom, FaceFrom, PageValues, FaceValues, Pages, Faces, Small, FaceFit, FacesSmall;
    WalkedFits(c, walk);
    WalkedAll(c, walk);
    var empty := CC.EMPTY.(chats := chats);
    PagesRead(empty, c.history, walk.chats, codec, writer);
    assert [] + walk.chats == walk.chats;
    FacesRead(empty.(history := c.history, touched := walk.chats), c.avatars, walk.faces);
  }

  lemma {:induction false} MineRead(c: CC.CacheState, mine: Option<CC.Face>)
    requires (mine.Some? ==> FaceFit(mine.value)) && c.mine == None
    ensures MineFrom(c, if mine.Some? then Some(Map(FaceFields(mine.value))) else None) ==
            if mine.Some? ==> Small(mine.value) then Good(c.(mine := mine)) else Bad(Codec(TypeMismatch))
  {
    hide FaceFrom;
    if mine.Some? { FaceFieldsRead(mine.value, seq(16, _ => 0)); }
  }

  /** A snapshot reads back, and gives the content it was taken of, exactly when its faces are within the
      limit the reader enforces. */
  lemma {:induction false} CacheRead(m: Memory, walk: Walk, codec: ItemCodec, writer: ItemCodec)
    requires Walks(walk, m.cache) && Reads(codec, writer) && Tidy(m.cache)
    ensures FromValue(SnapshotValue(m, walk, writer), codec) ==
            if FacesSmall(m.cache) then Good(Revived(m.cache, walk.chats)) else Bad(Codec(TypeMismatch))
  {
    hide Reads, SnapshotFields, PageValues, FaceValues, ChatValues, FaceFields, SomeFacesFrom, MineFrom, Small, Walks,
         FacesSmall, AllSmall;
    var c := m.cache;
    FieldsOf(m, walk, writer);
    ChatsRead(c.chats, codec, writer);
    WalkedFits(c, walk);
    WalkedAll(c, walk);
    FacesOfCache(c, c.chats, walk, codec, writer);
    if AllSmall(c.avatars, walk.faces) {
      MineRead(CC.EMPTY.(chats := c.chats, history := c.history, touched := walk.chats, avatars := c.avatars), c.mine);
    }
  }

  // ---- the phone's address ----

  predicate PeerFits(peer: Utf8) {
    peer != [] && |peer| <= MAX_PEER_LEN
  }

  /** The peers that survive reading: those of a fair length, and no more than the wire allows. */
  function FairPeers(peers: seq<Utf8>): seq<Utf8> {
    if peers == [] then []
    else if PeerFits(peers[0]) then [peers[0]] + FairPeers(peers[1..])
    else FairPeers(peers[1..])
  }

  lemma {:induction false} PeersRead(peers: seq<Utf8>)
    ensures GoodPeers(PeerValues(peers)) == FairPeers(peers)
  {
    if peers != [] {
      PeersRead(peers[1..]);
      assert PeerValues(peers)[1..] == PeerValues(peers[1..]);
    }
  }

  lemma {:induction false} FairPeersFewer(peers: seq<Utf8>)
    ensures |FairPeers(peers)| <= |peers|
    ensures |FairPeers(peers)| == |peers| <==> forall i | 0 <= i < |peers| :: PeerFits(peers[i])
    ensures |FairPeers(peers)| == |peers| ==> FairPeers(peers) == peers
  {
    if peers != [] {
      FairPeersFewer(peers[1..]);
      assert peers == [peers[0]] + peers[1..];
      assert forall i | 0 < i < |peers| :: peers[i] == peers[1..][i - 1];
    }
  }

  predicate AddressFits(address: Address) {
    (address.ygg == [] || |address.ygg| == YGG_KEY_LEN) && |address.peers| <= MAX_YGG_PEERS &&
    forall i | 0 <= i < |address.peers| :: PeerFits(address.peers[i])
  }

  /** What reading makes of a written address over the one already known. */
  function Readdressed(known: Address, written: Address): Address {
    CC.Address(written.onion, if written.ygg == [] || |written.ygg| == YGG_KEY_LEN then written.ygg else known.ygg,
            FirstPeers(FairPeers(written.peers)))
  }

  /** The address comes back whole exactly when it is one the wire could have carried; a mesh key of the
      wrong length is lost unless the terminal knew it anyway. */
  lemma {:induction false} AddressReadsBack(known: Address, written: Address)
    ensures Readdressed(known, written) == written <==> AddressFits(written.(ygg := if written.ygg == known.ygg then [] else written.ygg))
  {
    FairPeersFewer(written.peers);
  }

  lemma {:induction false} AddressRead(other: Memory, m: Memory, walk: Walk, codec: ItemCodec)
    requires Walks(walk, m.cache)
    ensures AddressFrom(other, SnapshotValue(m, walk, codec)) ==
            if other.addressDirty then other.address else Readdressed(other.address, m.address)
  {
    hide SnapshotFields, Walks;
    FieldsOf(m, walk, codec);
    PeersRead(m.address.peers);
  }

  // ---- sealed ----

  ghost predicate Opens(crypto: Crypto) {
    forall bytes, nonce | crypto.seal(bytes, nonce).Some? :: crypto.open(crypto.seal(bytes, nonce).value) == Some(bytes)
  }

  /** What restoring a snapshot of `m` does to a terminal. */
  function Restored(other: Memory, m: Memory, order: seq<CC.Id>): (Outcome<()>, Memory) {
    if FacesSmall(m.cache) then
      (Good(()), Memory(Revived(m.cache, order), if other.addressDirty then other.address else Readdressed(other.address, m.address),
                        other.addressDirty))
    else (Bad(Codec(TypeMismatch)), other)
  }

  lemma {:induction false} TidiedReads(codec: ItemCodec)
    requires CodecRoundTrips(codec)
    ensures Reads(codec, Tidied(codec))
  {
  }

  /** From the sealed bytes of any snapshot: the same content, or the whole of it refused. */
  lemma {:induction false} SnapshotRestores(m: Memory, other: Memory, walk: Walk, codec: ItemCodec, crypto: Crypto,
                                            bytes: seq<Byte>, sealed: seq<Byte>, limit: nat)
    requires Walks(walk, m.cache) && CodecRoundTrips(codec) && Tidy(m.cache)
    requires Readable(SnapshotValue(m, walk, codec), limit)
    requires EncodeValue(SnapshotValue(m, walk, codec)) == Ok(bytes) && crypto.open(sealed) == Some(bytes)
    ensures Restore(other, sealed, codec, crypto, limit) == Restored(other, m, walk.chats)
  {
    hide Walks, CodecRoundTrips, Tidy, Readable, SnapshotValue, AddressFrom, FromValue, Tidied, Reads;
    var tidy := Tidied(codec);
    SnapshotCanonical(m, walk, codec);
    DecodeEncode(SnapshotValue(m, walk, codec), limit);
    TidiedReads(codec);
    CacheRead(m, walk, codec, tidy);
    AddressRead(other, m, walk, tidy);
  }

  // ---- limits hold whatever the file says ----

  /** The bounds that reading enforces, on a cache nothing has confirmed or changed. Only "each id once" is
      left to whoever wrote the file. */
  ghost predicate Bounded(c: CC.CacheState) {
    (forall chat | chat in c.history :: |c.history[chat]| <= CC.DESKTOP_CACHE_PER_CHAT) && ChatsTidy(c.touched, c.history) &&
    FacesTidy(c) && FacesSmall(c) && !c.confirmed && !c.dirty
  }

  lemma {:induction false} PageFromBounded(c: CC.CacheState, v: Value, codec: ItemCodec)
    requires Bounded(c) && PageFrom(c, v, codec).Good?
    ensures Bounded(PageFrom(c, v, codec).value) && PageFrom(c, v, codec).value.avatars == c.avatars
  {
    hide Small, FaceFit;
    var chat := Require(v.entries, SNAP_KEY_CHAT).value.bytes;
    var messages := MessagesFrom(Require(v.entries, SNAP_KEY_PAGE).value.items, codec).value;
    TouchTidy(c.(history := c.history[chat := CC.Trim(messages)]), chat);
  }

  lemma {:induction false} PagesFromBounded(c: CC.CacheState, items: seq<Value>, codec: ItemCodec)
    requires Bounded(c) && PagesFrom(c, items, codec).Good?
    ensures Bounded(PagesFrom(c, items, codec).value) && PagesFrom(c, items, codec).value.avatars == c.avatars
    decreases |items|
  {
    hide Bounded, PageFrom;
    if items != [] {
      PageFromBounded(c, items[0], codec);
      PagesFromBounded(PageFrom(c, items[0], codec).value, items[1..], codec);
    }
  }

  lemma {:induction false} FaceFromFits(es: seq<Entry>)
    ensures FaceFrom(es).Good? ==> FaceFit(FaceFrom(es).value) && Small(FaceFrom(es).value)
  {
  }

  lemma {:induction false} OneMoreKey<K, V>(m: map<K, V>, key: K, val: V)
    ensures |m[key := val]| <= |m| + 1
    ensures forall x | x in m[key := val] :: m[key := val][x] == if x == key then val else m[x]
  {
    assert m[key := val].Keys == m.Keys + {key};
  }

  lemma {:induction false} OneMoreFace(c: CC.CacheState, chat: CC.Id, face: CC.Face)
    requires Bounded(c) && |c.avatars| < CC.DESKTOP_CACHE_AVATARS && FaceFit(face) && Small(face)
    ensures Bounded(c.(avatars := c.avatars[chat := face])) && |c.avatars[chat := face]| <= |c.avatars| + 1
  {
    hide FaceFit, Small, ChatsTidy;
    OneMoreKey(c.avatars, chat, face);
  }

  lemma {:induction false} FacesFromBounded(c: CC.CacheState, items: seq<Value>)
    requires Bounded(c) && |c.avatars| + |items| <= CC.DESKTOP_CACHE_AVATARS && FacesFrom(c, items).Good?
    ensures Bounded(FacesFrom(c, items).value)
    decreases |items|
  {
    hide Bounded, FaceFrom, FaceFit, Small;
    if items != [] {
      var chat := Require(items[0].entries, SNAP_KEY_CHAT).value.bytes;
      var face := FaceFrom(items[0].entries).value;
      FaceFromFits(items[0].entries);
      OneMoreFace(c, chat, face);
      FacesFromBounded(c.(avatars := c.avatars[chat := face]), items[1..]);
    }
  }

  lemma {:induction false} MineFromBounded(c: CC.CacheState, field: Option<Value>)
    requires Bounded(c) && MineFrom(c, field).Good?
    ensures Bounded(MineFrom(c, field).value)
  {
    hide FaceFrom, FaceFit, Small;
    if field.Some? { FaceFromFits(field.value.entries); }
  }

  /** Any file at all, of this build or another, read into any memory: the bounds hold of what comes up. */
  lemma {:induction false} AnyFileWithinBounds(v: Value, codec: ItemCodec)
    requires FromValue(v, codec).Good?
    ensures Bounded(FromValue(v, codec).value)
  {
    hide Bounded, PageFrom, FaceFrom, MineFrom;
    var chats := ChatsFrom(Require(v.entries, SNAP_KEY_CHATS).value.items, codec).value;
    var entries := Require(v.entries, SNAP_KEY_HISTORY).value.items;
    var empty := CC.EMPTY.(chats := chats);
    NewIsBounded(chats);
    PagesFromBounded(empty, entries, codec);
    var paged := PagesFrom(empty, entries, codec).value;
    var field := Get(v.entries, SNAP_KEY_AVATARS);
    if field.Some? && field.value.Array? { FacesFromBounded(paged, FirstFaces(field.value.items)); }
    var faced := SomeFacesFrom(paged, field).value;
    MineFromBounded(faced, Get(v.entries, SNAP_KEY_MINE));
  }

  lemma {:induction false} NewIsBounded(chats: seq<CC.ChatSummary>)
    ensures Bounded(CC.EMPTY.(chats := chats))
  {
  }
}
