/** The terminal's snapshot of what it remembers: a CBOR map, sealed, and read back. How one chat and one
    message become values is the item codec's business; sealing is a pair of functions. */
module Snapshots {
  import opened Bytes
  import opened Cbor
  import opened Canonical
  import opened CanonicalLaws
  import opened CanonicalTheorems
  import opened Fields
  import opened CompanionCacheLaws
  import CC = CompanionCache

  const SNAP_VERSION := 2
  const SNAP_KEY_VERSION := 1
  const SNAP_KEY_CHATS := 2
  const SNAP_KEY_HISTORY := 3
  const SNAP_KEY_CHAT := 4
  const SNAP_KEY_PAGE := 5
  const SNAP_KEY_AVATARS := 6
  const SNAP_KEY_MINE := 7
  const SNAP_KEY_AVATAR := 8
  const SNAP_KEY_STAMP := 9
  const SNAP_KEY_ONION := 10
  const SNAP_KEY_YGG := 11
  const SNAP_KEY_PEERS := 12

  const MAX_AVATAR_BYTES := 32 * 1024
  const YGG_KEY_LEN := 32
  const MAX_PEER_LEN := 256
  const MAX_YGG_PEERS := 16

  datatype CacheError = Codec(error: CodecError) | Sealed | Version

  datatype Outcome<+T> = Good(value: T) | Bad(why: CacheError) {
    predicate IsFailure() {
      Bad?
    }

    function PropagateFailure<U>(): (r: Outcome<U>)
      requires Bad?
    {
      Bad(why)
    }

    function Extract(): T
      requires Good?
    {
      value
    }
  }

  function Of<T>(r: Result<T>): Outcome<T> {
    match r
    case Ok(value) => Good(value)
    case Err(error) => Bad(Codec(error))
  }

  datatype ItemCodec = ItemCodec(chatValue: CC.ChatSummary -> Value, messageValue: CC.Message -> Value,
                                 chatFrom: Value -> Result<CC.ChatSummary>, messageFrom: Value -> Result<CC.Message>)

  type Address = CC.Address

  datatype Memory = Memory(cache: CC.CacheState, address: Address, addressDirty: bool)

  /** Sealing draws a fresh nonce each time. */
  datatype Crypto = Crypto(seal: (seq<Byte>, nat) -> Option<seq<Byte>>, open: seq<Byte> -> Option<seq<Byte>>)

  // ---- to a value ----

  function FaceFields(face: CC.Face): seq<Entry> {
    [Field(SNAP_KEY_AVATAR, Value.Bytes(face.bytes)), Field(SNAP_KEY_STAMP, Integer(face.stamp))]
  }

  function ChatValues(chats: seq<CC.ChatSummary>, codec: ItemCodec): (vs: seq<Value>)
    ensures |vs| == |chats|
  {
    seq(|chats|, i requires 0 <= i < |chats| => codec.chatValue(chats[i]))
  }

  function MessageValues(page: seq<CC.Message>, codec: ItemCodec): (vs: seq<Value>)
    ensures |vs| == |page|
  {
    seq(|page|, i requires 0 <= i < |page| => codec.messageValue(page[i]))
  }

  function PageFields(chat: CC.Id, page: seq<CC.Message>, codec: ItemCodec): seq<Entry> {
    [Field(SNAP_KEY_CHAT, Value.Bytes(chat)), Field(SNAP_KEY_PAGE, Array(MessageValues(page, codec)))]
  }

  function PageValues(history: map<CC.Id, seq<CC.Message>>, order: seq<CC.Id>, codec: ItemCodec): (vs: seq<Value>)
    requires forall chat | chat in order :: chat in history
    ensures |vs| == |order|
  {
    seq(|order|, i requires 0 <= i < |order| => Map(PageFields(order[i], history[order[i]], codec)))
  }

  function FaceValue(chat: CC.Id, face: CC.Face): Value {
    Map([Field(SNAP_KEY_CHAT, Value.Bytes(chat))] + FaceFields(face))
  }

  function FaceValues(avatars: map<CC.Id, CC.Face>, order: seq<CC.Id>): (vs: seq<Value>)
    requires forall chat | chat in order :: chat in avatars
    ensures |vs| == |order|
  {
    seq(|order|, i requires 0 <= i < |order| => FaceValue(order[i], avatars[order[i]]))
  }

  function PeerValues(peers: seq<Utf8>): (vs: seq<Value>)
    ensures |vs| == |peers|
  {
    seq(|peers|, i requires 0 <= i < |peers| => Text(peers[i]))
  }

  /** In which order the two ordered maps of a cache are walked. */
  datatype Walk = Walk(chats: seq<CC.Id>, faces: seq<CC.Id>)

  predicate Lists(order: seq<CC.Id>, all: set<CC.Id>) {
    (forall chat | chat in order :: chat in all) && (forall chat | chat in all :: chat in order) && NoTwice(order)
  }

  predicate Walks(walk: Walk, c: CC.CacheState) {
    Lists(walk.chats, c.history.Keys) && Lists(walk.faces, c.avatars.Keys)
  }

  function MineFields(mine: Option<CC.Face>): seq<Entry> {
    if mine.Some? then [Field(SNAP_KEY_MINE, Map(FaceFields(mine.value)))] else []
  }

  function CacheFields(c: CC.CacheState, walk: Walk, codec: ItemCodec): seq<Entry>
    requires Walks(walk, c)
  {
    [Field(SNAP_KEY_VERSION, Integer(SNAP_VERSION)),
     Field(SNAP_KEY_CHATS, Array(ChatValues(c.chats, codec))),
     Field(SNAP_KEY_HISTORY, Array(PageValues(c.history, walk.chats, codec))),
     Field(SNAP_KEY_AVATARS, Array(FaceValues(c.avatars, walk.faces)))] + MineFields(c.mine)
  }

  function AddressFields(address: Address): seq<Entry> {
    [Field(SNAP_KEY_ONION, Text(address.onion)),
     Field(SNAP_KEY_YGG, Value.Bytes(address.ygg)),
     Field(SNAP_KEY_PEERS, Array(PeerValues(address.peers)))]
  }

  function SnapshotFields(m: Memory, walk: Walk, codec: ItemCodec): seq<Entry>
    requires Walks(walk, m.cache)
  {
    CacheFields(m.cache, walk, codec) + AddressFields(m.address)
  }

  function SnapshotValue(m: Memory, walk: Walk, codec: ItemCodec): Value
    requires Walks(walk, m.cache)
  {
    Map(SnapshotFields(m, walk, codec))
  }

  function Snapshot(m: Memory, walk: Walk, codec: ItemCodec, crypto: Crypto, nonce: nat): (Outcome<seq<Byte>>, Memory)
    requires Walks(walk, m.cache)
  {
    match EncodeValue(SnapshotValue(m, walk, codec))
    case Err(error) => (Bad(Codec(error)), m)
    case Ok(bytes) =>
      match crypto.seal(bytes, nonce)
      case None => (Bad(Sealed), m)
      case Some(sealed) => (Good(sealed), m.(cache := m.cache.(dirty := false), addressDirty := false))
  }

  predicate SnapshotDue(m: Memory) {
    m.cache.dirty || m.addressDirty
  }

  // ---- from a value ----

  function FaceFrom(es: seq<Entry>): Outcome<CC.Face> {
    var avatar :- Of(Require(es, SNAP_KEY_AVATAR));
    var bytes :- Of(AsBytes(avatar));
    var raw :- Of(Require(es, SNAP_KEY_STAMP));
    var stamp :- Of(AsU64(raw));
    if bytes == [] || stamp == 0 || |bytes| > MAX_AVATAR_BYTES then Bad(Codec(TypeMismatch))
    else Good(CC.Face(bytes, stamp))
  }

  function ChatsFrom(items: seq<Value>, codec: ItemCodec): Outcome<seq<CC.ChatSummary>> {
    if items == [] then Good([])
    else
      var first :- Of(codec.chatFrom(items[0]));
      var others :- ChatsFrom(items[1..], codec);
      Good([first] + others)
  }

  function MessagesFrom(items: seq<Value>, codec: ItemCodec): Outcome<seq<CC.Message>> {
    if items == [] then Good([])
    else
      var first :- Of(codec.messageFrom(items[0]));
      var others :- MessagesFrom(items[1..], codec);
      Good([first] + others)
  }

  function AsItems(v: Value): Result<seq<Value>> {
    if v.Array? then Ok(v.items) else Err(TypeMismatch)
  }

  /** One remembered chat: limits are applied on reading too. */
  function PageFrom(c: CC.CacheState, v: Value, codec: ItemCodec): Outcome<CC.CacheState> {
    var entry :- Of(AsMap(v));
    var raw :- Of(Require(entry, SNAP_KEY_CHAT));
    var chat :- Of(AsArray(raw, 16));
    var page :- Of(Require(entry, SNAP_KEY_PAGE));
    var items :- Of(AsItems(page));
    var messages :- MessagesFrom(items, codec);
    Good(c.(history := c.history[chat := CC.Trim(messages)]).Touch(chat))
  }

  function PagesFrom(c: CC.CacheState, items: seq<Value>, codec: ItemCodec): Outcome<CC.CacheState>
    decreases |items|
  {
    if items == [] then Good(c)
    else
      var next :- PageFrom(c, items[0], codec);
      PagesFrom(next, items[1..], codec)
  }

  function FacesFrom(c: CC.CacheState, items: seq<Value>): Outcome<CC.CacheState>
    decreases |items|
  {
    if items == [] then Good(c)
    else
      var entry :- Of(AsMap(items[0]));
      var raw :- Of(Require(entry, SNAP_KEY_CHAT));
      var chat :- Of(AsArray(raw, 16));
      var face :- FaceFrom(entry);
      FacesFrom(c.(avatars := c.avatars[chat := face]), items[1..])
  }

  function FirstFaces(items: seq<Value>): seq<Value> {
    if |items| <= CC.DESKTOP_CACHE_AVATARS then items else items[..CC.DESKTOP_CACHE_AVATARS]
  }

  function SomeFacesFrom(c: CC.CacheState, field: Option<Value>): Outcome<CC.CacheState> {
    if field.Some? && field.value.Array? then FacesFrom(c, FirstFaces(field.value.items)) else Good(c)
  }

  function MineFrom(c: CC.CacheState, field: Option<Value>): Outcome<CC.CacheState> {
    if field.None? then Good(c)
    else
      var entry :- Of(AsMap(field.value));
      var face :- FaceFrom(entry);
      Good(c.(mine := Some(face)))
  }

  function FromValue(v: Value, codec: ItemCodec): Outcome<CC.CacheState> {
    var map_ :- Of(AsMap(v));
    var rawVersion :- Of(Require(map_, SNAP_KEY_VERSION));
    var version :- Of(AsU64(rawVersion));
    if version != SNAP_VERSION then Bad(Version)
    else
      var rawChats :- Of(Require(map_, SNAP_KEY_CHATS));
      var chatItems :- Of(AsItems(rawChats));
      var rawHistory :- Of(Require(map_, SNAP_KEY_HISTORY));
      var entries :- Of(AsItems(rawHistory));
      var chats :- ChatsFrom(chatItems, codec);
      var paged :- PagesFrom(CC.EMPTY.(chats := chats), entries, codec);
      var faced :- SomeFacesFrom(paged, Get(map_, SNAP_KEY_AVATARS));
      MineFrom(faced, Get(map_, SNAP_KEY_MINE))
  }

  function GoodPeers(items: seq<Value>): seq<Utf8> {
    if items == [] then []
    else if items[0].Text? && items[0].text != [] && |items[0].text| <= MAX_PEER_LEN then
      [items[0].text] + GoodPeers(items[1..])
    else GoodPeers(items[1..])
  }

  function FirstPeers(peers: seq<Utf8>): seq<Utf8> {
    if |peers| <= MAX_YGG_PEERS then peers else peers[..MAX_YGG_PEERS]
  }

  function OnionFrom(known: Utf8, field: Option<Value>): Utf8 {
    if field.Some? && field.value.Text? then field.value.text else known
  }

  function YggFrom(known: seq<Byte>, field: Option<Value>): seq<Byte> {
    if field.Some? && field.value.Bytes? && (field.value.bytes == [] || |field.value.bytes| == YGG_KEY_LEN) then
      field.value.bytes
    else known
  }

  function PeersFrom(known: seq<Utf8>, field: Option<Value>): seq<Utf8> {
    if field.Some? && field.value.Array? then FirstPeers(GoodPeers(field.value.items)) else known
  }

  /** The file's address over the invitation's, but never over one announced live. */
  function AddressFrom(m: Memory, v: Value): Address {
    if m.addressDirty || !v.Map? then m.address
    else
      CC.Address(OnionFrom(m.address.onion, Get(v.entries, SNAP_KEY_ONION)),
                 YggFrom(m.address.ygg, Get(v.entries, SNAP_KEY_YGG)),
                 PeersFrom(m.address.peers, Get(v.entries, SNAP_KEY_PEERS)))
  }

  /** A failure of any kind leaves the memory as it was. */
  function Restore(m: Memory, sealed: seq<Byte>, codec: ItemCodec, crypto: Crypto, limit: nat): (Outcome<()>, Memory) {
    match crypto.open(sealed)
    case None => (Bad(Sealed), m)
    case Some(bytes) =>
      match DecodeValue(bytes, limit)
      case Err(error) => (Bad(Codec(error)), m)
      case Ok(v) =>
        match FromValue(v, codec)
        case Bad(why) => (Bad(why), m)
        case Good(cache) => (Good(()), m.(cache := cache, address := AddressFrom(m, v)))
  }
}
