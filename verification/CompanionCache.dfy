/** The window of the conversation a companion terminal remembers, as a function of its state. */
module CompanionCache {
  import opened Bytes
  import Cbor

  type Utf8 = Cbor.Utf8

  type Id = s: seq<Byte> | |s| == 16 witness seq(16, _ => 0)

  const DESKTOP_CACHE_PER_CHAT := 1000
  const DESKTOP_CACHE_CHATS := 64
  const DESKTOP_CACHE_AVATARS := 256

  // In each of these, `rest` stands for the fields no rule below reads or writes.

  datatype Attachment = Attachment(fileId: Id, haveChunks: u64, accepted: bool, rest: seq<Byte>)

  datatype Message = Message(msgId: Id, chat: Id, wallMs: u64, reactions: seq<string>, files: seq<Attachment>, rest: seq<Byte>)

  datatype ChatSummary = ChatSummary(chat: Id, lastText: string, avatarMs: u64, rest: seq<Byte>)

  datatype Face = Face(bytes: seq<Byte>, stamp: u64)

  /** Where the phone can be called: announced over a live channel, given by an invitation, or read from disk. */
  datatype Address = Address(onion: Utf8, ygg: seq<Byte>, peers: seq<Utf8>)

  // ---- pages ----

  predicate HasId(page: seq<Message>, id: Id) {
    exists m | m in page :: m.msgId == id
  }

  /** What is left of a page once the ids of another are taken out of it. */
  function WithoutIdsOf(page: seq<Message>, other: seq<Message>): seq<Message> {
    if page == [] then []
    else if HasId(other, page[0].msgId) then WithoutIdsOf(page[1..], other)
    else [page[0]] + WithoutIdsOf(page[1..], other)
  }

  function WithoutIds(page: seq<Message>, ids: seq<Id>): seq<Message> {
    if page == [] then []
    else if page[0].msgId in ids then WithoutIds(page[1..], ids)
    else [page[0]] + WithoutIds(page[1..], ids)
  }

  /** Order by wall clock, then by id. */
  predicate Before(a: Message, b: Message) {
    a.wallMs < b.wallMs || (a.wallMs == b.wallMs && LexLess(a.msgId, b.msgId))
  }

  function SortPage(page: seq<Message>): (r: seq<Message>)
    ensures |r| == |page|
  {
    if page == [] then [] else InsertMessage(page[0], SortPage(page[1..]))
  }

  function InsertMessage(m: Message, page: seq<Message>): (r: seq<Message>)
    ensures |r| == |page| + 1
  {
    if page == [] || !Before(page[0], m) then [m] + page else [page[0]] + InsertMessage(m, page[1..])
  }

  /** The newest messages of a page, as many as are kept. */
  function Trim(page: seq<Message>): (r: seq<Message>)
    ensures |r| <= DESKTOP_CACHE_PER_CHAT
  {
    if |page| > DESKTOP_CACHE_PER_CHAT then page[|page| - DESKTOP_CACHE_PER_CHAT..] else page
  }

  /** A newer page laid over an older one: what both speak of is the newer's, and the newest are kept. */
  function Merge(known: seq<Message>, page: seq<Message>): seq<Message> {
    Trim(SortPage(WithoutIdsOf(known, page) + page))
  }

  function IndexOf(page: seq<Message>, id: Id): (r: Option<nat>)
    ensures r.Some? ==> r.value < |page| && page[r.value].msgId == id
    ensures r.None? ==> !HasId(page, id)
  {
    if page == [] then None
    else if page[0].msgId == id then Some(0)
    else
      match IndexOf(page[1..], id)
      case None => None
      case Some(i) => Some(i + 1)
  }

  function MoveFile(file: Attachment, fileId: Id, haveChunks: u64, accepted: bool): Attachment {
    if file.fileId == fileId then file.(haveChunks := haveChunks, accepted := accepted) else file
  }

  function MoveFiles(files: seq<Attachment>, fileId: Id, haveChunks: u64, accepted: bool): (r: seq<Attachment>)
    ensures |r| == |files|
  {
    seq(|files|, i requires 0 <= i < |files| => MoveFile(files[i], fileId, haveChunks, accepted))
  }

  function DropFile(files: seq<Attachment>, fileId: Id): seq<Attachment> {
    if files == [] then []
    else if files[0].fileId == fileId then DropFile(files[1..], fileId)
    else [files[0]] + DropFile(files[1..], fileId)
  }

  predicate HasFile(m: Message, fileId: Id) {
    exists i | 0 <= i < |m.files| :: m.files[i].fileId == fileId
  }

  function FileMoved(m: Message, fileId: Id, haveChunks: u64, accepted: bool): Message {
    m.(files := MoveFiles(m.files, fileId, haveChunks, accepted))
  }

  function FileDropped(m: Message, fileId: Id): Message {
    m.(files := DropFile(m.files, fileId))
  }

  function MapPage(page: seq<Message>, f: Message -> Message): (r: seq<Message>)
    ensures |r| == |page|
  {
    seq(|page|, i requires 0 <= i < |page| => f(page[i]))
  }

  function MapHistory(history: map<Id, seq<Message>>, f: Message -> Message): (r: map<Id, seq<Message>>)
    ensures r.Keys == history.Keys && forall chat | chat in history :: r[chat] == MapPage(history[chat], f)
  {
    map chat | chat in history :: MapPage(history[chat], f)
  }

  predicate AnyFile(history: map<Id, seq<Message>>, fileId: Id) {
    exists chat, i | chat in history && 0 <= i < |history[chat]| :: HasFile(history[chat][i], fileId)
  }

  // ---- chats ----

  function Without(ids: seq<Id>, id: Id): seq<Id> {
    if ids == [] then []
    else if ids[0] == id then Without(ids[1..], id)
    else [ids[0]] + Without(ids[1..], id)
  }

  function Only(ids: seq<Id>, alive: set<Id>): seq<Id> {
    if ids == [] then []
    else if ids[0] in alive then [ids[0]] + Only(ids[1..], alive)
    else Only(ids[1..], alive)
  }

  function ChatIds(chats: seq<ChatSummary>): set<Id> {
    set i | 0 <= i < |chats| :: chats[i].chat
  }

  /** The chats whose faces there is something to show of. */
  function FacedIds(chats: seq<ChatSummary>): set<Id> {
    set i | 0 <= i < |chats| && chats[i].avatarMs != 0 :: chats[i].chat
  }

  function ClearText(chats: seq<ChatSummary>, chat: Id): seq<ChatSummary> {
    if chats == [] then []
    else if chats[0].chat == chat then [chats[0].(lastText := "")] + chats[1..]
    else [chats[0]] + ClearText(chats[1..], chat)
  }

  datatype CacheState = CacheState(chats: seq<ChatSummary>, history: map<Id, seq<Message>>, touched: seq<Id>,
                                   dirty: bool, confirmed: bool, avatars: map<Id, Face>, mine: Option<Face>) {

    function Page(chat: Id): seq<Message> {
      if chat in history then history[chat] else []
    }

    /** Chats looked into longest ago give way, one at a time. */
    function Evicted(): CacheState
      decreases |touched|
    {
      if |touched| <= DESKTOP_CACHE_CHATS then this
      else this.(touched := touched[1..], history := history - {touched[0]}).Evicted()
    }

    function Touch(chat: Id): CacheState {
      this.(touched := Without(touched, chat) + [chat]).Evicted()
    }

    function TrimAvatars(): CacheState {
      if |avatars| <= DESKTOP_CACHE_AVATARS then this
      else
        var first := if |chats| <= DESKTOP_CACHE_AVATARS then chats else chats[..DESKTOP_CACHE_AVATARS];
        this.(avatars := map chat | chat in avatars && chat in ChatIds(first) :: avatars[chat])
    }

    function Unconfirm(): CacheState {
      this.(confirmed := false)
    }

    /** A chat no longer listed takes its history along, and one with nothing to show its face. */
    function Outlive(newChats: seq<ChatSummary>): CacheState {
      var alive, faced := ChatIds(newChats), FacedIds(newChats);
      this.(chats := newChats, history := map chat | chat in history && chat in alive :: history[chat],
            touched := Only(touched, alive), avatars := map chat | chat in avatars && chat in faced :: avatars[chat])
    }

    function RememberChats(newChats: seq<ChatSummary>): CacheState {
      Outlive(newChats).TrimAvatars().(confirmed := true, dirty := true)
    }

    function RememberPage(chat: Id, page: seq<Message>, fromStart: bool): CacheState {
      var seen := this.(confirmed := true, dirty := true);
      if page == [] then
        if fromStart then seen.(history := history - {chat}, touched := Without(touched, chat)) else seen
      else
        seen.(history := history[chat := Merge(Page(chat), page)]).Touch(chat)
    }

    function RememberAvatar(chat: Option<Id>, bytes: Option<seq<Byte>>, stamp: u64): CacheState {
      var seen := this.(confirmed := true, dirty := true);
      var face := if bytes.Some? && bytes.value != [] && stamp != 0 then Some(Face(bytes.value, stamp)) else None;
      match chat
      case None => seen.(mine := face)
      case Some(id) =>
        if face.Some? then seen.(avatars := avatars[id := face.value]).TrimAvatars()
        else seen.(avatars := avatars - {id})
    }

    function Arrived(m: Message): CacheState {
      if m.chat !in history then this
      else
        this.(dirty := true, history := history[m.chat := Merge(history[m.chat], [m])]).Touch(m.chat)
    }

    function Reacted(chat: Id, id: Id, reactions: seq<string>): CacheState {
      if chat !in history then this
      else
        match IndexOf(history[chat], id)
        case None => this
        case Some(i) =>
          this.(dirty := true, history := history[chat := history[chat][i := history[chat][i].(reactions := reactions)]])
    }

    function Edited(m: Message): CacheState {
      if m.chat !in history then this
      else
        match IndexOf(history[m.chat], m.msgId)
        case None => this
        case Some(i) => this.(dirty := true, history := history[m.chat := history[m.chat][i := m]])
    }

    function FileProgress(fileId: Id, haveChunks: u64, accepted: bool): CacheState {
      this.(history := MapHistory(history, m => FileMoved(m, fileId, haveChunks, accepted)),
            dirty := dirty || AnyFile(history, fileId))
    }

    function FileGone(fileId: Id): CacheState {
      this.(history := MapHistory(history, m => FileDropped(m, fileId)), dirty := dirty || AnyFile(history, fileId))
    }

    function Gone(chat: Id, ids: seq<Id>): CacheState {
      this.(history := if chat in history then history[chat := WithoutIds(history[chat], ids)] else history,
            chats := ClearText(chats, chat), dirty := true)
    }
  }

  const EMPTY := CacheState([], map[], [], false, false, map[], None)

  // ---- everything that happens to a cache ----

  datatype CacheEvent =
    | LinkLost
    | ChatsCame(chats: seq<ChatSummary>)
    | PageCame(chat: Id, page: seq<Message>, fromStart: bool)
    | FaceCame(of: Option<Id>, bytes: Option<seq<Byte>>, stamp: u64)
    | MessageCame(m: Message)
    | MessageEdited(m: Message)
    | ReactionsCame(chat: Id, id: Id, reactions: seq<string>)
    | FileMovedOn(fileId: Id, haveChunks: u64, accepted: bool)
    | FileWent(fileId: Id)
    | MessagesWent(chat: Id, ids: seq<Id>)
    | PairingRevoked
    | SnapshotTaken

  function Apply(c: CacheState, e: CacheEvent): CacheState {
    match e
    case LinkLost => c.Unconfirm()
    case ChatsCame(chats) => c.RememberChats(chats)
    case PageCame(chat, page, fromStart) => c.RememberPage(chat, page, fromStart)
    case FaceCame(of, bytes, stamp) => c.RememberAvatar(of, bytes, stamp)
    case MessageCame(m) => c.Arrived(m)
    case MessageEdited(m) => c.Edited(m)
    case ReactionsCame(chat, id, reactions) => c.Reacted(chat, id, reactions)
    case FileMovedOn(fileId, haveChunks, accepted) => c.FileProgress(fileId, haveChunks, accepted)
    case FileWent(fileId) => c.FileGone(fileId)
    case MessagesWent(chat, ids) => c.Gone(chat, ids)
    case PairingRevoked => EMPTY
    case SnapshotTaken => c.(dirty := false)
  }

  function Run(events: seq<CacheEvent>): CacheState {
    if events == [] then EMPTY else Apply(Run(events[..|events| - 1]), events[|events| - 1])
  }
}
